/** calibrate_servos.py: the `ServoCalibrator` that walks seven servos
    through a LOW and then a HIGH phase, reading one key at a time.

    The first half of the module is the specification: a `State` value
    holding the calibrator's fields and the driver's registers, the effect
    of one key (`Key`), and the whole session (`Run`). The lemmas after it
    are the properties of a session. The class `ServoCalibrator` at the end
    is the object of the script, with the same fields; its methods are
    proved to act as the specification says. */
module CalibrateServos {
  import opened Pwm
  import opened Saturation
  import opened Tables
  import opened Text

  const SERVOS: nat := 7
  /** PWM frequency used by `__init__`. */
  const FREQUENCY: int := 50
  /** Bounds of the pulse-width positions the movement keys allow. */
  const MIN_PULSE: int := 150
  const MAX_PULSE: int := 600
  /** `current_position` when the calibrator is created. */
  const START_POSITION: int := 400
  /** The `[low, high]` pair every servo starts with. */
  const DEFAULT_LIMITS: Limits := Limits(300, 500)
  /** The steps of the `a`/`d` and the `z`/`c` keys. */
  const LARGE_STEP: nat := 10
  const SMALL_STEP: nat := 1

  /** The name of each servo, the first field of its `SERVO_INFO` entry. */
  const SERVO_NAMES: seq<string> := [
    "Head Rotation", "Neck Top Joint", "Neck Bottom Joint", "Eye Right", "Eye Left", "Arm Left", "Arm Right"
  ]

  /** `position << 4`: the duty value written for a pulse-width position.
      On Python integers a left shift by four is a multiplication by 16. */
  function PulseToDuty(p: int): (duty: int)
    ensures duty % 16 == 0 && duty / 16 == p
    ensures MIN_PULSE <= p <= MAX_PULSE ==> 2400 <= duty <= 9600 <= MAX_DUTY
  {
    p * 16
  }

  /** Distinct positions give distinct duties, in the same order. */
  lemma PulseToDutyStrictlyMonotone(p: int, q: int)
    requires p < q
    ensures PulseToDuty(p) + 16 <= PulseToDuty(q)
  {
  }

  // ---------------------------------------------------------------------
  // Specification

  /** The fields of a `ServoCalibrator` together with the registers of its
      driver and the writes issued to them. */
  datatype State = State(servo: int, isLow: bool, position: int,
                         preset: seq<Limits>, duty: seq<int>, log: seq<Write>)
  {
    /** 0 for the LOW phase, 1 for the HIGH phase. */
    function Phase(): nat
    {
      if isLow then 0 else 1
    }

    /** How many positions have been confirmed in calibration order: the
        slot the next confirm writes. */
    function Progress(): int
    {
      2 * servo + Phase()
    }

    /** The invariant of a calibrator: the servo index is in range (and once
        all servos are done the phase has been reset to LOW), the position
        lies within the pulse bounds, the preset table has one pair per
        servo holding positions within the bounds, and the driver has 16
        registers. */
    predicate Valid()
    {
      0 <= servo <= SERVOS && (servo == SERVOS ==> isLow)
      && MIN_PULSE <= position <= MAX_PULSE
      && |preset| == SERVOS && Within(preset, MIN_PULSE, MAX_PULSE)
      && |duty| == CHANNELS
    }
  }

  /** The state `__init__` leaves, on a driver with the given registers and
      write history. */
  function Initial(duty: seq<int>, log: seq<Write>): (s: State)
    requires |duty| == CHANNELS
    ensures s.Valid() && s.Progress() == 0
  {
    State(0, true, START_POSITION, Repeat(SERVOS, DEFAULT_LIMITS), duty, log)
  }

  /** `set_servo_pulse(p)`: the duty `p << 4` goes to channel `servo` first,
      and then `p` becomes the current position. */
  function Pulse(s: State, p: int): (t: State)
    requires s.Valid() && s.servo < SERVOS && MIN_PULSE <= p <= MAX_PULSE
    ensures t.Valid() && t.Progress() == s.Progress() && t.preset == s.preset
  {
    s.(position := p, duty := s.duty[s.servo := PulseToDuty(p)],
       log := s.log + [Write(s.servo, PulseToDuty(p))])
  }

  /** The top of the outer loop: when a servo remains, its channel is
      enabled at the current position. */
  function Enter(s: State): (t: State)
    requires s.Valid()
    ensures t.Valid() && t.Progress() == s.Progress()
    ensures t.servo == s.servo && t.isLow == s.isLow && t.position == s.position && t.preset == s.preset
    ensures s.servo < SERVOS ==> t.duty == s.duty[s.servo := PulseToDuty(s.position)]
    ensures s.servo < SERVOS ==> t.log == s.log + [Write(s.servo, PulseToDuty(s.position))]
    ensures s.servo >= SERVOS ==> t == s
  {
    if s.servo < SERVOS then Pulse(s, s.position) else s
  }

  /** `n`: record the current position in the slot of the current phase and
      move to the next phase. The position is not reseeded: it carries over
      into the next phase and the next servo. */
  function Confirm(s: State): (t: State)
    requires s.Valid() && s.servo < SERVOS
    ensures t.Valid()
    ensures t.Progress() == s.Progress() + 1
    ensures t.preset == Store(s.preset, s.servo, s.Phase(), s.position)
    ensures t.position == s.position && t.duty == s.duty && t.log == s.log
  {
    StoreWithin(s.preset, s.servo, s.Phase(), s.position, MIN_PULSE, MAX_PULSE);
    var preset := Store(s.preset, s.servo, s.Phase(), s.position);
    if s.isLow then s.(preset := preset, isLow := false)
    else s.(preset := preset, servo := s.servo + 1, isLow := true)
  }

  /** The position a movement key asks for, or the current one for any
      other key: `a` and `z` never raise the position, `d` and `c` never
      lower it, `a` and `d` move it by at most 10 and `z` and `c` by at
      most 1, and a position within the pulse bounds stays within them. */
  function Target(position: int, c: char): (r: int)
    ensures !IsMove(c) ==> r == position
    ensures MIN_PULSE <= position <= MAX_PULSE ==> MIN_PULSE <= r <= MAX_PULSE
    ensures MIN_PULSE <= position <= MAX_PULSE ==>
      (c == 'a' || c == 'z' ==> r <= position) && (c == 'd' || c == 'c' ==> position <= r)
    ensures MIN_PULSE <= position <= MAX_PULSE ==>
      position - LARGE_STEP <= r <= position + LARGE_STEP
      && (c == 'z' || c == 'c' ==> position - SMALL_STEP <= r <= position + SMALL_STEP)
  {
    if c == 'a' then Down(position, LARGE_STEP, MIN_PULSE)
    else if c == 'd' then Up(position, LARGE_STEP, MAX_PULSE)
    else if c == 'z' then Down(position, SMALL_STEP, MIN_PULSE)
    else if c == 'c' then Up(position, SMALL_STEP, MAX_PULSE)
    else position
  }

  predicate IsMove(c: char)
  {
    c == 'a' || c == 'd' || c == 'z' || c == 'c'
  }

  /** One key other than `q` while a servo remains. */
  function Key(s: State, c: char): (t: State)
    requires s.Valid() && s.servo < SERVOS
    ensures t.Valid() && s.servo <= t.servo
    ensures c == 'n' ==> t.Progress() == s.Progress() + 1 && t.position == s.position
    ensures c == 'n' ==> t.preset == Store(s.preset, s.servo, s.Phase(), s.position)
    ensures c != 'n' ==> t.Progress() == s.Progress() && t.preset == s.preset
    ensures IsMove(c) ==> t.position == Target(s.position, c)
    ensures !IsMove(c) && c != 'n' ==> t == s
  {
    if c == 'n' then Enter(Confirm(s))
    else if IsMove(c) then
      StepsStayInRange(s.position, LARGE_STEP, MIN_PULSE, MAX_PULSE);
      StepsStayInRange(s.position, SMALL_STEP, MIN_PULSE, MAX_PULSE);
      Pulse(s, Target(s.position, c))
    else s
  }

  /** What one key writes to the driver. A movement key writes the duty of
      its target to the current servo's channel. `n` writes nothing itself,
      but the outer loop then enables the channel of the next phase at the
      unchanged position; after the last servo nothing is written. Any other
      key writes nothing. */
  lemma KeyWrites(s: State, c: char)
    requires s.Valid() && s.servo < SERVOS
    ensures var t := Key(s, c);
      (IsMove(c) ==>
         t.duty == s.duty[s.servo := PulseToDuty(t.position)] && t.log == s.log + [Write(s.servo, PulseToDuty(t.position))])
      && (c == 'n' && t.servo < SERVOS ==>
            t.duty == s.duty[t.servo := PulseToDuty(s.position)] && t.log == s.log + [Write(t.servo, PulseToDuty(s.position))])
      && (c == 'n' && t.servo == SERVOS ==> t.duty == s.duty && t.log == s.log)
      && (!IsMove(c) && c != 'n' ==> t.duty == s.duty && t.log == s.log)
  {
  }

  datatype Status = Completed | Aborted | AwaitingInput

  /** How one phase of the inner key loop ended: confirmed with `n`, quit
      with `q`, or out of keys. */
  datatype PhaseEnd = Next | Quit | NoMoreKeys

  /** How a session ended, the state it ended in, and how many keys it
      read. `AwaitingInput` means the keys ran out while servos remained:
      the script would still be waiting for the next key. */
  datatype Outcome = Outcome(status: Status, state: State, used: nat)

  /** The `calibrate` loop read from state `s` on the keys `keys`. */
  function Run(s: State, keys: seq<char>): (r: Outcome)
    requires s.Valid()
    ensures r.state.Valid() && r.used <= |keys|
    ensures r.state.servo >= s.servo
    ensures r.status == Completed <==> r.state.servo == SERVOS
    decreases |keys|
  {
    if s.servo >= SERVOS then Outcome(Completed, s, 0)
    else if keys == [] then Outcome(AwaitingInput, s, 0)
    else if keys[0] == 'q' then Outcome(Aborted, s, 1)
    else
      var r := Run(Key(s, keys[0]), keys[1..]);
      r.(used := r.used + 1)
  }

  /** The positions the session confirms, in order, each with the slot it
      is written to. */
  function Confirmed(s: State, keys: seq<char>): seq<(int, int)>
    requires s.Valid()
    decreases |keys|
  {
    if s.servo >= SERVOS || keys == [] || keys[0] == 'q' then []
    else
      (if keys[0] == 'n' then [(s.Progress(), s.position)] else [])
      + Confirmed(Key(s, keys[0]), keys[1..])
  }

  // ---------------------------------------------------------------------
  // Properties of a session

  /** The slots a session writes are consecutive, starting at the slot the
      session started at, so no slot is written twice; and the session ends
      at the slot after the last one written. */
  lemma {:induction false} ConfirmedSlots(s: State, keys: seq<char>)
    requires s.Valid()
    ensures var w := Confirmed(s, keys);
      Run(s, keys).state.Progress() == s.Progress() + |w|
      && forall k :: 0 <= k < |w| ==> w[k].0 == s.Progress() + k
    decreases |keys|
  {
    if s.servo < SERVOS && keys != [] && keys[0] != 'q' {
      ConfirmedSlots(Key(s, keys[0]), keys[1..]);
    }
  }

  /** The table a session leaves: every slot it wrote holds the position
      confirmed for it, and every other slot holds what it held before. */
  lemma {:induction false} RunTable(s: State, keys: seq<char>, slot: nat)
    requires s.Valid() && slot < 2 * SERVOS
    ensures var w := Confirmed(s, keys); var p := s.Progress();
      0 <= p
      && Cell(Run(s, keys).state.preset, slot)
         == if p <= slot < p + |w| then w[slot - p].1 else Cell(s.preset, slot)
    decreases |keys|
  {
    if s.servo < SERVOS && keys != [] && keys[0] != 'q' {
      var c, rest := keys[0], keys[1..];
      var t := Key(s, c);
      RunTable(t, rest, slot);
      ConfirmedSlots(t, rest);
      KeyCell(s, c, slot);
      KeyStep(s, keys);
      if c == 'n' && s.Progress() < slot {
        var w := Confirmed(s, keys);
        assert slot - s.Progress() < |w| ==> w[slot - s.Progress()] == Confirmed(t, rest)[slot - t.Progress()];
      }
    }
  }

  /** A key other than `q` read while a servo remains: the rest of the
      session runs from the state after that key. */
  lemma KeyStep(s: State, keys: seq<char>)
    requires s.Valid() && s.servo < SERVOS && keys != [] && keys[0] != 'q'
    ensures var t := Key(s, keys[0]);
      var r := Run(t, keys[1..]);
      Run(s, keys) == r.(used := r.used + 1)
      && Confirmed(s, keys) == (if keys[0] == 'n' then [(s.Progress(), s.position)] else []) + Confirmed(t, keys[1..])
  {
  }

  /** One key changes at most the cell of the current slot: `n` stores the
      position there, every other key leaves the table. */
  lemma KeyCell(s: State, c: char, slot: nat)
    requires s.Valid() && s.servo < SERVOS && slot < 2 * SERVOS
    ensures Cell(Key(s, c).preset, slot) == if c == 'n' && slot == s.Progress() then s.position else Cell(s.preset, slot)
  {
    if c == 'n' {
      StoreCell(s.preset, s.servo, s.Phase(), s.position, slot);
    }
  }

  /** A session that completes from slot p has confirmed exactly the
      2 * SERVOS - p remaining slots: every (servo, phase) slot from p on is
      written exactly once. */
  lemma CompletedWritesEverySlot(s: State, keys: seq<char>)
    requires s.Valid() && Run(s, keys).status == Completed
    ensures var w := Confirmed(s, keys);
      s.Progress() + |w| == 2 * SERVOS
      && forall k :: 0 <= k < |w| ==> w[k].0 == s.Progress() + k
  {
    ConfirmedSlots(s, keys);
  }

  /** How each kind of session ends: one that completes read no `q` and, if
      it had anything left to do, ended on the `n` that finished the last
      servo; one that aborts ended on its first `q`; one that still waits
      has read every key and seen no `q`. */
  lemma {:induction false} RunEnds(s: State, keys: seq<char>)
    requires s.Valid()
    ensures var r := Run(s, keys);
      (r.status == Completed ==>
         (forall k :: 0 <= k < r.used ==> keys[k] != 'q')
         && (s.servo < SERVOS ==> 0 < r.used && keys[r.used - 1] == 'n'))
      && (r.status == Aborted ==>
            0 < r.used && keys[r.used - 1] == 'q' && forall k :: 0 <= k < r.used - 1 ==> keys[k] != 'q')
      && (r.status == AwaitingInput ==> r.used == |keys| && forall k :: 0 <= k < |keys| ==> keys[k] != 'q')
    decreases |keys|
  {
    if s.servo < SERVOS && keys != [] && keys[0] != 'q' {
      var t := Key(s, keys[0]);
      KeyStep(s, keys);
      RunEnds(t, keys[1..]);
      assert forall k :: 0 < k < |keys| ==> keys[k] == keys[1..][k - 1];
      if t.servo >= SERVOS {
        assert keys[0] == 'n';
      }
    }
  }

  /** Enough `n` keys, with nothing else, complete the session after
      exactly the remaining 2 * SERVOS - p of them. */
  lemma {:induction false} ConfirmsComplete(s: State, keys: seq<char>)
    requires s.Valid() && forall i :: 0 <= i < |keys| ==> keys[i] == 'n'
    requires 2 * SERVOS - s.Progress() <= |keys|
    ensures Run(s, keys).status == Completed
    ensures Run(s, keys).used == 2 * SERVOS - s.Progress()
    decreases |keys|
  {
    if s.servo < SERVOS {
      ConfirmsComplete(Key(s, keys[0]), keys[1..]);
    }
  }

  /** Only `n` keys from a fresh calibrator: 2 * SERVOS of them complete the
      session and, since confirming never reseeds the position, every slot
      of the table holds the starting position. */
  lemma {:induction false} ConfirmsOnlyRecordStart(s: State, keys: seq<char>)
    requires s.Valid() && forall i :: 0 <= i < |keys| ==> keys[i] == 'n'
    ensures forall k :: 0 <= k < |Confirmed(s, keys)| ==> Confirmed(s, keys)[k].1 == s.position
    decreases |keys|
  {
    if s.servo < SERVOS && keys != [] {
      ConfirmsOnlyRecordStart(Key(s, keys[0]), keys[1..]);
    }
  }

  /** `q` while a servo remains ends the session on that key, in the state
      it was in. */
  lemma QuitStops(s: State, rest: seq<char>)
    requires s.Valid() && s.servo < SERVOS
    ensures Run(s, ['q'] + rest) == Outcome(Aborted, s, 1)
  {
  }

  /** Reading on from `keys[i..]` in state `s` ends as the whole session
      `whole` does, `i` keys later. */
  predicate Continues(s: State, keys: seq<char>, i: nat, whole: Outcome)
    requires s.Valid() && i <= |keys|
  {
    var r := Run(s, keys[i..]);
    r.status == whole.status && r.state == whole.state && r.used + i == whole.used
  }

  /** A key other than `q` read while a servo remains moves the session on
      by one key. */
  lemma ContinuesStep(s: State, keys: seq<char>, i: nat, whole: Outcome)
    requires s.Valid() && s.servo < SERVOS && i < |keys| && keys[i] != 'q'
    requires Continues(s, keys, i, whole)
    ensures Continues(Key(s, keys[i]), keys, i + 1, whole)
  {
    assert keys[i..][1..] == keys[i + 1..];
  }

  // ---------------------------------------------------------------------
  // Output

  /** Python's `str.lower()` on the ASCII letters; every other character
      is left alone. */
  function LowerChar(c: char): char
  {
    if 'A' <= c <= 'Z' then (c as int - 'A' as int + 'a' as int) as char else c
  }

  /** `name.replace(" ", "_").lower()`. */
  function SnakeName(name: string): (r: string)
    ensures |r| == |name|
    ensures forall i :: 0 <= i < |r| ==> r[i] != ' ' && !('A' <= r[i] <= 'Z')
    ensures forall i :: 0 <= i < |r| && name[i] == ' ' ==> r[i] == '_'
    ensures forall i :: 0 <= i < |r| && 'A' <= name[i] <= 'Z' ==> r[i] as int == name[i] as int + 32
    ensures forall i :: 0 <= i < |r| && name[i] != ' ' && !('A' <= name[i] <= 'Z') ==> r[i] == name[i]
  {
    seq(|name|, i requires 0 <= i < |name| => LowerChar(if name[i] == ' ' then '_' else name[i]))
  }

  /** Renaming twice is renaming once. */
  lemma SnakeNameIdempotent(name: string)
    ensures SnakeName(SnakeName(name)) == SnakeName(name)
  {
  }

  /** The key a servo gets in the printed `SERVO_LIMITS` table: its name,
      as long as the name, with no space and no upper-case letter left. */
  function ServoKey(i: nat): (key: string)
    requires i < SERVOS
    ensures |key| == |SERVO_NAMES[i]|
    ensures forall k :: 0 <= k < |key| ==> key[k] != ' ' && !('A' <= key[k] <= 'Z')
  {
    SnakeName(SERVO_NAMES[i])
  }

  /** The keys of the head servo and the upper neck joint. */
  lemma HeadServoKeys()
    ensures ServoKey(0) == "head_rotation" && ServoKey(1) == "neck_top_joint"
  {
  }

  /** The key of the lower neck joint. */
  lemma NeckServoKeys()
    ensures ServoKey(2) == "neck_bottom_joint"
  {
  }

  /** The keys of the eye servos. */
  lemma EyeServoKeys()
    ensures ServoKey(3) == "eye_right" && ServoKey(4) == "eye_left"
  {
  }

  /** The keys of the arm servos. */
  lemma ArmServoKeys()
    ensures ServoKey(5) == "arm_left" && ServoKey(6) == "arm_right"
  {
  }

  /** Distinct servos get distinct keys, so the printed dictionary keeps
      every entry. */
  lemma ServoKeysDistinct(i: nat, j: nat)
    requires i < SERVOS && j < SERVOS && i != j
    ensures ServoKey(i) != ServoKey(j)
  {
    HeadServoKeys();
    NeckServoKeys();
    EyeServoKeys();
    ArmServoKeys();
    assert "eye_right"[0] != "arm_right"[0] && "eye_left"[0] != "arm_left"[0];
  }

  /** The line `    '<key>': (<low>, <high>),`: four spaces and the quoted
      key open it, and it closes with `),`. */
  function LimitLine(key: string, low: nat, high: nat): (line: string)
    ensures |line| == |key| + |Decimal(low)| + |Decimal(high)| + 13
    ensures line[..5] == "    '" && line[5..5 + |key|] == key && line[|line| - 2..] == "),"
  {
    "    '" + key + "': (" + (Decimal(low) + (", " + (Decimal(high) + "),")))
  }

  /** The printed pair determines the values: two lines for the same key
      are equal only if they show the same `low` and the same `high`. */
  lemma LimitLineInjective(key: string, low: nat, high: nat, low': nat, high': nat)
    requires LimitLine(key, low, high) == LimitLine(key, low', high')
    ensures low == low' && high == high'
  {
    CommonPrefix("    '" + key + "': (", Decimal(low) + (", " + (Decimal(high) + "),")), Decimal(low') + (", " + (Decimal(high') + "),")));
    DecimalPrefix(low, low', ", " + (Decimal(high) + "),"), ", " + (Decimal(high') + "),"));
    CommonPrefix(", ", Decimal(high) + "),", Decimal(high') + "),");
    DecimalPrefix(high, high', "),", "),");
  }

  const TABLE_OPEN: string := "SERVO_LIMITS = {"
  const TABLE_CLOSE: string := "}"

  // ---------------------------------------------------------------------
  // The calibrator object

  class ServoCalibrator {
    const pca: Driver
    var preset: seq<Limits>
    var currentServo: int
    var currentPosition: int
    var isLowPosition: bool

    /** The calibrator's fields and its driver's registers as a `State`. */
    ghost function Model(): State
      reads this, pca, pca.duty
    {
      State(currentServo, isLowPosition, currentPosition, preset, pca.duty[..], pca.log)
    }

    ghost predicate Valid()
      reads this, pca, pca.duty
    {
      pca.Valid() && Model().Valid()
    }

    /** `__init__`: a driver at 50 Hz, every servo's pair at [300, 500], the
        first servo's LOW phase at position 400. */
    constructor ()
      ensures Valid() && fresh(pca) && fresh(pca.duty)
      ensures Model() == Initial(Zeros(CHANNELS), [])
      ensures pca.frequency == FREQUENCY && !pca.released
    {
      pca := new Driver(FREQUENCY);
      preset := Repeat(SERVOS, DEFAULT_LIMITS);
      currentServo := 0;
      currentPosition := START_POSITION;
      isLowPosition := true;
    }

    /** `set_servo_pulse(position)`. */
    method SetServoPulse(position: int)
      requires Valid() && currentServo < SERVOS && MIN_PULSE <= position <= MAX_PULSE
      modifies this, pca, pca.duty
      ensures Valid() && Model() == Pulse(old(Model()), position)
      ensures pca.frequency == old(pca.frequency) && pca.released == old(pca.released)
    {
      pca.SetDuty(currentServo, PulseToDuty(position));
      currentPosition := position;
    }

    /** `cleanup()`: all 16 channels to zero, in channel order, then the
        driver is released, whichever servos were visited. */
    method Cleanup()
      requires Valid()
      modifies pca, pca.duty
      ensures Valid()
      ensures pca.duty[..] == Zeros(CHANNELS)
      ensures pca.log == old(pca.log) + ReleaseWrites(CHANNELS)
      ensures pca.released && pca.frequency == old(pca.frequency)
    {
      for i := 0 to CHANNELS
        invariant pca.Valid()
        invariant forall j :: 0 <= j < i ==> pca.duty[j] == 0
        invariant pca.log == old(pca.log) + ReleaseWrites(i)
        invariant pca.frequency == old(pca.frequency)
      {
        pca.SetDuty(i, 0);
      }
      pca.Deinit();
      assert pca.duty[..] == Zeros(CHANNELS);
    }

    /** `output_results()`: the lines of the `SERVO_LIMITS` table, one entry
        per servo in index order. */
    method OutputResults() returns (lines: seq<string>)
      requires Valid()
      ensures |lines| == SERVOS + 2
      ensures lines[0] == TABLE_OPEN && lines[SERVOS + 1] == TABLE_CLOSE
      ensures forall i :: 0 <= i < SERVOS ==> lines[i + 1] == LimitLine(ServoKey(i), preset[i].low, preset[i].high)
    {
      lines := [TABLE_OPEN];
      for i := 0 to SERVOS
        invariant |lines| == i + 1 && lines[0] == TABLE_OPEN
        invariant forall j :: 0 <= j < i ==> lines[j + 1] == LimitLine(ServoKey(j), preset[j].low, preset[j].high)
      {
        lines := lines + [LimitLine(ServoKey(i), preset[i].low, preset[i].high)];
      }
      lines := lines + [TABLE_CLOSE];
    }

    /** One pass of the inner `while True` loop of `calibrate`: keys are read
        from `keys[from..]` until the phase is confirmed with `n`, until `q`,
        or until the keys run out. */
    method ReadPhase(keys: seq<char>, from: nat, ghost whole: Outcome) returns (i: nat, end: PhaseEnd)
      requires Valid() && currentServo < SERVOS && from <= |keys|
      requires Continues(Model(), keys, from, whole)
      modifies this, pca, pca.duty
      ensures Valid() && from <= i <= |keys|
      ensures pca.frequency == old(pca.frequency) && pca.released == old(pca.released)
      ensures end == Next ==>
        Model().Progress() == old(Model().Progress()) + 1 && Continues(Enter(Model()), keys, i, whole)
      ensures end == Quit ==> whole == Outcome(Aborted, Model(), i)
      ensures end == NoMoreKeys ==> whole == Outcome(AwaitingInput, Model(), i)
    {
      i := from;
      ghost var st := Model();
      ghost var progress := st.Progress();
      while true
        invariant Valid() && from <= i <= |keys|
        invariant st == Model() && st.servo < SERVOS && st.Progress() == progress
        invariant Continues(st, keys, i, whole)
        invariant pca.frequency == old(pca.frequency) && pca.released == old(pca.released)
        decreases |keys| - i
      {
        if i == |keys| {
          assert keys[i..] == [];
          return i, NoMoreKeys;
        }
        var c := keys[i];
        if c == 'q' {
          assert keys[i..][0] == 'q';
          return i + 1, Quit;
        }
        ContinuesStep(st, keys, i, whole);
        ghost var next := Key(st, c);
        HandleKey(c);
        i := i + 1;
        if c == 'n' {
          assert Enter(Model()) == next && Model().Progress() == progress + 1;
          return i, Next;
        }
        st := next;
      }
    }

    /** One pass through the body of the inner loop for a key other than
        `q`: `n` records the position and ends the phase (the pulse of the
        next phase is set by the outer loop, which `Key` includes), a
        movement key sets the pulse, any other key does nothing. */
    method HandleKey(c: char)
      requires Valid() && currentServo < SERVOS && c != 'q'
      modifies this, pca, pca.duty
      ensures Valid()
      ensures c == 'n' ==> Model() == Confirm(old(Model())) && Enter(Model()) == Key(old(Model()), c)
      ensures c != 'n' ==> Model() == Key(old(Model()), c)
      ensures pca.frequency == old(pca.frequency) && pca.released == old(pca.released)
    {
      ghost var before := Model();
      if c == 'n' {
        // Save position and move to next
        if isLowPosition {
          preset := Store(preset, currentServo, 0, currentPosition);
          isLowPosition := false;
        } else {
          preset := Store(preset, currentServo, 1, currentPosition);
          currentServo := currentServo + 1;
          isLowPosition := true;
        }
        assert Model() == Confirm(before);
      } else if c == 'a' {
        SetServoPulse(Down(currentPosition, LARGE_STEP, MIN_PULSE));
      } else if c == 'd' {
        SetServoPulse(Up(currentPosition, LARGE_STEP, MAX_PULSE));
      } else if c == 'z' {
        SetServoPulse(Down(currentPosition, SMALL_STEP, MIN_PULSE));
      } else if c == 'c' {
        SetServoPulse(Up(currentPosition, SMALL_STEP, MAX_PULSE));
      }
    }

    /** The `while self.current_servo < SERVOS` loop of `calibrate()` on
        the keys `keys`: the session `Run` from the calibrator's state with
        the first servo's channel enabled, without the cleanup that follows
        a `q` or the end of the loop. */
    method Session(keys: seq<char>) returns (status: Status, used: nat)
      requires Valid()
      modifies this, pca, pca.duty
      ensures Valid()
      ensures var r := Run(Enter(old(Model())), keys);
        status == r.status && used == r.used && Model() == r.state
      ensures pca.frequency == old(pca.frequency) && pca.released == old(pca.released)
    {
      ghost var whole := Run(Enter(Model()), keys);
      var i := 0;
      assert keys[0..] == keys;
      while currentServo < SERVOS
        invariant Valid() && 0 <= i <= |keys|
        invariant Continues(Enter(Model()), keys, i, whole)
        invariant pca.frequency == old(pca.frequency) && pca.released == old(pca.released)
        decreases 2 * SERVOS - Model().Progress()
      {
        // Enable servo
        ghost var entered := Enter(Model());
        SetServoPulse(currentPosition);
        assert Model() == entered;
        var end;
        i, end := ReadPhase(keys, i, whole);
        if end == Quit {
          return Aborted, i;
        } else if end == NoMoreKeys {
          return AwaitingInput, i;
        }
      }
      assert Enter(Model()) == Model();
      return Completed, i;
    }

    /** `calibrate()` on the keys `keys`: the `Session`; when it completes,
        the table is output; when it completes or aborts, the driver is
        cleaned up. */
    method Calibrate(keys: seq<char>) returns (status: Status, used: nat, report: seq<string>)
      requires Valid()
      modifies this, pca, pca.duty
      ensures Valid()
      ensures var r := Run(Enter(old(Model())), keys);
        status == r.status && used == r.used
        && currentServo == r.state.servo && isLowPosition == r.state.isLow
        && currentPosition == r.state.position && preset == r.state.preset
        && (status == AwaitingInput ==>
              pca.duty[..] == r.state.duty && pca.log == r.state.log && pca.released == old(pca.released))
        && (status != AwaitingInput ==>
              pca.duty[..] == Zeros(CHANNELS) && pca.log == r.state.log + ReleaseWrites(CHANNELS) && pca.released)
      ensures status == Completed ==>
        (|report| == SERVOS + 2 && report[0] == TABLE_OPEN && report[SERVOS + 1] == TABLE_CLOSE
         && forall i :: 0 <= i < SERVOS ==> report[i + 1] == LimitLine(ServoKey(i), preset[i].low, preset[i].high))
      ensures status != Completed ==> report == []
      ensures pca.frequency == old(pca.frequency)
    {
      ghost var r := Run(Enter(Model()), keys);
      status, used := Session(keys);
      assert Model() == r.state;
      report := [];
      if status == Completed {
        report := OutputResults();
      }
      if status != AwaitingInput {
        Cleanup();
      }
      assert currentServo == r.state.servo && isLowPosition == r.state.isLow;
      assert currentPosition == r.state.position && preset == r.state.preset;
    }
  }
}

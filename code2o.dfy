/** code2o.py: the line-based calibration of the seven servos. The script
    keeps the PCA9685 handle and the `preset` table at module level and
    mutates the table in place; `calibration()` walks the servos with local
    counters. Unlike calibrate_servos.py it clamps positions to the 12-bit
    range [0, 4095], converts them to 16-bit duties by scaling, reseeds the
    position from `preset` after every confirm, and has no quit command.

    As in CalibrateServos, a `State` value and the functions `Command` and
    `Run` are the specification; the class `Rig` holds the module-level
    state and its methods are proved against them. */
module Code2o {
  import opened Pwm
  import opened Saturation
  import opened Tables
  import opened Text

  const SERVOS: nat := 7
  const FREQUENCY: int := 60
  /** Positions are 12-bit duty ticks. */
  const MAX_POSITION: int := 4095
  /** The denominator and the numerator of `(position / 4096) * 65535`. */
  const RESOLUTION: int := 4096
  const FULL_SCALE: int := 65535
  /** The steps of the `a`/`d` and the `z`/`c` commands. */
  const LARGE_STEP: nat := 10
  const SMALL_STEP: nat := 1
  /** The increment of `soft_start`. */
  const RAMP_STEP: nat := 10

  /** Servo positions at start-up, `[low, high]` per servo: head rotation,
      neck top, neck bottom, eye right, eye left, arm left, arm right. */
  const PRESET: seq<Limits> := [
    Limits(398, 112), Limits(565, 188), Limits(200, 400), Limits(475, 230),
    Limits(270, 440), Limits(350, 185), Limits(188, 360)
  ]

  lemma PresetInRange()
    ensures |PRESET| == SERVOS && Within(PRESET, 0, MAX_POSITION)
  {
  }

  // ---------------------------------------------------------------------
  // Position to duty

  /** `int((position / 4096) * 65535)`. For a position in [0, 4096] the
      quotient is a dyadic fraction and the product needs fewer than 53
      bits, so the float expression is exact and `int` truncates a
      non-negative value: the result is the floor of position * 65535 / 4096. */
  function ToDuty(position: int): (duty: int)
    requires 0 <= position <= RESOLUTION
    ensures 0 <= duty <= MAX_DUTY
    ensures duty * RESOLUTION <= position * FULL_SCALE < (duty + 1) * RESOLUTION
  {
    position * FULL_SCALE / RESOLUTION
  }

  /** Every position but 0 is scaled to one less than sixteen times itself:
      the duty of `p` is `16 * p - 1`. */
  lemma ToDutyClosedForm(p: int)
    requires 0 < p <= RESOLUTION
    ensures ToDuty(p) == 16 * p - 1
  {
    assert p * FULL_SCALE == (16 * p - 1) * RESOLUTION + (RESOLUTION - p);
  }

  /** A larger position always gives a larger duty: one step of 1 is 15 or
      16 duty units, so no two positions share a duty. */
  lemma ToDutyStrictlyMonotone(p: int, q: int)
    requires 0 <= p < q <= RESOLUTION
    ensures ToDuty(p) < ToDuty(q)
    ensures q == p + 1 ==> ToDuty(q) - ToDuty(p) == (if p == 0 then 15 else 16)
  {
    ToDutyClosedForm(q);
    if p > 0 { ToDutyClosedForm(p); }
  }

  /** The ends of the range: 0 maps to 0, the largest position 4095 to
      65519, and only 4096 (which the commands never reach) to the full
      65535. */
  lemma ToDutyEnds()
    ensures ToDuty(0) == 0 && ToDuty(MAX_POSITION) == 65519 && ToDuty(RESOLUTION) == MAX_DUTY
  {
    ToDutyClosedForm(MAX_POSITION);
  }

  // ---------------------------------------------------------------------
  // Soft start

  /** `range(start, stop, 10)`. */
  function Ramp(start: int, stop: int): (r: seq<int>)
    ensures forall k :: 0 <= k < |r| ==> start <= r[k] < stop
    decreases stop - start
  {
    if start >= stop then [] else [start] + Ramp(start + RAMP_STEP, stop)
  }

  /** `range(start, stop, 10)` counts up from `start` in steps of 10 and has
      ceil((stop - start) / 10) elements. */
  lemma {:induction false} RampShape(start: int, stop: int)
    ensures |Ramp(start, stop)| == if stop <= start then 0 else (stop - start + RAMP_STEP - 1) / RAMP_STEP
    ensures forall k :: 0 <= k < |Ramp(start, stop)| ==> Ramp(start, stop)[k] == start + RAMP_STEP * k
    decreases stop - start
  {
    if start < stop {
      RampShape(start + RAMP_STEP, stop);
      var r := Ramp(start, stop);
      forall k | 0 <= k < |r| ensures r[k] == start + RAMP_STEP * k {
        if k > 0 { assert r[k] == Ramp(start + RAMP_STEP, stop)[k - 1]; }
      }
    }
  }

  /** The values `soft_start(ch, p)` passes on: 0, 10, 20, ..., strictly
      increasing, all below `p`, and exactly as many as needed to reach `p`
      in steps of 10 (none when `p <= 0`). */
  lemma SoftStartValues(p: int)
    ensures var r := Ramp(0, p);
      (p <= 0 ==> r == [])
      && (p > 0 ==> RAMP_STEP * (|r| - 1) < p <= RAMP_STEP * |r|)
      && (forall k :: 0 <= k < |r| ==> r[k] == RAMP_STEP * k && r[k] < p)
      && (forall j, k :: 0 <= j < k < |r| ==> r[j] < r[k])
  {
    RampShape(0, p);
  }

  /** The writes `change_servo_position(channel, x)` issues for each `x` of
      `xs` in turn. */
  function Writes(channel: nat, xs: seq<int>): (w: seq<Write>)
    requires forall k :: 0 <= k < |xs| ==> 0 <= xs[k] <= RESOLUTION
    ensures |w| == |xs|
    ensures forall k :: 0 <= k < |w| ==> w[k].channel == channel && w[k].duty == ToDuty(xs[k])
  {
    if xs == [] then [] else [Write(channel, ToDuty(xs[0]))] + Writes(channel, xs[1..])
  }

  /** A log that extends `before` by one write per element of
      `range(0, position, 10)` is `before` followed by the ramp's writes. */
  lemma RampLog(channel: nat, position: int, count: nat, before: seq<Write>, after: seq<Write>)
    requires position <= RESOLUTION
    requires count == if position > 0 then (position + RAMP_STEP - 1) / RAMP_STEP else 0
    requires |after| == |before| + count && after[..|before|] == before
    requires forall j :: 0 <= j < count ==> 0 <= RAMP_STEP * j <= RESOLUTION
    requires forall j :: 0 <= j < count ==> after[|before| + j] == Write(channel, ToDuty(RAMP_STEP * j))
    ensures after == before + Writes(channel, Ramp(0, position))
  {
    RampShape(0, position);
    var w := Writes(channel, Ramp(0, position));
    forall i | 0 <= i < |after| ensures after[i] == (before + w)[i] {
      if i < |before| {
        assert after[i] == after[..|before|][i];
      } else {
        var j := i - |before|;
        assert Ramp(0, position)[j] == RAMP_STEP * j;
        assert w[j] == Write(channel, ToDuty(RAMP_STEP * j));
      }
    }
  }

  /** When counting up from 0 in steps of 10 first reaches `p` or beyond at
      the k-th step, the value before is the largest multiple of 10 below `p`. */
  lemma LastRampValue(k: int, p: int)
    requires 0 < p <= RAMP_STEP * k && RAMP_STEP * (k - 1) < p
    ensures RAMP_STEP * (k - 1) == RAMP_STEP * ((p - 1) / RAMP_STEP)
  {
  }

  // ---------------------------------------------------------------------
  // Specification of `calibration()`

  /** The locals of `calibration()` (`current_servo`; `current_position`,
      which counts the phase, 0 for LOW and 1 for HIGH; `position`)
      together with the module-level `preset` and the driver. */
  datatype State = State(servo: int, phase: int, position: int,
                         preset: seq<Limits>, duty: seq<int>, log: seq<Write>)
  {
    /** The slot in calibration order the next confirm writes. */
    function Progress(): int
    {
      2 * servo + phase
    }

    /** Servo and phase are in range (the phase is 0 once every servo is
        done), the position and every preset entry are 12-bit values, and
        the driver has its 16 registers. */
    predicate Valid()
    {
      0 <= servo <= SERVOS && 0 <= phase <= 1 && (servo == SERVOS ==> phase == 0)
      && 0 <= position <= MAX_POSITION
      && |preset| == SERVOS && Within(preset, 0, MAX_POSITION)
      && |duty| == CHANNELS
    }

    /** The position equals the preset entry of the current slot, as it
        does at the start and after every confirm. */
    predicate Seeded()
      requires Valid()
    {
      servo < SERVOS ==> position == preset[servo].At(phase)
    }
  }

  /** The start of `calibration()`: servo 0, phase 0, position seeded from
      `preset[0][0]`. */
  function Begin(preset: seq<Limits>, duty: seq<int>, log: seq<Write>): (s: State)
    requires |preset| == SERVOS && Within(preset, 0, MAX_POSITION)
    requires |duty| == CHANNELS
    ensures s.Valid() && s.Seeded() && s.Progress() == 0
  {
    State(0, 0, preset[0].low, preset, duty, log)
  }

  /** A movement to `p`: the new position, then
      `change_servo_position(current_servo, p)`. */
  function Move(s: State, p: int): (t: State)
    requires s.Valid() && s.servo < SERVOS && 0 <= p <= MAX_POSITION
    ensures t.Valid() && t.Progress() == s.Progress() && t.preset == s.preset
  {
    s.(position := p, duty := s.duty[s.servo := ToDuty(p)], log := s.log + [Write(s.servo, ToDuty(p))])
  }

  /** `n`: store the position in `preset[servo][phase]`, advance the phase,
      and after the HIGH phase the servo; unless that was the last servo,
      reseed the position from the preset entry of the new slot. */
  function Confirm(s: State): (t: State)
    requires s.Valid() && s.servo < SERVOS
    ensures t.Valid() && t.Seeded()
    ensures t.Progress() == s.Progress() + 1
    ensures t.preset == Store(s.preset, s.servo, s.phase, s.position)
    ensures t.servo == SERVOS ==> t.position == s.position
    ensures t.duty == s.duty && t.log == s.log
  {
    StoreWithin(s.preset, s.servo, s.phase, s.position, 0, MAX_POSITION);
    var preset := Store(s.preset, s.servo, s.phase, s.position);
    var phase := s.phase + 1;
    if phase > 1 then
      var servo := s.servo + 1;
      if servo < SERVOS then s.(preset := preset, servo := servo, phase := 0, position := preset[servo].low)
      else s.(preset := preset, servo := servo, phase := 0)
    else s.(preset := preset, phase := phase, position := preset[s.servo].At(phase))
  }

  predicate IsMove(command: string)
  {
    command == "a" || command == "d" || command == "z" || command == "c"
  }

  /** The position a movement command asks for, or the current one for any
      other text: `a` and `z` never raise the position, `d` and `c` never
      lower it, `a` and `d` move it by at most 10 and `z` and `c` by at
      most 1, and a 12-bit position stays a 12-bit position. */
  function Target(position: int, command: string): (r: int)
    ensures !IsMove(command) ==> r == position
    ensures 0 <= position <= MAX_POSITION ==> 0 <= r <= MAX_POSITION
    ensures 0 <= position <= MAX_POSITION ==>
      (command == "a" || command == "z" ==> r <= position) && (command == "d" || command == "c" ==> position <= r)
    ensures 0 <= position <= MAX_POSITION ==>
      position - LARGE_STEP <= r <= position + LARGE_STEP
      && (command == "z" || command == "c" ==> position - SMALL_STEP <= r <= position + SMALL_STEP)
  {
    if command == "a" then Down(position, LARGE_STEP, 0)
    else if command == "d" then Up(position, LARGE_STEP, MAX_POSITION)
    else if command == "z" then Down(position, SMALL_STEP, 0)
    else if command == "c" then Up(position, SMALL_STEP, MAX_POSITION)
    else position
  }

  /** One stripped command while a servo remains. */
  function Command(s: State, command: string): (t: State)
    requires s.Valid() && s.servo < SERVOS
    ensures t.Valid() && s.servo <= t.servo
    ensures command == "n" ==> t.Progress() == s.Progress() + 1 && t.Seeded()
    ensures command == "n" ==> t.preset == Store(s.preset, s.servo, s.phase, s.position)
    ensures command == "n" ==> t.duty == s.duty && t.log == s.log
    ensures command != "n" ==> t.Progress() == s.Progress() && t.preset == s.preset
    ensures IsMove(command) ==> t.position == Target(s.position, command)
    ensures IsMove(command) ==>
      t.duty == s.duty[s.servo := ToDuty(t.position)] && t.log == s.log + [Write(s.servo, ToDuty(t.position))]
    ensures !IsMove(command) && command != "n" ==> t == s
  {
    if command == "n" then Confirm(s)
    else if IsMove(command) then
      StepsStayInRange(s.position, LARGE_STEP, 0, MAX_POSITION);
      StepsStayInRange(s.position, SMALL_STEP, 0, MAX_POSITION);
      Move(s, Target(s.position, command))
    else s
  }

  datatype Status = Completed | AwaitingInput

  /** How `calibration()` ends on a finite list of input lines, the state
      it ends in and how many lines it read. `AwaitingInput` means the lines
      ran out while servos remained: the script would still be waiting. */
  datatype Outcome = Outcome(status: Status, state: State, used: nat)

  /** The lines `input()` returns, each stripped, as `calibration()`
      compares them. */
  function Commands(lines: seq<string>): (commands: seq<string>)
    ensures |commands| == |lines|
    ensures forall i :: 0 <= i < |lines| ==> commands[i] == Strip(lines[i])
  {
    if lines == [] then [] else [Strip(lines[0])] + Commands(lines[1..])
  }

  /** The loops of `calibration()` from state `s` on the stripped input
      lines `commands`. */
  function Run(s: State, commands: seq<string>): (r: Outcome)
    requires s.Valid()
    ensures r.state.Valid() && r.used <= |commands| && r.state.servo >= s.servo
    ensures r.status == Completed <==> r.state.servo == SERVOS
    ensures r.status == AwaitingInput ==> r.used == |commands|
    decreases |commands|
  {
    if s.servo >= SERVOS then Outcome(Completed, s, 0)
    else if commands == [] then Outcome(AwaitingInput, s, 0)
    else
      var r := Run(Command(s, commands[0]), commands[1..]);
      r.(used := r.used + 1)
  }

  /** The positions the session confirms, in order, each with its slot. */
  function Confirmed(s: State, commands: seq<string>): seq<(int, int)>
    requires s.Valid()
    decreases |commands|
  {
    if s.servo >= SERVOS || commands == [] then []
    else
      (if commands[0] == "n" then [(s.Progress(), s.position)] else [])
      + Confirmed(Command(s, commands[0]), commands[1..])
  }

  // ---------------------------------------------------------------------
  // Properties of a session

  /** The slots a session writes are consecutive from the slot it started
      at, so none is written twice, and the session ends at the slot after
      the last one written. */
  lemma {:induction false} ConfirmedSlots(s: State, commands: seq<string>)
    requires s.Valid()
    ensures var w := Confirmed(s, commands);
      Run(s, commands).state.Progress() == s.Progress() + |w|
      && forall k :: 0 <= k < |w| ==> w[k].0 == s.Progress() + k
    decreases |commands|
  {
    if s.servo < SERVOS && commands != [] {
      ConfirmedSlots(Command(s, commands[0]), commands[1..]);
    }
  }

  /** The table a session leaves: every slot it wrote holds the position
      confirmed for it, every other slot what it held before. */
  lemma {:induction false} RunTable(s: State, commands: seq<string>, slot: nat)
    requires s.Valid() && slot < 2 * SERVOS
    ensures var w := Confirmed(s, commands); var p := s.Progress();
      0 <= p
      && Cell(Run(s, commands).state.preset, slot)
         == if p <= slot < p + |w| then w[slot - p].1 else Cell(s.preset, slot)
    decreases |commands|
  {
    if s.servo < SERVOS && commands != [] {
      var c, rest := commands[0], commands[1..];
      var t := Command(s, c);
      RunTable(t, rest, slot);
      ConfirmedSlots(t, rest);
      CommandCell(s, c, slot);
      assert Run(s, commands).state == Run(t, rest).state;
      assert Confirmed(s, commands) == (if c == "n" then [(s.Progress(), s.position)] else []) + Confirmed(t, rest);
    }
  }

  /** One command changes at most the cell of the current slot: a confirm
      stores the position there, every other command leaves the table. */
  lemma CommandCell(s: State, command: string, slot: nat)
    requires s.Valid() && s.servo < SERVOS && slot < 2 * SERVOS
    ensures Cell(Command(s, command).preset, slot)
            == if command == "n" && slot == s.Progress() then s.position else Cell(s.preset, slot)
  {
    if command == "n" {
      StoreCell(s.preset, s.servo, s.phase, s.position, slot);
    }
  }

  /** A session that completes from slot p confirmed exactly the
      2 * SERVOS - p remaining slots, each once, and its last line read was
      a confirm. */
  lemma {:induction false} CompletedWritesEverySlot(s: State, commands: seq<string>)
    requires s.Valid() && Run(s, commands).status == Completed
    ensures var w := Confirmed(s, commands); var r := Run(s, commands);
      s.Progress() + |w| == 2 * SERVOS
      && (forall k :: 0 <= k < |w| ==> w[k].0 == s.Progress() + k)
      && (s.servo < SERVOS ==> 0 < r.used && commands[r.used - 1] == "n")
    decreases |commands|
  {
    ConfirmedSlots(s, commands);
    if s.servo < SERVOS {
      var t := Command(s, commands[0]);
      if t.servo < SERVOS {
        CompletedWritesEverySlot(t, commands[1..]);
        assert commands[1..][Run(t, commands[1..]).used - 1] == commands[Run(s, commands).used - 1];
      }
    }
  }

  /** Enough confirm commands, with nothing else, complete the session after
      exactly the remaining 2 * SERVOS - p of them. */
  lemma {:induction false} ConfirmsComplete(s: State, commands: seq<string>)
    requires s.Valid() && forall i :: 0 <= i < |commands| ==> commands[i] == "n"
    requires 2 * SERVOS - s.Progress() <= |commands|
    ensures Run(s, commands).status == Completed
    ensures Run(s, commands).used == 2 * SERVOS - s.Progress()
    decreases |commands|
  {
    if s.servo < SERVOS {
      ConfirmsComplete(Command(s, commands[0]), commands[1..]);
    }
  }

  /** Because every confirm reseeds the position, confirming without moving
      stores back the value each slot already held: a session of confirm
      commands alone leaves the table as it found it. */
  lemma {:induction false} ConfirmsKeepTable(s: State, commands: seq<string>)
    requires s.Valid() && s.Seeded() && forall i :: 0 <= i < |commands| ==> commands[i] == "n"
    ensures Run(s, commands).state.preset == s.preset
    decreases |commands|
  {
    if s.servo < SERVOS && commands != [] {
      var t := Command(s, commands[0]);
      StoreSame(s.preset, s.servo, s.phase);
      ConfirmsKeepTable(t, commands[1..]);
    }
  }

  /** A line that strips to anything but a command changes nothing and is
      only consumed. */
  lemma IgnoredLine(s: State, line: string, rest: seq<string>)
    requires s.Valid() && s.servo < SERVOS
    requires !IsMove(Strip(line)) && Strip(line) != "n"
    ensures var r := Run(s, Commands(rest)); Run(s, Commands([line] + rest)) == r.(used := r.used + 1)
  {
    assert ([line] + rest)[1..] == rest;
  }

  /** Whitespace around a command does not change it: ` d ` is read as
      `d`. */
  lemma PaddedCommand(left: string, command: string, right: string)
    requires AllSpace(left) && AllSpace(right) && (IsMove(command) || command == "n")
    ensures Strip(left + command + right) == command
  {
    SpaceClasses(command[0]);
    StripRemovesPadding(left, command, right);
  }

  /** Reading on from `commands[i]` in state `s` ends as `whole` says: with
      that status, in that state, after reading exactly `whole.used` of the
      commands. The loops of the script keep this as their invariant. */
  predicate Continues(s: State, commands: seq<string>, i: nat, whole: Outcome)
    requires s.Valid() && i <= |commands|
    decreases |commands| - i
  {
    if s.servo >= SERVOS then whole == Outcome(Completed, s, i)
    else if i == |commands| then whole == Outcome(AwaitingInput, s, i)
    else Continues(Command(s, commands[i]), commands, i + 1, whole)
  }

  /** `Continues` from `i` is `Run` on the commands from `i` on. */
  lemma {:induction false} ContinuesRun(s: State, commands: seq<string>, i: nat, whole: Outcome)
    requires s.Valid() && i <= |commands|
    ensures Continues(s, commands, i, whole)
            <==> var r := Run(s, commands[i..]); whole == r.(used := r.used + i)
    decreases |commands| - i
  {
    if s.servo < SERVOS && i < |commands| {
      ContinuesRun(Command(s, commands[i]), commands, i + 1, whole);
      assert commands[i..][0] == commands[i] && commands[i..][1..] == commands[i + 1..];
    }
  }

  // ---------------------------------------------------------------------
  // Output

  const RESULTS_HEADING: string := "Calibrated values:"

  /** `Servo <idx>: Low = <low>, High = <high>`. */
  function ValueLine(idx: nat, low: nat, high: nat): (line: string)
    ensures |line| == |Decimal(idx)| + |Decimal(low)| + |Decimal(high)| + 23
    ensures line[..6] == "Servo " && line[6..6 + |Decimal(idx)|] == Decimal(idx)
  {
    "Servo " + (Decimal(idx) + (": Low = " + (Decimal(low) + (", High = " + Decimal(high)))))
  }

  /** The printed line determines what it reports: two lines are equal
      only for the same servo index and the same `low` and `high`. */
  lemma ValueLineInjective(idx: nat, low: nat, high: nat, idx': nat, low': nat, high': nat)
    requires ValueLine(idx, low, high) == ValueLine(idx', low', high')
    ensures idx == idx' && low == low' && high == high'
  {
    var tail := ": Low = " + (Decimal(low) + (", High = " + Decimal(high)));
    var tail' := ": Low = " + (Decimal(low') + (", High = " + Decimal(high')));
    CommonPrefix("Servo ", Decimal(idx) + tail, Decimal(idx') + tail');
    DecimalPrefix(idx, idx', tail, tail');
    CommonPrefix(": Low = ", Decimal(low) + (", High = " + Decimal(high)), Decimal(low') + (", High = " + Decimal(high')));
    DecimalPrefix(low, low', ", High = " + Decimal(high), ", High = " + Decimal(high'));
    CommonPrefix(", High = ", Decimal(high), Decimal(high'));
    DecimalInjective(high, high');
  }

  // ---------------------------------------------------------------------
  // The module-level state of the script

  class Rig {
    /** `pca`, set to 60 Hz when the module is loaded. */
    const pca: Driver
    /** The module-level `preset` table. */
    var preset: seq<Limits>

    ghost predicate Valid()
      reads this, pca, pca.duty
    {
      pca.Valid() && |preset| == SERVOS && Within(preset, 0, MAX_POSITION)
    }

    /** Loading the module: the preset table and a driver at 60 Hz. */
    constructor ()
      ensures Valid() && fresh(pca) && fresh(pca.duty)
      ensures preset == PRESET && pca.duty[..] == Zeros(CHANNELS) && pca.log == []
      ensures pca.frequency == FREQUENCY && !pca.released
    {
      pca := new Driver(FREQUENCY);
      preset := PRESET;
      PresetInRange();
    }

    /** `change_servo_position(channel, position)`: one write of the scaled
        duty to that channel, nothing else changes. */
    method ChangeServoPosition(channel: nat, position: int)
      requires Valid() && channel < CHANNELS && 0 <= position <= RESOLUTION
      modifies pca, pca.duty
      ensures Valid()
      ensures pca.duty[..] == old(pca.duty[..])[channel := ToDuty(position)]
      ensures pca.log == old(pca.log) + [Write(channel, ToDuty(position))]
      ensures pca.frequency == old(pca.frequency) && pca.released == old(pca.released)
    {
      pca.SetDuty(channel, ToDuty(position));
    }

    /** `soft_start(channel, position)`: one write per value of
        `range(0, position, 10)`, in that order, all to `channel`; the
        channel is left at the duty of the last value, the largest multiple
        of 10 below `position`. */
    method SoftStart(channel: nat, position: int)
      requires Valid() && channel < CHANNELS && position <= RESOLUTION
      modifies pca, pca.duty
      ensures Valid()
      ensures pca.log == old(pca.log) + Writes(channel, Ramp(0, position))
      ensures position <= 0 ==> pca.duty[..] == old(pca.duty[..])
      ensures position > 0 ==>
        pca.duty[..] == old(pca.duty[..])[channel := ToDuty(RAMP_STEP * ((position - 1) / RAMP_STEP))]
      ensures pca.frequency == old(pca.frequency) && pca.released == old(pca.released)
    {
      // `range(0, position, 10)` has `count` elements, the k-th being 10 * k.
      var count := if position > 0 then (position + RAMP_STEP - 1) / RAMP_STEP else 0;
      ghost var before := pca.log;
      for k := 0 to count
        invariant Valid()
        invariant |pca.log| == |before| + k && pca.log[..|before|] == before
        invariant forall j :: 0 <= j < k ==> pca.log[|before| + j] == Write(channel, ToDuty(RAMP_STEP * j))
        invariant k == 0 ==> pca.duty[..] == old(pca.duty[..])
        invariant k > 0 ==> pca.duty[..] == old(pca.duty[..])[channel := ToDuty(RAMP_STEP * (k - 1))]
        invariant pca.frequency == old(pca.frequency) && pca.released == old(pca.released)
      {
        ChangeServoPosition(channel, RAMP_STEP * k);
      }
      RampLog(channel, position, count, before, pca.log);
      if position > 0 {
        LastRampValue(count, position);
      }
    }

    /** The inner `while True` loop of `calibration()` on the stripped
        lines from `commands[from]` on: apply commands until one confirms a
        position (`n`), or until the lines run out while the script would
        still be waiting for one. The locals of the script come in and go
        out as parameters; `whole` is the session the caller is in. */
    method ReadCommands(commands: seq<string>, from: nat, servo: int, phase: int, position: int,
                        ghost whole: Outcome)
      returns (i: nat, servo': int, phase': int, position': int, waiting: bool)
      requires Valid() && from <= |commands|
      requires State(servo, phase, position, preset, pca.duty[..], pca.log).Valid() && servo < SERVOS
      requires Continues(State(servo, phase, position, preset, pca.duty[..], pca.log), commands, from, whole)
      modifies this, pca, pca.duty
      ensures Valid() && from <= i <= |commands|
      ensures State(servo', phase', position', preset, pca.duty[..], pca.log).Valid()
      ensures pca.frequency == old(pca.frequency) && pca.released == old(pca.released)
      ensures !waiting ==>
        State(servo', phase', position', preset, pca.duty[..], pca.log).Progress()
          == old(State(servo, phase, position, preset, pca.duty[..], pca.log).Progress()) + 1
        && Continues(State(servo', phase', position', preset, pca.duty[..], pca.log), commands, i, whole)
      ensures waiting ==> whole == Outcome(AwaitingInput, State(servo', phase', position', preset, pca.duty[..], pca.log), i)
    {
      i, servo', phase', position' := from, servo, phase, position;
      ghost var st := State(servo', phase', position', preset, pca.duty[..], pca.log);
      ghost var progress := st.Progress();
      var confirmed := false;
      while !confirmed && i < |commands|
        invariant Valid() && from <= i <= |commands|
        invariant st == State(servo', phase', position', preset, pca.duty[..], pca.log) && st.Valid()
        invariant !confirmed ==> st.servo < SERVOS && st.Progress() == progress
        invariant confirmed ==> st.Progress() == progress + 1
        invariant Continues(st, commands, i, whole)
        invariant pca.frequency == old(pca.frequency) && pca.released == old(pca.released)
        decreases |commands| - i, if confirmed then 0 else 1
      {
        servo', phase', position', confirmed := Apply(commands[i], servo', phase', position');
        st := Command(st, commands[i]);
        i := i + 1;
      }
      waiting := !confirmed;
    }

    /** One pass through the body of the inner loop on the stripped line
        `command`: a movement, a confirm (which ends the inner loop), or
        nothing for any other text. */
    method Apply(command: string, servo: int, phase: int, position: int)
      returns (servo': int, phase': int, position': int, confirmed: bool)
      requires Valid() && State(servo, phase, position, preset, pca.duty[..], pca.log).Valid() && servo < SERVOS
      modifies this, pca, pca.duty
      ensures Valid()
      ensures State(servo', phase', position', preset, pca.duty[..], pca.log)
              == Command(old(State(servo, phase, position, preset, pca.duty[..], pca.log)), command)
      ensures confirmed <==> command == "n"
      ensures pca.frequency == old(pca.frequency) && pca.released == old(pca.released)
    {
      servo', phase', position', confirmed := servo, phase, position, command == "n";
      if command == "a" {
        position' := Down(position', LARGE_STEP, 0);
        ChangeServoPosition(servo', position');
      } else if command == "d" {
        position' := Up(position', LARGE_STEP, MAX_POSITION);
        ChangeServoPosition(servo', position');
      } else if command == "z" {
        position' := Down(position', SMALL_STEP, 0);
        ChangeServoPosition(servo', position');
      } else if command == "c" {
        position' := Up(position', SMALL_STEP, MAX_POSITION);
        ChangeServoPosition(servo', position');
      } else if command == "n" {
        StoreWithin(preset, servo', phase', position', 0, MAX_POSITION);
        preset := Store(preset, servo', phase', position');
        phase' := phase' + 1;
        if phase' > 1 {
          phase' := 0;
          servo' := servo' + 1;
          if servo' < SERVOS {
            position' := preset[servo'].At(phase');
          }
        } else {
          position' := preset[servo'].At(phase');
        }
      }
    }

    /** `calibration()` on the input lines `lines`: the session `Run` from
        servo 0, phase 0 and the position seeded from `preset[0][0]`. When
        it completes it prints the table. */
    method Calibration(lines: seq<string>) returns (status: Status, used: nat, report: seq<string>)
      requires Valid()
      modifies this, pca, pca.duty
      ensures Valid()
      ensures var r := Run(Begin(old(preset), old(pca.duty[..]), old(pca.log)), Commands(lines));
        status == r.status && used == r.used && preset == r.state.preset
        && pca.duty[..] == r.state.duty && pca.log == r.state.log
      ensures status == Completed ==>
        (|report| == SERVOS + 1 && report[0] == RESULTS_HEADING
         && forall idx :: 0 <= idx < SERVOS ==> report[idx + 1] == ValueLine(idx, preset[idx].low, preset[idx].high))
      ensures status == AwaitingInput ==> report == []
      ensures pca.frequency == old(pca.frequency) && pca.released == old(pca.released)
    {
      var currentServo := 0;
      var phase := 0;   // `current_position` in the script
      var position := preset[currentServo].At(phase);
      // `input().strip()` for each line. Stripping depends on the line
      // alone, so the lines are stripped before the loops read them.
      var commands := Commands(lines);
      ghost var whole := Run(State(currentServo, phase, position, preset, pca.duty[..], pca.log), commands);
      var i := 0;
      ContinuesRun(State(currentServo, phase, position, preset, pca.duty[..], pca.log), commands, 0, whole);
      assert commands[0..] == commands;
      while currentServo < SERVOS
        invariant Valid() && 0 <= i <= |lines|
        invariant State(currentServo, phase, position, preset, pca.duty[..], pca.log).Valid()
        invariant Continues(State(currentServo, phase, position, preset, pca.duty[..], pca.log), commands, i, whole)
        invariant pca.frequency == old(pca.frequency) && pca.released == old(pca.released)
        decreases 2 * SERVOS - (2 * currentServo + phase)
      {
        var waiting;
        i, currentServo, phase, position, waiting := ReadCommands(commands, i, currentServo, phase, position, whole);
        if waiting {
          status, used, report := AwaitingInput, i, [];
          return;
        }
        if currentServo == SERVOS {
          break;
        }
      }
      report := CalibratedValues();
      status, used := Completed, i;
    }

    /** The lines `calibration()` prints once every servo is done: a heading
        and then `preset` in index order. */
    method CalibratedValues() returns (report: seq<string>)
      requires Valid()
      ensures |report| == SERVOS + 1 && report[0] == RESULTS_HEADING
      ensures forall idx :: 0 <= idx < SERVOS ==> report[idx + 1] == ValueLine(idx, preset[idx].low, preset[idx].high)
    {
      report := [RESULTS_HEADING];
      for idx := 0 to SERVOS
        invariant |report| == idx + 1 && report[0] == RESULTS_HEADING
        invariant forall j :: 0 <= j < idx ==> report[j + 1] == ValueLine(j, preset[j].low, preset[j].high)
      {
        report := report + [ValueLine(idx, preset[idx].low, preset[idx].high)];
      }
    }

    /** The lines after `calibration()`: channels 0 to SERVOS - 1 set to zero
        in order, then `deinit()`. The other channels keep their duty. */
    method Shutdown()
      requires Valid()
      modifies pca, pca.duty
      ensures Valid()
      ensures forall i :: 0 <= i < SERVOS ==> pca.duty[i] == 0
      ensures forall i :: SERVOS <= i < CHANNELS ==> pca.duty[i] == old(pca.duty[i])
      ensures pca.log == old(pca.log) + ReleaseWrites(SERVOS)
      ensures pca.released && pca.frequency == old(pca.frequency)
    {
      for i := 0 to SERVOS
        invariant pca.Valid()
        invariant forall j :: 0 <= j < i ==> pca.duty[j] == 0
        invariant forall j :: i <= j < CHANNELS ==> pca.duty[j] == old(pca.duty[j])
        invariant pca.log == old(pca.log) + ReleaseWrites(i)
        invariant pca.frequency == old(pca.frequency)
      {
        pca.SetDuty(i, 0);
      }
      pca.Deinit();
    }
  }
}

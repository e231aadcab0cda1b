/** The PCA9685 PWM driver as both scripts see it: sixteen channels, each
    holding a 16-bit duty-cycle register. Bus setup is not modelled; the
    driver is an array of duty values, the history of writes issued to it,
    the PWM frequency it was set to, and a flag that records `deinit()`. */
module Pwm {

  /** Number of output channels of a PCA9685. */
  const CHANNELS: nat := 16

  /** Largest value a channel's `duty_cycle` register accepts. */
  const MAX_DUTY: int := 0xFFFF

  /** One assignment `channels[channel].duty_cycle = duty`. */
  datatype Write = Write(channel: nat, duty: int)

  /** Every register holds a value the driver accepts. */
  predicate DutiesInRange(duty: seq<int>)
  {
    forall i :: 0 <= i < |duty| ==> 0 <= duty[i] <= MAX_DUTY
  }

  /** The registers of a driver whose channels have all been set to zero. */
  function Zeros(n: nat): (z: seq<int>)
    ensures |z| == n && DutiesInRange(z)
    ensures forall i :: 0 <= i < n ==> z[i] == 0
  {
    seq(n, _ => 0)
  }

  /** The writes `for i in range(n): channels[i].duty_cycle = 0`. */
  function ReleaseWrites(n: nat): (w: seq<Write>)
    ensures |w| == n
    ensures forall i :: 0 <= i < n ==> w[i] == Write(i, 0)
  {
    if n == 0 then [] else ReleaseWrites(n - 1) + [Write(n - 1, 0)]
  }

  class Driver {
    /** `channels[i].duty_cycle` for i in 0..15. */
    const duty: array<int>
    /** The value last assigned to `frequency`. */
    var frequency: int
    /** Set once `deinit()` has been called. */
    var released: bool
    /** Every duty write issued so far, oldest first. */
    ghost var log: seq<Write>

    ghost predicate Valid()
      reads this, duty
    {
      duty.Length == CHANNELS && DutiesInRange(duty[..])
    }

    /** `PCA9685(i2c)` followed by `pca.frequency = frequency`. The
        registers start at zero. */
    constructor (frequency: int)
      ensures Valid() && fresh(duty)
      ensures duty[..] == Zeros(CHANNELS) && log == []
      ensures this.frequency == frequency && !released
    {
      duty := new int[CHANNELS](_ => 0);
      this.frequency := frequency;
      released := false;
      log := [];
      new;
      assert duty[..] == Zeros(CHANNELS);
    }

    /** `channels[channel].duty_cycle = value`: only that register changes. */
    method SetDuty(channel: nat, value: int)
      requires Valid() && channel < CHANNELS && 0 <= value <= MAX_DUTY
      modifies this, duty
      ensures Valid()
      ensures duty[..] == old(duty[..])[channel := value]
      ensures log == old(log) + [Write(channel, value)]
      ensures frequency == old(frequency) && released == old(released)
    {
      duty[channel] := value;
      log := log + [Write(channel, value)];
    }

    /** `deinit()`: the registers keep their values; the handle is released. */
    method Deinit()
      modifies this
      ensures released
      ensures frequency == old(frequency) && log == old(log)
    {
      released := true;
    }
  }
}

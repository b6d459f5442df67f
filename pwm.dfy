/**
 * The fan drivers of the humidity box: each fan is a PWM output whose 16-bit
 * duty is driven active-low, so full intensity means duty 0. The two
 * humidifier fans are ganged and always get the same duty.
 *
 * The PWM peripheral is not modelled; a fan remembers the last duty written
 * to it, which is all that `duty_u16` changes.
 */
module Pwm {
  import opened Wrappers

  /** `int(x)`: truncation toward zero. */
  function Truncate(x: real): (n: int)
    ensures x >= 0.0 ==> n == x.Floor
    ensures x < 0.0 ==> x <= n as real < x + 1.0 && n <= 0
  {
    if x >= 0.0 then x.Floor else -((-x).Floor)
  }

  /** Truncation toward zero never reverses the order of two numbers. */
  lemma TruncateMonotone(x: real, y: real)
    requires x <= y
    ensures Truncate(x) <= Truncate(y)
  {
    if x < 0.0 {
      assert -y <= -x;
      assert (-y).Floor <= (-x).Floor || y >= 0.0;
    }
  }

  /**
   * The duty `set_intensity` writes: the intensity inverted, scaled by 2^16,
   * truncated and clamped into the 16-bit range.
   */
  function Duty(intensity: real): (duty: int)
    ensures 0 <= duty <= 65535
  {
    var inverted := 1.0 - intensity;
    var scaled := Truncate(inverted * 65536.0);
    var atLeastZero := if scaled < 0 then 0 else scaled;
    if atLeastZero > 65535 then 65535 else atLeastZero
  }

  /** Active-low drive: full intensity is duty 0, zero intensity the clamped maximum 65535. */
  lemma DutyEnds()
    ensures Duty(1.0) == 0
    ensures Duty(0.0) == 65535
  {
    assert Truncate(0.0) == 0;
    assert Truncate(65536.0) == 65536;
  }

  /** On [0, 1] the duty is the floor of (1 - intensity) * 65536, capped at 65535. */
  lemma DutyFloor(intensity: real)
    requires 0.0 <= intensity <= 1.0
    ensures var f := ((1.0 - intensity) * 65536.0).Floor;
            Duty(intensity) == if f > 65535 then 65535 else f
  {
    assert (1.0 - intensity) * 65536.0 >= 0.0;
  }

  /** More intensity never means more duty. */
  lemma DutyMonotone(a: real, b: real)
    requires a <= b
    ensures Duty(b) <= Duty(a)
  {
    assert (1.0 - b) * 65536.0 <= (1.0 - a) * 65536.0;
    TruncateMonotone((1.0 - b) * 65536.0, (1.0 - a) * 65536.0);
  }

  /** Intensities outside [0, 1] saturate. */
  lemma DutySaturates(intensity: real)
    ensures intensity >= 1.0 ==> Duty(intensity) == 0
    ensures intensity <= 0.0 ==> Duty(intensity) == 65535
  {
    if intensity >= 1.0 {
      assert (1.0 - intensity) * 65536.0 <= 0.0;
    } else if intensity <= 0.0 {
      assert (1.0 - intensity) * 65536.0 >= 65536.0;
    }
  }

  /** `Fan_pwm`: one fan on GPIO `pin`. */
  class FanPwm {
    const pin: nat
    const frequencyHz: int
    /** The last value passed to `duty_u16`, if any. */
    var duty: Option<int>

    constructor (pin: nat, frequencyHz: int)
      ensures this.pin == pin && this.frequencyHz == frequencyHz && duty == None
    {
      this.pin := pin;
      this.frequencyHz := frequencyHz;
      duty := None;
    }

    /** `set_intensity(intensity)` */
    method SetIntensity(intensity: real)
      modifies this`duty
      ensures duty == Some(Duty(intensity))
    {
      var inverted := 1.0 - intensity;
      var dutyU16 := Truncate(inverted * 65536.0);
      dutyU16 := if 0 > dutyU16 then 0 else dutyU16;
      dutyU16 := if 65535 < dutyU16 then 65535 else dutyU16;
      duty := Some(dutyU16);
    }
  }

  /** `Fans_pwm`: the two humidifier fans on GPIO 0 and 1. */
  class FansPwm {
    const fan1: FanPwm
    const fan2: FanPwm

    predicate Valid()
      reads this
    {
      fan1 != fan2 && fan1.pin == 0 && fan2.pin == 1
    }

    constructor ()
      ensures Valid() && fresh(fan1) && fresh(fan2)
      ensures fan1.duty == None && fan2.duty == None
      ensures fan1.frequencyHz == 25000 && fan2.frequencyHz == 25000
    {
      fan1 := new FanPwm(0, 25000);
      fan2 := new FanPwm(1, 25000);
    }

    /** `set_fan_hum_intensity(intensity)`: both fans get the same duty, nothing else changes. */
    method SetFanHumIntensity(intensity: real)
      requires Valid()
      modifies fan1`duty, fan2`duty
      ensures fan1.duty == fan2.duty == Some(Duty(intensity))
    {
      fan1.SetIntensity(intensity);
      fan2.SetIntensity(intensity);
    }
  }

  /**
   * What importing the module does: both humidifier fans and the circulation
   * fan start at intensity 0 (duty 65535) and the on/off fan at 1 (duty 0).
   */
  method LoadModule() returns (fansHum: FansPwm, fanCirc: FanPwm, fanCircOnOff: FanPwm)
    ensures fansHum.Valid() && fanCirc.pin == 2 && fanCircOnOff.pin == 3
    ensures fansHum.fan1.duty == Some(65535) && fansHum.fan2.duty == Some(65535)
    ensures fanCirc.duty == Some(65535)
    ensures fanCircOnOff.duty == Some(0)
    ensures fresh(fansHum) && fresh(fansHum.fan1) && fresh(fansHum.fan2) && fresh(fanCirc) && fresh(fanCircOnOff)
  {
    DutyEnds();
    fansHum := new FansPwm();
    fansHum.SetFanHumIntensity(0.0);
    fanCirc := new FanPwm(2, 25000);
    fanCirc.SetIntensity(0.0);
    fanCircOnOff := new FanPwm(3, 25000);
    fanCircOnOff.SetIntensity(1.0);
  }
}

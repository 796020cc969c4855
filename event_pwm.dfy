/**
 * Event-driven software PWM (`EventPWM` and `EventPWMManager`, src/event_pwm.cpp).
 *
 * Duty cycle (percent) and frequency (Hz) are `double` in the source; they are exact
 * `real`s here, which is sound because the component only compares and stores them,
 * apart from the 8-bit conversion v / 255 * 100.  Acquiring the pin is an oracle;
 * the timing thread is not modelled.
 */
module EventPWM {
  import opened Common

  const MIN_FREQUENCY: real := 50.0
  const MAX_FREQUENCY: real := 10000.0
  const DEFAULT_FREQUENCY: real := 490.0

  predicate FrequencyInRange(f: real)
  {
    MIN_FREQUENCY <= f <= MAX_FREQUENCY
  }

  predicate DutyInRange(d: real)
  {
    0.0 <= d <= 100.0
  }

  /** The percentage an 8-bit value stands for: v / 255 * 100, always within [0, 100]. */
  function DutyFrom8Bit(value: Byte): (percent: real)
    ensures DutyInRange(percent)
    ensures value == 0 ==> percent == 0.0
    ensures value == 255 ==> percent == 100.0
    ensures percent * 255.0 == value as real * 100.0
  {
    (value as real / 255.0) * 100.0
  }

  /** Larger 8-bit values give larger duty cycles. */
  lemma DutyFrom8BitMonotone(a: Byte, b: Byte)
    requires a < b
    ensures DutyFrom8Bit(a) < DutyFrom8Bit(b)
  {
    assert DutyFrom8Bit(a) * 255.0 < DutyFrom8Bit(b) * 255.0;
  }

  class EventPWM {
    const pin: int
    var active: bool
    var dutyCycle: real
    var frequencyHz: real

    ghost predicate Valid()
      reads this
    {
      ValidPin(pin) && DutyInRange(dutyCycle) && FrequencyInRange(frequencyHz)
    }

    constructor (p: int)
      requires ValidPin(p)
      ensures Valid() && pin == p && !active && dutyCycle == 0.0 && frequencyHz == DEFAULT_FREQUENCY
    {
      pin := p;
      active := false;
      dutyCycle := 0.0;
      frequencyHz := DEFAULT_FREQUENCY;
    }

    /** `EventPWM(pin)`: throws `InvalidPinError` (here: no object) for pins outside 0..27. */
    static method Create(p: int) returns (pwm: EventPWM?)
      ensures pwm == null <==> !ValidPin(p)
      ensures pwm != null ==>
        fresh(pwm) && pwm.Valid() && pwm.pin == p && !pwm.active
        && pwm.dutyCycle == 0.0 && pwm.frequencyHz == DEFAULT_FREQUENCY
    {
      if p < 0 || p > MAX_GPIO_PIN {
        return null;
      }
      pwm := new EventPWM(p);
    }

    /**
     * `begin(frequencyHz, dutyCycle)`: out-of-range arguments fail without change; an active
     * channel just takes the new values; an inactive one starts only if the pin is acquired.
     */
    method Begin(frequency: real, duty: real, pinAcquired: bool) returns (ok: bool)
      requires Valid()
      modifies this
      ensures Valid()
      ensures ok <==> FrequencyInRange(frequency) && DutyInRange(duty) && (old(active) || pinAcquired)
      ensures ok ==> active && frequencyHz == frequency && dutyCycle == duty
      ensures !ok ==> active == old(active) && frequencyHz == old(frequencyHz) && dutyCycle == old(dutyCycle)
    {
      if frequency < MIN_FREQUENCY || frequency > MAX_FREQUENCY {
        return false;
      }
      if duty < 0.0 || duty > 100.0 {
        return false;
      }
      if active {
        frequencyHz := frequency;
        dutyCycle := duty;
        return true;
      }
      if !pinAcquired {
        return false;
      }
      frequencyHz := frequency;
      dutyCycle := duty;
      active := true;
      return true;
    }

    /** `end()`: stops an active channel; on an inactive one it does nothing. */
    method End()
      requires Valid()
      modifies this
      ensures Valid() && !active
      ensures dutyCycle == old(dutyCycle) && frequencyHz == old(frequencyHz)
    {
      if !active {
        return;
      }
      active := false;
    }

    /** `setDutyCycle(dutyCycle)`: accepted only within [0, 100], active or not. */
    method SetDutyCycle(duty: real) returns (ok: bool)
      requires Valid()
      modifies this
      ensures Valid()
      ensures ok <==> DutyInRange(duty)
      ensures dutyCycle == if ok then duty else old(dutyCycle)
      ensures active == old(active) && frequencyHz == old(frequencyHz)
    {
      if duty < 0.0 || duty > 100.0 {
        return false;
      }
      dutyCycle := duty;
      return true;
    }

    /** `setDutyCycle8Bit(value)`: always succeeds with value / 255 * 100. */
    method SetDutyCycle8Bit(value: Byte) returns (ok: bool)
      requires Valid()
      modifies this
      ensures Valid() && ok
      ensures dutyCycle == DutyFrom8Bit(value)
      ensures active == old(active) && frequencyHz == old(frequencyHz)
    {
      ok := SetDutyCycle(DutyFrom8Bit(value));
    }

    /** `setFrequency(frequencyHz)`: accepted only within [50, 10000], active or not. */
    method SetFrequency(frequency: real) returns (ok: bool)
      requires Valid()
      modifies this
      ensures Valid()
      ensures ok <==> FrequencyInRange(frequency)
      ensures frequencyHz == if ok then frequency else old(frequencyHz)
      ensures active == old(active) && dutyCycle == old(dutyCycle)
    {
      if frequency < MIN_FREQUENCY || frequency > MAX_FREQUENCY {
        return false;
      }
      frequencyHz := frequency;
      return true;
    }
  }

  class EventPWMManager {
    var channels: map<int, EventPWM>

    /** Every registered channel is running, valid, and registered under its own pin. */
    ghost predicate Valid()
      reads this, channels.Values
    {
      forall p :: p in channels ==> channels[p].pin == p && channels[p].Valid() && channels[p].active
    }

    constructor ()
      ensures Valid() && channels == map[]
    {
      channels := map[];
    }

    /**
     * `analogWriteEvent(pin, value, frequencyHz)`: value clamped to [0, 255] and frequency to
     * [50, 10000]; a registered pin is updated in place; otherwise a channel is created and
     * registered only if the pin is valid and the channel starts.
     */
    method AnalogWriteEvent(pin: int, value: int, frequency: int, pinAcquired: bool)
      requires Valid()
      modifies this, channels.Values
      ensures Valid()
      ensures pin in old(channels) ==>
        channels == old(channels)
        && channels[pin].dutyCycle == DutyFrom8Bit(Clamp(value, 0, 255))
        && channels[pin].frequencyHz == Clamp(frequency, 50, 10000) as real
      ensures pin !in old(channels) && ValidPin(pin) && pinAcquired ==>
        channels.Keys == old(channels.Keys) + {pin}
        && fresh(channels[pin])
        && channels[pin].dutyCycle == DutyFrom8Bit(Clamp(value, 0, 255))
        && channels[pin].frequencyHz == Clamp(frequency, 50, 10000) as real
        && (forall p :: p in old(channels) ==> channels[p] == old(channels[p]))
      ensures pin !in old(channels) && !(ValidPin(pin) && pinAcquired) ==> channels == old(channels)
      ensures forall p :: p in old(channels) && p != pin ==>
        channels[p].dutyCycle == old(channels[p].dutyCycle) && channels[p].frequencyHz == old(channels[p].frequencyHz)
    {
      var v := Clamp(value, 0, 255);
      var f := Clamp(frequency, 50, 10000);
      if pin in channels {
        var pwm := channels[pin];
        var _ := pwm.SetDutyCycle8Bit(v);
        var _ := pwm.SetFrequency(f as real);
        return;
      }
      var pwm := EventPWM.Create(pin);
      if pwm == null {
        return; // InvalidPinError caught
      }
      var started := pwm.Begin(f as real, DutyFrom8Bit(v), pinAcquired);
      if !started {
        return;
      }
      channels := channels[pin := pwm];
    }

    /** `stopPWM(pin)`: false for an unregistered pin, else the channel is dropped (and stops). */
    method StopPWM(pin: int) returns (ok: bool)
      requires Valid()
      modifies this
      ensures Valid()
      ensures ok <==> pin in old(channels)
      ensures channels == old(channels) - {pin}
    {
      if pin !in channels {
        return false;
      }
      channels := channels - {pin};
      return true;
    }

    /** `isActive(pin)`. */
    predicate IsActive(pin: int)
      reads this
    {
      pin in channels
    }

    /** `getActiveCount()`. */
    function GetActiveCount(): (n: nat)
      reads this
      ensures n == |channels.Keys|
    {
      |channels|
    }
  }
}

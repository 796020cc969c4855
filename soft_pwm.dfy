/**
 * Software PWM registry (`PWMManager`, src/pwm.cpp): a map from GPIO pin to the
 * duty cycle and frequency of the thread that bit-bangs it.
 *
 * Acquiring the pin (`Pin` construction) is an oracle.  Thrown exceptions become
 * the `PwmResult` error values.  The generator thread is modelled by the sequence
 * of levels it writes for a given sequence of duty-cycle readings.
 */
module SoftPWM {
  import opened Common

  const DEFAULT_PWM_FREQUENCY: int := 490
  const MIN_PWM_FREQUENCY: int := 1
  const MAX_PWM_FREQUENCY: int := 5000
  const MAX_DUTY: int := 255

  /** The state kept per pin. */
  datatype PwmChannel = PwmChannel(dutyCycle: int, frequency: int)

  /** How `startPWM` ends: normally, or with the exception it throws. */
  datatype PwmResult = Started | InvalidPinError | GpioAccessError

  /** `validateDutyCycle`: clamp to [0, 255]. */
  function ValidateDutyCycle(dutyCycle: int): (d: int)
    ensures 0 <= d <= MAX_DUTY
    ensures 0 <= dutyCycle <= MAX_DUTY ==> d == dutyCycle
    ensures dutyCycle < 0 ==> d == 0
    ensures dutyCycle > MAX_DUTY ==> d == MAX_DUTY
  {
    Clamp(dutyCycle, 0, MAX_DUTY)
  }

  /** `validateFrequency`: clamp to [1, 5000] Hz. */
  function ValidateFrequency(frequency: int): (f: int)
    ensures MIN_PWM_FREQUENCY <= f <= MAX_PWM_FREQUENCY
    ensures MIN_PWM_FREQUENCY <= frequency <= MAX_PWM_FREQUENCY ==> f == frequency
    ensures frequency < MIN_PWM_FREQUENCY ==> f == MIN_PWM_FREQUENCY
    ensures frequency > MAX_PWM_FREQUENCY ==> f == MAX_PWM_FREQUENCY
  {
    Clamp(frequency, MIN_PWM_FREQUENCY, MAX_PWM_FREQUENCY)
  }

  /** A registry entry as the manager keeps it: clamped duty and frequency. */
  predicate ValidChannel(c: PwmChannel)
  {
    0 <= c.dutyCycle <= MAX_DUTY && MIN_PWM_FREQUENCY <= c.frequency <= MAX_PWM_FREQUENCY
  }

  class PWMManager {
    var channels: map<int, PwmChannel>

    ghost predicate Valid()
      reads this
    {
      forall pin :: pin in channels ==> ValidPin(pin) && ValidChannel(channels[pin])
    }

    constructor ()
      ensures Valid() && channels == map[]
    {
      channels := map[];
    }

    /**
     * `startPWM(pin, dutyCycle, frequency)`: rejects pins outside 0..27 before touching the
     * registry; an active pin only gets its duty cycle replaced; a new pin is registered only
     * when it can be acquired.
     */
    method StartPWM(pin: int, dutyCycle: int, frequency: int, pinAcquired: bool) returns (r: PwmResult)
      requires Valid()
      modifies this
      ensures Valid()
      ensures !ValidPin(pin) ==> r == InvalidPinError && channels == old(channels)
      ensures ValidPin(pin) && pin in old(channels) ==>
        r == Started
        && channels == old(channels)[pin := old(channels)[pin].(dutyCycle := ValidateDutyCycle(dutyCycle))]
      ensures ValidPin(pin) && pin !in old(channels) && !pinAcquired ==>
        r == GpioAccessError && channels == old(channels)
      ensures ValidPin(pin) && pin !in old(channels) && pinAcquired ==>
        r == Started
        && channels == old(channels)[pin := PwmChannel(ValidateDutyCycle(dutyCycle), ValidateFrequency(frequency))]
    {
      if pin < 0 || pin > MAX_GPIO_PIN {
        return InvalidPinError;
      }
      var duty := ValidateDutyCycle(dutyCycle);
      var freq := ValidateFrequency(frequency);
      if pin in channels {
        channels := channels[pin := channels[pin].(dutyCycle := duty)];
        return Started;
      }
      if !pinAcquired {
        return GpioAccessError;
      }
      channels := channels[pin := PwmChannel(duty, freq)];
      return Started;
    }

    /** `setDutyCycle(pin, dutyCycle)`: false for an inactive pin, else stores the clamped duty. */
    method SetDutyCycle(pin: int, dutyCycle: int) returns (ok: bool)
      requires Valid()
      modifies this
      ensures Valid()
      ensures ok <==> pin in old(channels)
      ensures ok ==> channels == old(channels)[pin := old(channels)[pin].(dutyCycle := ValidateDutyCycle(dutyCycle))]
      ensures !ok ==> channels == old(channels)
    {
      var duty := ValidateDutyCycle(dutyCycle);
      if pin !in channels {
        return false;
      }
      channels := channels[pin := channels[pin].(dutyCycle := duty)];
      return true;
    }

    /** `stopPWM(pin)`: removes an active pin and reports whether there was one. */
    method StopPWM(pin: int) returns (ok: bool)
      requires Valid()
      modifies this
      ensures Valid()
      ensures ok <==> pin in old(channels)
      ensures channels == old(channels) - {pin}
      ensures ok ==> |channels| == |old(channels)| - 1
    {
      if pin !in channels {
        return false;
      }
      channels := channels - {pin};
      return true;
    }

    /** `isActive(pin)`. */
    predicate IsActive(pin: int)
      reads this
    {
      pin in channels
    }

    /** `getActiveCount()`. */
    function GetActiveCount(): (n: nat)
      reads this
      ensures n == |channels.Keys|
    {
      |channels|
    }

    /** `getDutyCycle(pin)`: -1 for an inactive pin. */
    function GetDutyCycle(pin: int): (d: int)
      requires Valid()
      reads this
      ensures d == -1 <==> !IsActive(pin)
      ensures IsActive(pin) ==> 0 <= d <= MAX_DUTY
    {
      if pin in channels then channels[pin].dutyCycle else -1
    }

    /** `getFrequency(pin)`: -1 for an inactive pin. */
    function GetFrequency(pin: int): (f: int)
      requires Valid()
      reads this
      ensures f == -1 <==> !IsActive(pin)
      ensures IsActive(pin) ==> MIN_PWM_FREQUENCY <= f <= MAX_PWM_FREQUENCY
    {
      if pin in channels then channels[pin].frequency else -1
    }
  }

  /** Levels the generator writes in one pass for a duty reading: steady low, steady high, or a high-low pulse. */
  function CycleWrites(duty: int): (levels: seq<bool>)
    ensures duty == 0 ==> levels == [false]
    ensures duty == MAX_DUTY ==> levels == [true]
    ensures duty != 0 && duty != MAX_DUTY ==> levels == [true, false]
  {
    if duty == 0 then [false]
    else if duty == MAX_DUTY then [true]
    else [true, false]
  }

  /** The levels of consecutive passes, one `CycleWrites` per duty reading, in order. */
  function AllCycles(dutyReadings: seq<int>): (levels: seq<bool>)
    ensures |dutyReadings| <= |levels| <= 2 * |dutyReadings|
  {
    if dutyReadings == [] then []
    else AllCycles(dutyReadings[..|dutyReadings| - 1]) + CycleWrites(dutyReadings[|dutyReadings| - 1])
  }

  /**
   * The generator thread (`pwmThreadFunction`): one pass per duty-cycle reading while the
   * channel is active, then a final LOW once it is stopped.  Returns the levels written, in order.
   */
  method GeneratorWrites(dutyReadings: seq<int>) returns (levels: seq<bool>)
    ensures levels == AllCycles(dutyReadings) + [false]
    ensures |levels| > 0 && !levels[|levels| - 1]
    ensures (forall i :: 0 <= i < |dutyReadings| ==> dutyReadings[i] == 0) ==> true !in levels
    ensures (forall i :: 0 <= i < |dutyReadings| ==> dutyReadings[i] == MAX_DUTY) ==>
      forall j :: 0 <= j < |levels| - 1 ==> levels[j]
    ensures |dutyReadings| <= |levels| - 1 <= 2 * |dutyReadings|
  {
    levels := [];
    var i := 0;
    while i < |dutyReadings|
      invariant 0 <= i <= |dutyReadings|
      invariant i <= |levels| <= 2 * i
      invariant levels == AllCycles(dutyReadings[..i])
      invariant (forall k :: 0 <= k < i ==> dutyReadings[k] == 0) ==> true !in levels
      invariant (forall k :: 0 <= k < i ==> dutyReadings[k] == MAX_DUTY) ==> forall j :: 0 <= j < |levels| ==> levels[j]
    {
      assert dutyReadings[..i + 1][..i] == dutyReadings[..i];
      levels := levels + CycleWrites(dutyReadings[i]);
      i := i + 1;
    }
    assert dutyReadings[..i] == dutyReadings;
    levels := levels + [false];
  }
}

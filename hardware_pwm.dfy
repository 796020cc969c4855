/**
 * Hardware PWM through the Linux sysfs interface (`HardwarePWM`, src/HardwarePWM.cpp).
 *
 * Each sysfs attribute write is an oracle `SysfsWrite`: whether writing a value to
 * an attribute file succeeds.  Exporting and unexporting the channel are boolean
 * oracles.  The percent conversions, done in `double` by the source, are computed
 * here in exact rational arithmetic followed by the same truncation to an integer.
 */
module HardwarePWM {
  import opened Common

  const NS_PER_SECOND: nat := 1000000000

  /** The sysfs attribute files of an exported channel. */
  datatype Attribute = PeriodFile | DutyCycleFile | EnableFile | PolarityFile

  datatype PWMPolarity = Normal | Inversed

  /** Whether writing `value` to the attribute file succeeds. */
  type SysfsWrite = (Attribute, int) -> bool

  /** The value written to the `polarity` file: "normal" or "inversed". */
  function PolarityValue(p: PWMPolarity): (v: int)
    ensures v == 0 <==> p == Normal
    ensures v == 1 <==> p == Inversed
  {
    match p
    case Normal => 0
    case Inversed => 1
  }

  /** The period written by `begin`/`setFrequency`: 1e9 / f in unsigned integer division. */
  function PeriodForFrequency(frequencyHz: nat): (periodNs: nat)
    requires frequencyHz > 0
    ensures periodNs * frequencyHz <= NS_PER_SECOND < (periodNs + 1) * frequencyHz
  {
    NS_PER_SECOND / frequencyHz
  }

  /** `getFrequency()` for a given period: 0 for a zero period, else 1e9 / period. */
  function FrequencyForPeriod(periodNs: nat): (frequencyHz: nat)
    ensures periodNs == 0 ==> frequencyHz == 0
    ensures periodNs > 0 ==> frequencyHz * periodNs <= NS_PER_SECOND < (frequencyHz + 1) * periodNs
  {
    if periodNs == 0 then 0 else NS_PER_SECOND / periodNs
  }

  /** The quotient is the unique q with q * d <= n < (q + 1) * d. */
  lemma DivBounds(n: nat, d: nat, q: nat)
    requires d > 0 && q * d <= n < (q + 1) * d
    ensures n / d == q
  {
    var k := n / d;
    assert n == k * d + n % d;
    if k > q {
      MulMonotone(q + 1, k, d);
      assert false;
    }
    if k < q {
      MulMonotone(k + 1, q, d);
      assert false;
    }
  }

  lemma DivFloor(n: nat, d: nat)
    requires d > 0
    ensures (n / d) * d <= n
  {
    assert n == (n / d) * d + n % d;
  }

  lemma DivMonotone(a: nat, b: nat, d: nat)
    requires a <= b && d > 0
    ensures a / d <= b / d
  {
    DivFloor(a, d);
    assert b < (b / d + 1) * d;
    if a / d > b / d {
      MulMonotone(b / d + 1, a / d, d);
      assert false;
    }
  }

  /**
   * Reading the frequency back after setting it: never lower than requested, and exact
   * whenever f * f <= 1e9 (every frequency up to 31622 Hz).
   */
  lemma {:induction false} FrequencyRoundTrip(f: nat)
    requires 0 < f <= NS_PER_SECOND
    ensures FrequencyForPeriod(PeriodForFrequency(f)) >= f
    ensures f * f <= NS_PER_SECOND ==> FrequencyForPeriod(PeriodForFrequency(f)) == f
  {
    var p := PeriodForFrequency(f);
    assert p >= 1 by {
      assert (p + 1) * f > NS_PER_SECOND >= f;
    }
    var g := FrequencyForPeriod(p);
    assert f * p <= NS_PER_SECOND;
    // g is the largest multiplier of p within 1e9, and f is such a multiplier.
    if g < f {
      assert (g + 1) * p <= f * p by {
        assert g + 1 <= f;
        MulMonotone(g + 1, f, p);
      }
      assert false;
    }
    if f * f <= NS_PER_SECOND {
      // p >= f, so (f + 1) * p = f * p + p > (1e9 - f) + f.
      assert p >= f by {
        if p < f {
          MulMonotone(p + 1, f, f);
          assert false;
        }
      }
      assert f * p + f > NS_PER_SECOND;
      assert (f + 1) * p > NS_PER_SECOND;
      DivBounds(NS_PER_SECOND, p, f);
    }
  }

  lemma MulMonotone(a: nat, b: nat, c: nat)
    requires a <= b
    ensures a * c <= b * c
  {
  }

  /**
   * `static_cast<uint64_t>((percent / 100.0) * periodNs)` in exact arithmetic: the fraction of
   * the period truncated towards zero, and 0 for a negative percent, as the saturating
   * conversion of the Pi's ARM cores gives.
   */
  function DutyFromPercent(percent: real, periodNs: nat): (dutyNs: nat)
    ensures percent >= 0.0 ==>
      dutyNs as real <= (percent / 100.0) * (periodNs as real) < dutyNs as real + 1.0
    ensures percent <= 0.0 ==> dutyNs == 0
    ensures percent <= 100.0 ==> dutyNs <= periodNs
    ensures percent == 100.0 ==> dutyNs == periodNs
  {
    var x := (percent / 100.0) * (periodNs as real);
    if x < 0.0 then 0
    else
      assert percent <= 100.0 ==> x <= periodNs as real by {
        if percent <= 100.0 {
          assert percent / 100.0 <= 1.0;
        }
      }
      x.Floor
  }

  /**
   * The duty cycle `setFrequency` writes for the new period so that the old duty fraction is kept:
   * duty * newPeriod / oldPeriod, truncated, and 0 when there was no period.
   */
  function PreservedDuty(dutyNs: nat, oldPeriodNs: nat, newPeriodNs: nat): (newDutyNs: nat)
    ensures dutyNs <= oldPeriodNs ==> newDutyNs <= newPeriodNs
    ensures oldPeriodNs > 0 ==> newDutyNs * oldPeriodNs <= dutyNs * newPeriodNs
    ensures oldPeriodNs == 0 ==> newDutyNs == 0
  {
    if oldPeriodNs == 0 then 0
    else
      var q := dutyNs * newPeriodNs / oldPeriodNs;
      PreservedDutyBounds(dutyNs, oldPeriodNs, newPeriodNs);
      q
  }

  lemma PreservedDutyBounds(dutyNs: nat, oldPeriodNs: nat, newPeriodNs: nat)
    requires oldPeriodNs > 0
    ensures dutyNs <= oldPeriodNs ==> dutyNs * newPeriodNs / oldPeriodNs <= newPeriodNs
    ensures (dutyNs * newPeriodNs / oldPeriodNs) * oldPeriodNs <= dutyNs * newPeriodNs
  {
    DivFloor(dutyNs * newPeriodNs, oldPeriodNs);
    if dutyNs <= oldPeriodNs {
      MulMonotone(dutyNs, oldPeriodNs, newPeriodNs);
      DivMonotone(dutyNs * newPeriodNs, oldPeriodNs * newPeriodNs, oldPeriodNs);
      DivBounds(oldPeriodNs * newPeriodNs, oldPeriodNs, newPeriodNs);
    }
  }

  /** `gpioToPWM`: the (chip, channel) wired to a header GPIO, if any. */
  function GpioToPWM(gpioPin: int): (r: Option<(int, int)>)
    ensures r.Some? <==> gpioPin in {12, 13, 18, 19}
    ensures r.Some? ==> r.value.0 == 0 && r.value.1 == gpioPin % 2
  {
    if gpioPin == 12 || gpioPin == 18 then Some((0, 0))
    else if gpioPin == 13 || gpioPin == 19 then Some((0, 1))
    else None
  }

  class HardwarePWM {
    const chip: int
    const channel: int
    var exported: bool
    var enabled: bool
    var periodNs: nat
    var dutyCycleNs: nat

    constructor (chipNumber: int, channelNumber: int)
      ensures chip == chipNumber && channel == channelNumber
      ensures !exported && !enabled && periodNs == 0 && dutyCycleNs == 0
    {
      chip := chipNumber;
      channel := channelNumber;
      exported := false;
      enabled := false;
      periodNs := 0;
      dutyCycleNs := 0;
    }

    /** `getFrequency()`. */
    function GetFrequency(): (frequencyHz: nat)
      reads this
      ensures periodNs == 0 ==> frequencyHz == 0
      ensures frequencyHz <= NS_PER_SECOND
      ensures periodNs > 0 ==> frequencyHz * periodNs <= NS_PER_SECOND < (frequencyHz + 1) * periodNs
    {
      FrequencyForPeriod(periodNs)
    }

    /** `getDutyCycle()`: the duty as a percentage of the period, or -1 without a period. */
    function GetDutyCycle(): (percent: real)
      reads this
      ensures periodNs == 0 ==> percent == -1.0
      ensures periodNs > 0 ==> percent * (periodNs as real) == 100.0 * (dutyCycleNs as real)
      ensures periodNs > 0 && dutyCycleNs <= periodNs ==> 0.0 <= percent <= 100.0
    {
      if periodNs == 0 then -1.0 else (100.0 * dutyCycleNs as real) / (periodNs as real)
    }

    /**
     * `begin(frequencyHz, initialDutyCycle)`: a zero frequency fails at once; otherwise the
     * channel is exported if needed, then period, duty cycle and enable are written in that
     * order, each field being updated only after its write succeeds.
     */
    method Begin(frequencyHz: nat, initialDutyCycle: real, exportOk: bool, sysfs: SysfsWrite) returns (ok: bool)
      requires frequencyHz < 0x1_0000_0000
      modifies this
      ensures frequencyHz == 0 ==>
        !ok && exported == old(exported) && enabled == old(enabled)
        && periodNs == old(periodNs) && dutyCycleNs == old(dutyCycleNs)
      ensures ok <==>
        frequencyHz > 0 && (old(exported) || exportOk)
        && sysfs(PeriodFile, PeriodForFrequency(frequencyHz))
        && sysfs(DutyCycleFile, DutyFromPercent(initialDutyCycle, PeriodForFrequency(frequencyHz)))
        && sysfs(EnableFile, 1)
      ensures ok ==>
        exported && enabled && periodNs == PeriodForFrequency(frequencyHz)
        && dutyCycleNs == DutyFromPercent(initialDutyCycle, periodNs)
      ensures ok && initialDutyCycle <= 100.0 ==> dutyCycleNs <= periodNs
      ensures frequencyHz > 0 ==> exported == (old(exported) || exportOk)
      ensures frequencyHz > 0 && !(old(exported) || exportOk) ==> periodNs == old(periodNs) && dutyCycleNs == old(dutyCycleNs)
      ensures frequencyHz > 0 && (old(exported) || exportOk) ==>
        var period := PeriodForFrequency(frequencyHz);
        var duty := DutyFromPercent(initialDutyCycle, period);
        periodNs == (if sysfs(PeriodFile, period) then period else old(periodNs))
        && dutyCycleNs == (if sysfs(PeriodFile, period) && sysfs(DutyCycleFile, duty) then duty else old(dutyCycleNs))
      ensures !ok ==> enabled == old(enabled)
    {
      if frequencyHz == 0 {
        return false;
      }
      if !exported {
        if !exportOk {
          return false;
        }
        exported := true;
      }
      var period := NS_PER_SECOND / frequencyHz;
      if !sysfs(PeriodFile, period) {
        return false;
      }
      periodNs := period;
      var duty := DutyFromPercent(initialDutyCycle, period);
      if !sysfs(DutyCycleFile, duty) {
        return false;
      }
      dutyCycleNs := duty;
      if !sysfs(EnableFile, 1) {
        return false;
      }
      enabled := true;
      return true;
    }

    /** `end()`: disables an enabled channel (ignoring the write result) and unexports an exported one. */
    method End(unexportOk: bool, sysfs: SysfsWrite)
      modifies this
      ensures !enabled
      ensures exported == (old(exported) && !unexportOk)
      ensures periodNs == old(periodNs) && dutyCycleNs == old(dutyCycleNs)
    {
      if enabled {
        var _ := sysfs(EnableFile, 0);
        enabled := false;
      }
      if exported {
        if unexportOk {
          exported := false;
        }
      }
    }

    /**
     * `setFrequency(frequencyHz)`: fails when not exported or for 0; otherwise writes the new
     * period and then the duty cycle that keeps the duty fraction.  The `enabled` flag is kept.
     */
    method SetFrequency(frequencyHz: nat, sysfs: SysfsWrite) returns (ok: bool)
      requires frequencyHz < 0x1_0000_0000
      modifies this
      ensures ok <==>
        old(exported) && frequencyHz > 0 && sysfs(PeriodFile, PeriodForFrequency(frequencyHz))
        && sysfs(DutyCycleFile, PreservedDuty(old(dutyCycleNs), old(periodNs), PeriodForFrequency(frequencyHz)))
      ensures ok ==>
        periodNs == PeriodForFrequency(frequencyHz)
        && dutyCycleNs == PreservedDuty(old(dutyCycleNs), old(periodNs), periodNs)
      ensures ok && old(dutyCycleNs) <= old(periodNs) ==> dutyCycleNs <= periodNs
      ensures !old(exported) || frequencyHz == 0 ==> periodNs == old(periodNs) && dutyCycleNs == old(dutyCycleNs)
      ensures old(exported) && frequencyHz > 0 ==>
        var period := PeriodForFrequency(frequencyHz);
        var duty := PreservedDuty(old(dutyCycleNs), old(periodNs), period);
        periodNs == (if sysfs(PeriodFile, period) then period else old(periodNs))
        && dutyCycleNs == (if sysfs(PeriodFile, period) && sysfs(DutyCycleFile, duty) then duty else old(dutyCycleNs))
      ensures exported == old(exported) && enabled == old(enabled)
    {
      if !exported {
        return false;
      }
      if frequencyHz == 0 {
        return false;
      }
      var newPeriod := NS_PER_SECOND / frequencyHz;
      var newDuty := PreservedDuty(dutyCycleNs, periodNs, newPeriod);
      var wasEnabled := enabled;
      if wasEnabled {
        var _ := sysfs(EnableFile, 0);
      }
      if !sysfs(PeriodFile, newPeriod) {
        if wasEnabled {
          var _ := sysfs(EnableFile, 1);
        }
        return false;
      }
      periodNs := newPeriod;
      if !sysfs(DutyCycleFile, newDuty) {
        if wasEnabled {
          var _ := sysfs(EnableFile, 1);
        }
        return false;
      }
      dutyCycleNs := newDuty;
      if wasEnabled {
        var _ := sysfs(EnableFile, 1);
      }
      return true;
    }

    /** `setDutyCycle(percent)`: the percent is clamped to [0, 100] and converted against the period. */
    method SetDutyCycle(percent: real, sysfs: SysfsWrite) returns (ok: bool)
      modifies this
      ensures var p := if percent < 0.0 then 0.0 else if percent > 100.0 then 100.0 else percent;
        (ok <==> old(exported) && sysfs(DutyCycleFile, DutyFromPercent(p, periodNs)))
        && (ok ==> dutyCycleNs == DutyFromPercent(p, periodNs))
      ensures ok ==> dutyCycleNs <= periodNs
      ensures !ok ==> dutyCycleNs == old(dutyCycleNs)
      ensures exported == old(exported) && enabled == old(enabled) && periodNs == old(periodNs)
    {
      if !exported {
        return false;
      }
      var p := percent;
      if p < 0.0 {
        p := 0.0;
      }
      if p > 100.0 {
        p := 100.0;
      }
      var duty := DutyFromPercent(p, periodNs);
      if !sysfs(DutyCycleFile, duty) {
        return false;
      }
      dutyCycleNs := duty;
      return true;
    }

    /** `setDutyCycle8Bit(value)`: value / 255 of the period. */
    method SetDutyCycle8Bit(value: int, sysfs: SysfsWrite) returns (ok: bool)
      requires 0 <= value < 256
      modifies this
      ensures ok <==> old(exported) && sysfs(DutyCycleFile, DutyFromPercent(value as real / 255.0 * 100.0, periodNs))
      ensures ok ==> dutyCycleNs == DutyFromPercent(value as real / 255.0 * 100.0, periodNs) && dutyCycleNs <= periodNs
      ensures value == 255 && ok ==> dutyCycleNs == periodNs
      ensures !ok ==> dutyCycleNs == old(dutyCycleNs)
      ensures exported == old(exported) && enabled == old(enabled) && periodNs == old(periodNs)
    {
      var percent := value as real / 255.0 * 100.0;
      assert percent <= 100.0;
      ok := SetDutyCycle(percent, sysfs);
    }

    /**
     * `setPeriodNs(nanoseconds)`: after a successful period write the duty cycle is cut back
     * to the period if it was longer (that write's result is not checked); `enabled` is kept.
     */
    method SetPeriodNs(nanoseconds: nat, sysfs: SysfsWrite) returns (ok: bool)
      requires nanoseconds < 0x1_0000_0000_0000_0000
      modifies this
      ensures ok <==> old(exported) && sysfs(PeriodFile, nanoseconds)
      ensures ok ==>
        periodNs == nanoseconds
        && dutyCycleNs == (if old(dutyCycleNs) > nanoseconds then nanoseconds else old(dutyCycleNs))
      ensures ok ==> dutyCycleNs <= periodNs
      ensures !ok ==> periodNs == old(periodNs) && dutyCycleNs == old(dutyCycleNs)
      ensures exported == old(exported) && enabled == old(enabled)
    {
      if !exported {
        return false;
      }
      var wasEnabled := enabled;
      if wasEnabled {
        var _ := sysfs(EnableFile, 0);
      }
      if !sysfs(PeriodFile, nanoseconds) {
        if wasEnabled {
          var _ := sysfs(EnableFile, 1);
        }
        return false;
      }
      periodNs := nanoseconds;
      if dutyCycleNs > periodNs {
        dutyCycleNs := periodNs;
        var _ := sysfs(DutyCycleFile, dutyCycleNs);
      }
      if wasEnabled {
        var _ := sysfs(EnableFile, 1);
      }
      return true;
    }

    /** `setDutyCycleNs(nanoseconds)`: stores min(nanoseconds, period) once the write succeeds. */
    method SetDutyCycleNs(nanoseconds: nat, sysfs: SysfsWrite) returns (ok: bool)
      requires nanoseconds < 0x1_0000_0000_0000_0000
      modifies this
      ensures var n := if nanoseconds > periodNs then periodNs else nanoseconds;
        (ok <==> old(exported) && sysfs(DutyCycleFile, n)) && (ok ==> dutyCycleNs == n)
      ensures ok ==> dutyCycleNs <= periodNs && dutyCycleNs <= nanoseconds
      ensures !ok ==> dutyCycleNs == old(dutyCycleNs)
      ensures exported == old(exported) && enabled == old(enabled) && periodNs == old(periodNs)
    {
      if !exported {
        return false;
      }
      var n := nanoseconds;
      if n > periodNs {
        n := periodNs;
      }
      if !sysfs(DutyCycleFile, n) {
        return false;
      }
      dutyCycleNs := n;
      return true;
    }

    /** `setPolarity(polarity)`: the result of writing the polarity file, false when not exported. */
    method SetPolarity(polarity: PWMPolarity, sysfs: SysfsWrite) returns (ok: bool)
      modifies this
      ensures ok <==> old(exported) && sysfs(PolarityFile, PolarityValue(polarity))
      ensures exported == old(exported) && enabled == old(enabled)
      ensures periodNs == old(periodNs) && dutyCycleNs == old(dutyCycleNs)
    {
      if !exported {
        return false;
      }
      var wasEnabled := enabled;
      if wasEnabled {
        var _ := sysfs(EnableFile, 0);
      }
      ok := sysfs(PolarityFile, PolarityValue(polarity));
      if wasEnabled {
        var _ := sysfs(EnableFile, 1);
      }
    }

    /** `enable()`: false when not exported or when the write fails; otherwise the channel is enabled. */
    method Enable(sysfs: SysfsWrite) returns (ok: bool)
      modifies this
      ensures ok <==> old(exported) && sysfs(EnableFile, 1)
      ensures enabled == (old(enabled) || ok)
      ensures exported == old(exported) && periodNs == old(periodNs) && dutyCycleNs == old(dutyCycleNs)
    {
      if !exported {
        return false;
      }
      if !sysfs(EnableFile, 1) {
        return false;
      }
      enabled := true;
      return true;
    }

    /** `disable()`: true without doing anything when not exported; otherwise the write's result. */
    method Disable(sysfs: SysfsWrite) returns (ok: bool)
      modifies this
      ensures ok <==> !old(exported) || sysfs(EnableFile, 0)
      ensures old(exported) && ok ==> !enabled
      ensures !ok || !old(exported) ==> enabled == old(enabled)
      ensures exported == old(exported) && periodNs == old(periodNs) && dutyCycleNs == old(dutyCycleNs)
    {
      if !exported {
        return true;
      }
      if !sysfs(EnableFile, 0) {
        return false;
      }
      enabled := false;
      return true;
    }
  }
}

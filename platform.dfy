/**
 * Platform detection (`PlatformInfo`, src/platform.cpp): which board the library runs on,
 * decided by ordered substring tests on the device-tree model text and on /proc/cpuinfo,
 * and the defaults and capabilities derived from it.
 *
 * Reading files and enumerating devices are left to the caller: the texts read (empty when
 * the file cannot be opened) and the chip and bus lists found are parameters.
 */
module PlatformDetection {

  datatype Platform =
    | Unknown
    | RaspberryPi3
    | RaspberryPi4
    | RaspberryPi5
    | RaspberryPiCM4
    | RaspberryPiZero
    | RaspberryPiZero2
    | OrangePi
    | BeagleBone
    | JetsonNano

  datatype GpioChipInfo = GpioChipInfo(name: string, chipLabel: string, numLines: int, available: bool)

  datatype I2CBusInfo = I2CBusInfo(busNumber: int, devicePath: string, available: bool)

  const UINT32_MODULUS: int := 0x1_0000_0000
  const BCM2835_BASE: int := 0x3F00_0000
  const BCM2711_BASE: int := 0xFE00_0000
  /** The Pi 5 base the source writes, before it is truncated to 32 bits. */
  const BCM2712_BASE_64: int := 0x1F_0000_0000

  /** `getPlatformName`: one fixed name per platform. */
  function PlatformName(p: Platform): (name: string)
    ensures name == "Unknown Platform" <==> p == Unknown
    ensures p != Unknown ==> |name| > 0
  {
    match p
    case RaspberryPi3 => "Raspberry Pi 3"
    case RaspberryPi4 => "Raspberry Pi 4"
    case RaspberryPi5 => "Raspberry Pi 5"
    case RaspberryPiCM4 => "Raspberry Pi Compute Module 4"
    case RaspberryPiZero => "Raspberry Pi Zero"
    case RaspberryPiZero2 => "Raspberry Pi Zero 2"
    case OrangePi => "Orange Pi"
    case BeagleBone => "BeagleBone"
    case JetsonNano => "NVIDIA Jetson Nano"
    case Unknown => "Unknown Platform"
  }

  /** Distinct platforms have distinct names. */
  lemma PlatformNameInjective(p: Platform, q: Platform)
    requires PlatformName(p) == PlatformName(q)
    ensures p == q
  {
  }

  /** `isRaspberryPi`: exactly the six Raspberry Pi variants, the platforms whose name starts with "Raspberry Pi". */
  predicate IsRaspberryPi(p: Platform): (r: bool)
    ensures r ==> IsSupported(p)
    ensures r <==> |PlatformName(p)| >= 12 && PlatformName(p)[..12] == "Raspberry Pi"
  {
    if p in {RaspberryPi3, RaspberryPi4, RaspberryPi5, RaspberryPiCM4, RaspberryPiZero, RaspberryPiZero2} then
      assert PlatformName(p)[..12] == "Raspberry Pi";
      true
    else
      assert PlatformName(p)[0] != 'R';
      false
  }

  /** `isSupported`: any recognised platform, the ones with a name other than "Unknown Platform". */
  predicate IsSupported(p: Platform): (r: bool)
    ensures r <==> PlatformName(p) != "Unknown Platform"
  {
    p != Unknown
  }

  // ---------------------------------------------------------------------------------------
  // Substring search (`std::string::find(t) != npos`)
  // ---------------------------------------------------------------------------------------

  predicate StartsWith(s: string, t: string)
  {
    |t| <= |s| && s[..|t|] == t
  }

  /** `s.find(t) != npos`, scanning s from the left. */
  predicate Contains(s: string, t: string)
    decreases |s|
  {
    StartsWith(s, t) || (|s| > 0 && Contains(s[1..], t))
  }

  /** Reference definition: t is the window of s starting at i. */
  ghost predicate OccursAt(s: string, t: string, i: int)
  {
    0 <= i && i + |t| <= |s| && s[i..i + |t|] == t
  }

  /** The scan finds t exactly when t occurs at some position of s. */
  lemma {:induction false} ContainsIffOccurs(s: string, t: string)
    ensures Contains(s, t) <==> exists i :: OccursAt(s, t, i)
    decreases |s|
  {
    if StartsWith(s, t) {
      assert OccursAt(s, t, 0);
    }
    if |s| > 0 {
      ContainsIffOccurs(s[1..], t);
      if Contains(s[1..], t) {
        var i :| OccursAt(s[1..], t, i);
        assert s[1..][i..i + |t|] == s[i + 1..i + 1 + |t|];
        assert OccursAt(s, t, i + 1);
      }
      if exists i :: OccursAt(s, t, i) {
        var i :| OccursAt(s, t, i);
        if i > 0 {
          assert s[1..][i - 1..i - 1 + |t|] == s[i..i + |t|];
          assert OccursAt(s[1..], t, i - 1);
        } else {
          assert StartsWith(s, t);
        }
      }
    } else if exists i :: OccursAt(s, t, i) {
      var i :| OccursAt(s, t, i);
      assert StartsWith(s, t);
    }
  }

  /** If s contains t, it contains every prefix of t. */
  lemma {:induction false} ContainsPrefix(s: string, t: string, p: string)
    requires Contains(s, t) && StartsWith(t, p)
    ensures Contains(s, p)
    decreases |s|
  {
    if StartsWith(s, t) {
      assert s[..|p|] == t[..|p|];
    } else {
      ContainsPrefix(s[1..], t, p);
    }
  }

  /** `std::remove` of every c followed by `erase`: s without its c characters, order kept. */
  function RemoveAll(s: string, c: char): (r: string)
    ensures c !in r
    ensures |r| <= |s|
    ensures forall x :: x != c ==> multiset(r)[x] == multiset(s)[x]
  {
    if s == [] then []
    else
      assert s == [s[0]] + s[1..];
      (if s[0] == c then [] else [s[0]]) + RemoveAll(s[1..], c)
  }

  /** Removing a character that does not occur changes nothing. */
  lemma {:induction false} RemoveAllAbsent(s: string, c: char)
    requires c !in s
    ensures RemoveAll(s, c) == s
  {
    if s != [] {
      RemoveAllAbsent(s[1..], c);
    }
  }

  /** The device-tree model text with its NUL terminators and newlines removed. */
  function CleanModel(model: string): (m: string)
    ensures '\0' !in m && '\n' !in m
  {
    var withoutNul := RemoveAll(model, '\0');
    assert multiset(RemoveAll(withoutNul, '\n'))['\0'] == multiset(withoutNul)['\0'] == 0;
    RemoveAll(withoutNul, '\n')
  }

  // ---------------------------------------------------------------------------------------
  // Ordered classification tables (reference definitions)
  // ---------------------------------------------------------------------------------------

  /**
   * A classification rule: a list of alternatives, each a list of markers that must all
   * occur; the rule fires when some alternative is fully present.
   */
  datatype Rule = Rule(alternatives: seq<seq<string>>, result: Platform)

  predicate AllPresent(text: string, markers: seq<string>)
  {
    forall j :: 0 <= j < |markers| ==> Contains(text, markers[j])
  }

  predicate Fires(text: string, rule: Rule)
  {
    exists k :: 0 <= k < |rule.alternatives| && AllPresent(text, rule.alternatives[k])
  }

  /** The result of the first rule that fires, or Unknown. */
  function FirstMatch(text: string, rules: seq<Rule>): (p: Platform)
    ensures p == Unknown || exists k :: 0 <= k < |rules| && rules[k].result == p && Fires(text, rules[k])
  {
    if rules == [] then Unknown
    else if Fires(text, rules[0]) then rules[0].result
    else
      var p := FirstMatch(text, rules[1..]);
      assert p != Unknown ==> exists k :: 1 <= k < |rules| && rules[k].result == p && Fires(text, rules[k]) by {
        if p != Unknown {
          var k :| 0 <= k < |rules[1..]| && rules[1..][k].result == p && Fires(text, rules[1..][k]);
          assert rules[k + 1] == rules[1..][k];
        }
      }
      p
  }

  /** A rule with one alternative of one marker fires exactly when that marker occurs. */
  lemma FiresOneMarker(text: string, rule: Rule)
    requires |rule.alternatives| == 1 && |rule.alternatives[0]| == 1
    ensures Fires(text, rule) <==> Contains(text, rule.alternatives[0][0])
  {
    if Contains(text, rule.alternatives[0][0]) {
      assert AllPresent(text, rule.alternatives[0]);
    }
  }

  /** A rule with two one-marker alternatives fires exactly when either marker occurs. */
  lemma FiresEitherMarker(text: string, rule: Rule)
    requires |rule.alternatives| == 2 && |rule.alternatives[0]| == 1 && |rule.alternatives[1]| == 1
    ensures Fires(text, rule) <==> Contains(text, rule.alternatives[0][0]) || Contains(text, rule.alternatives[1][0])
  {
    if Contains(text, rule.alternatives[0][0]) {
      assert AllPresent(text, rule.alternatives[0]);
    }
    if Contains(text, rule.alternatives[1][0]) {
      assert AllPresent(text, rule.alternatives[1]);
    }
  }

  /** A rule with one alternative of two markers fires exactly when both occur. */
  lemma FiresBothMarkers(text: string, rule: Rule)
    requires |rule.alternatives| == 1 && |rule.alternatives[0]| == 2
    ensures Fires(text, rule) <==> Contains(text, rule.alternatives[0][0]) && Contains(text, rule.alternatives[0][1])
  {
    if Contains(text, rule.alternatives[0][0]) && Contains(text, rule.alternatives[0][1]) {
      assert AllPresent(text, rule.alternatives[0]);
    }
  }

  const DEVICE_TREE_RULES: seq<Rule> := [
    Rule([["Raspberry Pi 5"]], RaspberryPi5),
    Rule([["Raspberry Pi 4"]], RaspberryPi4),
    Rule([["Raspberry Pi Compute Module 4"]], RaspberryPiCM4),
    Rule([["Raspberry Pi 3"]], RaspberryPi3),
    Rule([["Raspberry Pi Zero 2"]], RaspberryPiZero2),
    Rule([["Raspberry Pi Zero"]], RaspberryPiZero),
    Rule([["Orange Pi"]], OrangePi),
    Rule([["BeagleBone"], ["TI AM335"]], BeagleBone),
    Rule([["Jetson"]], JetsonNano)
  ]

  const CPUINFO_RULES: seq<Rule> := [
    Rule([["BCM2835"]], RaspberryPiZero),
    Rule([["BCM2836"]], RaspberryPi3),
    Rule([["BCM2837", "Raspberry Pi Zero 2"]], RaspberryPiZero2),
    Rule([["BCM2837"]], RaspberryPi3),
    Rule([["BCM2711", "Compute Module 4"]], RaspberryPiCM4),
    Rule([["BCM2711"]], RaspberryPi4),
    Rule([["BCM2712"]], RaspberryPi5),
    Rule([["Allwinner"], ["sun"]], OrangePi),
    Rule([["AM33XX"], ["AM335"]], BeagleBone),
    Rule([["Tegra"]], JetsonNano)
  ]

  // ---------------------------------------------------------------------------------------
  // Parsers
  // ---------------------------------------------------------------------------------------

  /** `parseDeviceTree`, given the text of /proc/device-tree/model ("" when unreadable). */
  function ParseDeviceTree(model: string): (p: Platform)
    ensures model == [] ==> p == Unknown
  {
    if model == [] then Unknown
    else
      var m := CleanModel(model);
      if Contains(m, "Raspberry Pi 5") then RaspberryPi5
      else if Contains(m, "Raspberry Pi 4") then RaspberryPi4
      else if Contains(m, "Raspberry Pi Compute Module 4") then RaspberryPiCM4
      else if Contains(m, "Raspberry Pi 3") then RaspberryPi3
      else if Contains(m, "Raspberry Pi Zero 2") then RaspberryPiZero2
      else if Contains(m, "Raspberry Pi Zero") then RaspberryPiZero
      else if Contains(m, "Orange Pi") then OrangePi
      else if Contains(m, "BeagleBone") || Contains(m, "TI AM335") then BeagleBone
      else if Contains(m, "Jetson") then JetsonNano
      else Unknown
  }

  /** `parseCPUInfo`, given the text of /proc/cpuinfo ("" when unreadable). */
  function ParseCPUInfo(cpuinfo: string): (p: Platform)
    ensures cpuinfo == [] ==> p == Unknown
  {
    if cpuinfo == [] then Unknown
    else if Contains(cpuinfo, "BCM2835") then RaspberryPiZero
    else if Contains(cpuinfo, "BCM2836") then RaspberryPi3
    else if Contains(cpuinfo, "BCM2837") then
      (if Contains(cpuinfo, "Raspberry Pi Zero 2") then RaspberryPiZero2 else RaspberryPi3)
    else if Contains(cpuinfo, "BCM2711") then
      (if Contains(cpuinfo, "Compute Module 4") then RaspberryPiCM4 else RaspberryPi4)
    else if Contains(cpuinfo, "BCM2712") then RaspberryPi5
    else if Contains(cpuinfo, "Allwinner") || Contains(cpuinfo, "sun") then OrangePi
    else if Contains(cpuinfo, "AM33XX") || Contains(cpuinfo, "AM335") then BeagleBone
    else if Contains(cpuinfo, "Tegra") then JetsonNano
    else Unknown
  }

  /** The Raspberry Pi 5, 4, Compute Module 4 and 3 rules of the device-tree table. */
  lemma DeviceTreeNumberedPiRules(m: string)
    ensures FirstMatch(m, DEVICE_TREE_RULES) ==
      (if Contains(m, "Raspberry Pi 5") then RaspberryPi5
       else if Contains(m, "Raspberry Pi 4") then RaspberryPi4
       else if Contains(m, "Raspberry Pi Compute Module 4") then RaspberryPiCM4
       else if Contains(m, "Raspberry Pi 3") then RaspberryPi3
       else FirstMatch(m, DEVICE_TREE_RULES[4..]))
  {
    var r := DEVICE_TREE_RULES;
    assert FirstMatch(m, r[3..]) == (if Contains(m, "Raspberry Pi 3") then RaspberryPi3 else FirstMatch(m, r[4..])) by {
      FiresOneMarker(m, r[3]);
      assert r[3..][0] == r[3] && r[3..][1..] == r[4..];
    }
    assert FirstMatch(m, r[2..]) == (if Contains(m, "Raspberry Pi Compute Module 4") then RaspberryPiCM4 else FirstMatch(m, r[3..])) by {
      FiresOneMarker(m, r[2]);
      assert r[2..][0] == r[2] && r[2..][1..] == r[3..];
    }
    assert FirstMatch(m, r[1..]) == (if Contains(m, "Raspberry Pi 4") then RaspberryPi4 else FirstMatch(m, r[2..])) by {
      FiresOneMarker(m, r[1]);
      assert r[1..][0] == r[1] && r[1..][1..] == r[2..];
    }
    assert FirstMatch(m, r[0..]) == (if Contains(m, "Raspberry Pi 5") then RaspberryPi5 else FirstMatch(m, r[1..])) by {
      FiresOneMarker(m, r[0]);
      assert r[0..][0] == r[0] && r[0..][1..] == r[1..];
    }
    assert r[0..] == r;
  }

  /** The Raspberry Pi Zero rules of the device-tree table: "Zero 2" is tested before "Zero". */
  lemma DeviceTreeZeroRules(m: string)
    ensures FirstMatch(m, DEVICE_TREE_RULES[4..]) ==
      (if Contains(m, "Raspberry Pi Zero 2") then RaspberryPiZero2
       else if Contains(m, "Raspberry Pi Zero") then RaspberryPiZero
       else FirstMatch(m, DEVICE_TREE_RULES[6..]))
  {
    var r := DEVICE_TREE_RULES;
    assert FirstMatch(m, r[5..]) == (if Contains(m, "Raspberry Pi Zero") then RaspberryPiZero else FirstMatch(m, r[6..])) by {
      FiresOneMarker(m, r[5]);
      assert r[5..][0] == r[5] && r[5..][1..] == r[6..];
    }
    assert FirstMatch(m, r[4..]) == (if Contains(m, "Raspberry Pi Zero 2") then RaspberryPiZero2 else FirstMatch(m, r[5..])) by {
      FiresOneMarker(m, r[4]);
      assert r[4..][0] == r[4] && r[4..][1..] == r[5..];
    }
  }

  /** The other boards of the device-tree table: Orange Pi, BeagleBone, Jetson. */
  lemma DeviceTreeOtherRules(m: string)
    ensures FirstMatch(m, DEVICE_TREE_RULES[6..]) ==
      (if Contains(m, "Orange Pi") then OrangePi
       else if Contains(m, "BeagleBone") || Contains(m, "TI AM335") then BeagleBone
       else if Contains(m, "Jetson") then JetsonNano
       else Unknown)
  {
    var r := DEVICE_TREE_RULES;
    assert FirstMatch(m, r[8..]) == (if Contains(m, "Jetson") then JetsonNano else Unknown) by {
      FiresOneMarker(m, r[8]);
      assert r[8..][0] == r[8] && r[8..][1..] == [];
    }
    assert FirstMatch(m, r[7..]) == (if Contains(m, "BeagleBone") || Contains(m, "TI AM335") then BeagleBone else FirstMatch(m, r[8..])) by {
      FiresEitherMarker(m, r[7]);
      assert r[7..][0] == r[7] && r[7..][1..] == r[8..];
    }
    assert FirstMatch(m, r[6..]) == (if Contains(m, "Orange Pi") then OrangePi else FirstMatch(m, r[7..])) by {
      FiresOneMarker(m, r[6]);
      assert r[6..][0] == r[6] && r[6..][1..] == r[7..];
    }
  }

  /** The device-tree parser is the first-match lookup in its rule table. */
  lemma ParseDeviceTreeFollowsRules(model: string)
    ensures ParseDeviceTree(model) == (if model == [] then Unknown else FirstMatch(CleanModel(model), DEVICE_TREE_RULES))
  {
    if model != [] {
      DeviceTreeNumberedPiRules(CleanModel(model));
      DeviceTreeZeroRules(CleanModel(model));
      DeviceTreeOtherRules(CleanModel(model));
    }
  }

  /** The non-Broadcom part of the cpuinfo table: Allwinner, TI and Tegra markers, in that order. */
  lemma CPUInfoOtherRules(c: string)
    ensures FirstMatch(c, CPUINFO_RULES[7..]) ==
      (if Contains(c, "Allwinner") || Contains(c, "sun") then OrangePi
       else if Contains(c, "AM33XX") || Contains(c, "AM335") then BeagleBone
       else if Contains(c, "Tegra") then JetsonNano
       else Unknown)
  {
    var r := CPUINFO_RULES;
    assert FirstMatch(c, r[9..]) == (if Contains(c, "Tegra") then JetsonNano else Unknown) by {
      FiresOneMarker(c, r[9]);
      assert r[9..][0] == r[9] && r[9..][1..] == [];
    }
    assert FirstMatch(c, r[8..]) == (if Contains(c, "AM33XX") || Contains(c, "AM335") then BeagleBone else FirstMatch(c, r[9..])) by {
      FiresEitherMarker(c, r[8]);
      assert r[8..][0] == r[8] && r[8..][1..] == r[9..];
    }
    assert FirstMatch(c, r[7..]) == (if Contains(c, "Allwinner") || Contains(c, "sun") then OrangePi else FirstMatch(c, r[8..])) by {
      FiresEitherMarker(c, r[7]);
      assert r[7..][0] == r[7] && r[7..][1..] == r[8..];
    }
  }

  /** The BCM2835 to BCM2837 part of the cpuinfo table. */
  lemma CPUInfoEarlyBroadcomRules(c: string)
    ensures FirstMatch(c, CPUINFO_RULES) ==
      (if Contains(c, "BCM2835") then RaspberryPiZero
       else if Contains(c, "BCM2836") then RaspberryPi3
       else if Contains(c, "BCM2837") && Contains(c, "Raspberry Pi Zero 2") then RaspberryPiZero2
       else if Contains(c, "BCM2837") then RaspberryPi3
       else FirstMatch(c, CPUINFO_RULES[4..]))
  {
    var r := CPUINFO_RULES;
    assert FirstMatch(c, r[3..]) == (if Contains(c, "BCM2837") then RaspberryPi3 else FirstMatch(c, r[4..])) by {
      FiresOneMarker(c, r[3]);
      assert r[3..][0] == r[3] && r[3..][1..] == r[4..];
    }
    assert FirstMatch(c, r[2..]) == (if Contains(c, "BCM2837") && Contains(c, "Raspberry Pi Zero 2") then RaspberryPiZero2 else FirstMatch(c, r[3..])) by {
      FiresBothMarkers(c, r[2]);
      assert r[2..][0] == r[2] && r[2..][1..] == r[3..];
    }
    assert FirstMatch(c, r[1..]) == (if Contains(c, "BCM2836") then RaspberryPi3 else FirstMatch(c, r[2..])) by {
      FiresOneMarker(c, r[1]);
      assert r[1..][0] == r[1] && r[1..][1..] == r[2..];
    }
    assert FirstMatch(c, r[0..]) == (if Contains(c, "BCM2835") then RaspberryPiZero else FirstMatch(c, r[1..])) by {
      FiresOneMarker(c, r[0]);
      assert r[0..][0] == r[0] && r[0..][1..] == r[1..];
    }
    assert r[0..] == r;
  }

  /** The BCM2711 and BCM2712 part of the cpuinfo table. */
  lemma CPUInfoLateBroadcomRules(c: string)
    ensures FirstMatch(c, CPUINFO_RULES[4..]) ==
      (if Contains(c, "BCM2711") && Contains(c, "Compute Module 4") then RaspberryPiCM4
       else if Contains(c, "BCM2711") then RaspberryPi4
       else if Contains(c, "BCM2712") then RaspberryPi5
       else FirstMatch(c, CPUINFO_RULES[7..]))
  {
    var r := CPUINFO_RULES;
    assert FirstMatch(c, r[6..]) == (if Contains(c, "BCM2712") then RaspberryPi5 else FirstMatch(c, r[7..])) by {
      FiresOneMarker(c, r[6]);
      assert r[6..][0] == r[6] && r[6..][1..] == r[7..];
    }
    assert FirstMatch(c, r[5..]) == (if Contains(c, "BCM2711") then RaspberryPi4 else FirstMatch(c, r[6..])) by {
      FiresOneMarker(c, r[5]);
      assert r[5..][0] == r[5] && r[5..][1..] == r[6..];
    }
    assert FirstMatch(c, r[4..]) == (if Contains(c, "BCM2711") && Contains(c, "Compute Module 4") then RaspberryPiCM4 else FirstMatch(c, r[5..])) by {
      FiresBothMarkers(c, r[4]);
      assert r[4..][0] == r[4] && r[4..][1..] == r[5..];
    }
  }

  /** The cpuinfo parser is the first-match lookup in its rule table. */
  lemma ParseCPUInfoFollowsRules(cpuinfo: string)
    ensures ParseCPUInfo(cpuinfo) == (if cpuinfo == [] then Unknown else FirstMatch(cpuinfo, CPUINFO_RULES))
  {
    if cpuinfo != [] {
      CPUInfoEarlyBroadcomRules(cpuinfo);
      CPUInfoLateBroadcomRules(cpuinfo);
      CPUInfoOtherRules(cpuinfo);
    }
  }

  /** A Raspberry Pi is only ever recognised from a model text naming a "Raspberry Pi". */
  lemma DeviceTreePiNamesRaspberryPi(model: string)
    requires IsRaspberryPi(ParseDeviceTree(model))
    ensures Contains(CleanModel(model), "Raspberry Pi")
  {
    var m := CleanModel(model);
    var pi := "Raspberry Pi";
    if Contains(m, "Raspberry Pi 5") {
      ContainsPrefix(m, "Raspberry Pi 5", pi);
    } else if Contains(m, "Raspberry Pi 4") {
      ContainsPrefix(m, "Raspberry Pi 4", pi);
    } else if Contains(m, "Raspberry Pi Compute Module 4") {
      ContainsPrefix(m, "Raspberry Pi Compute Module 4", pi);
    } else if Contains(m, "Raspberry Pi 3") {
      ContainsPrefix(m, "Raspberry Pi 3", pi);
    } else if Contains(m, "Raspberry Pi Zero 2") {
      ContainsPrefix(m, "Raspberry Pi Zero 2", pi);
    } else {
      ContainsPrefix(m, "Raspberry Pi Zero", pi);
    }
  }

  /** A Raspberry Pi is only ever recognised from cpuinfo naming a Broadcom "BCM" SoC. */
  lemma CPUInfoPiNamesBroadcom(cpuinfo: string)
    requires IsRaspberryPi(ParseCPUInfo(cpuinfo))
    ensures Contains(cpuinfo, "BCM")
  {
    var bcm := "BCM";
    if Contains(cpuinfo, "BCM2835") {
      ContainsPrefix(cpuinfo, "BCM2835", bcm);
    } else if Contains(cpuinfo, "BCM2836") {
      ContainsPrefix(cpuinfo, "BCM2836", bcm);
    } else if Contains(cpuinfo, "BCM2837") {
      ContainsPrefix(cpuinfo, "BCM2837", bcm);
    } else if Contains(cpuinfo, "BCM2711") {
      ContainsPrefix(cpuinfo, "BCM2711", bcm);
    } else {
      ContainsPrefix(cpuinfo, "BCM2712", bcm);
    }
  }

  /** `detectPlatform`: the device-tree answer, and cpuinfo only when that answer is UNKNOWN. */
  function DetectedPlatform(model: string, cpuinfo: string): (p: Platform)
    ensures ParseDeviceTree(model) != Unknown ==> p == ParseDeviceTree(model)
    ensures ParseDeviceTree(model) == Unknown ==> p == ParseCPUInfo(cpuinfo)
    ensures p == Unknown <==> ParseDeviceTree(model) == Unknown && ParseCPUInfo(cpuinfo) == Unknown
  {
    var fromModel := ParseDeviceTree(model);
    if fromModel == Unknown then ParseCPUInfo(cpuinfo) else fromModel
  }

  /** `getPeripheralBase`, a uint32_t: the Pi 5 address is truncated to its low 32 bits. */
  function PeripheralBase(p: Platform): (base: int)
    ensures 0 <= base < UINT32_MODULUS
    ensures base != 0 <==> p in {RaspberryPiZero, RaspberryPi3, RaspberryPiZero2, RaspberryPi4, RaspberryPiCM4}
    ensures base != 0 ==> IsRaspberryPi(p)
  {
    match p
    case RaspberryPiZero | RaspberryPi3 | RaspberryPiZero2 => BCM2835_BASE
    case RaspberryPi4 | RaspberryPiCM4 => BCM2711_BASE
    case RaspberryPi5 => BCM2712_BASE_64 % UINT32_MODULUS
    case _ => 0
  }

  // ---------------------------------------------------------------------------------------
  // Default chip and bus
  // ---------------------------------------------------------------------------------------

  /** The index of the first true flag, or |flags| when there is none. */
  function FirstTrue(flags: seq<bool>): (i: nat)
    ensures i <= |flags|
    ensures i < |flags| ==> flags[i]
    ensures forall j :: 0 <= j < i ==> !flags[j]
  {
    if flags == [] then 0
    else if flags[0] then 0
    else 1 + FirstTrue(flags[1..])
  }

  /** The `available` flag of every found chip or bus, in order. */
  function Availability<T>(items: seq<T>, available: T -> bool): (flags: seq<bool>)
    ensures |flags| == |items| && forall k :: 0 <= k < |items| ==> flags[k] == available(items[k])
  {
    seq(|items|, k requires 0 <= k < |items| => available(items[k]))
  }

  /** `getDefaultGPIOChip`: "gpiochip0" when no chip was found, else the first available chip, else the first chip. */
  function DefaultGPIOChip(chips: seq<GpioChipInfo>): (name: string)
    ensures chips == [] ==> name == "gpiochip0"
    ensures (exists i :: 0 <= i < |chips| && chips[i].available) ==>
      exists i :: 0 <= i < |chips| && chips[i].available && name == chips[i].name
                  && forall j :: 0 <= j < i ==> !chips[j].available
    ensures chips != [] && (forall i :: 0 <= i < |chips| ==> !chips[i].available) ==> name == chips[0].name
  {
    if chips == [] then "gpiochip0"
    else
      var i := FirstTrue(Availability(chips, (c: GpioChipInfo) => c.available));
      if i < |chips| then chips[i].name else chips[0].name
  }

  /** Some found bus is number 20 and accessible. */
  predicate HasAvailableBus20(buses: seq<I2CBusInfo>)
  {
    exists i :: 0 <= i < |buses| && buses[i].busNumber == 20 && buses[i].available
  }

  /**
   * `getDefaultI2CBus`: 1 when no bus was found; on a Pi 5, 20 if an accessible bus 20
   * exists; otherwise the first accessible bus, else the first bus.
   */
  function DefaultI2CBus(p: Platform, buses: seq<I2CBusInfo>): (bus: int)
    ensures buses == [] ==> bus == 1
    ensures buses != [] && p == RaspberryPi5 && HasAvailableBus20(buses) ==> bus == 20
    ensures buses != [] && !(p == RaspberryPi5 && HasAvailableBus20(buses))
            && (exists i :: 0 <= i < |buses| && buses[i].available) ==>
      exists i :: 0 <= i < |buses| && buses[i].available && bus == buses[i].busNumber
                  && forall j :: 0 <= j < i ==> !buses[j].available
    ensures buses != [] && (forall i :: 0 <= i < |buses| ==> !buses[i].available) ==> bus == buses[0].busNumber
  {
    if buses == [] then 1
    else if p == RaspberryPi5 && HasAvailableBus20(buses) then 20
    else
      var i := FirstTrue(Availability(buses, (b: I2CBusInfo) => b.available));
      if i < |buses| then buses[i].busNumber else buses[0].busNumber
  }

  /** The GPIO line total over a list of chips. */
  function SumLines(chips: seq<GpioChipInfo>): (total: int)
    ensures chips == [] ==> total == 0
    ensures (forall k :: 0 <= k < |chips| ==> chips[k].numLines >= 0) ==> total >= 0
  {
    if chips == [] then 0 else SumLines(chips[..|chips| - 1]) + chips[|chips| - 1].numLines
  }

  /** Chips with non-negative line counts give a non-negative total, at least each chip's own. */
  lemma {:induction false} SumLinesBounds(chips: seq<GpioChipInfo>)
    requires forall k :: 0 <= k < |chips| ==> chips[k].numLines >= 0
    ensures SumLines(chips) >= 0
    ensures forall k :: 0 <= k < |chips| ==> SumLines(chips) >= chips[k].numLines
  {
    if chips != [] {
      var init := chips[..|chips| - 1];
      SumLinesBounds(init);
      assert forall k :: 0 <= k < |init| ==> chips[k] == init[k];
    }
  }

  class PlatformInfo {
    var platform: Platform
    var gpioChips: seq<GpioChipInfo>
    var i2cBuses: seq<I2CBusInfo>
    var totalGPIOPins: int
    var hasDMASupport: bool
    var peripheralBase: int

    /** The capability record is coherent: the total matches the chips, DMA matches the base. */
    ghost predicate Valid()
      reads this
    {
      totalGPIOPins == SumLines(gpioChips)
      && (hasDMASupport <==> peripheralBase != 0)
      && 0 <= peripheralBase < UINT32_MODULUS
    }

    /** The singleton's constructor: detect the platform, then the capabilities. */
    constructor (model: string, cpuinfo: string, chips: seq<GpioChipInfo>, buses: seq<I2CBusInfo>, devMemExists: bool)
      ensures Valid()
      ensures platform == DetectedPlatform(model, cpuinfo)
      ensures gpioChips == chips && i2cBuses == buses
      ensures peripheralBase == (if IsRaspberryPi(platform) && devMemExists then PeripheralBase(platform) else 0)
    {
      platform := Unknown;
      gpioChips := [];
      i2cBuses := [];
      totalGPIOPins := 0;
      hasDMASupport := false;
      peripheralBase := 0;
      new;
      DetectPlatform(model, cpuinfo);
      DetectCapabilities(chips, buses, devMemExists);
    }

    /** `detectPlatform`. */
    method DetectPlatform(model: string, cpuinfo: string)
      modifies this`platform
      ensures platform == DetectedPlatform(model, cpuinfo)
    {
      platform := ParseDeviceTree(model);
      if platform == Unknown {
        platform := ParseCPUInfo(cpuinfo);
      }
    }

    /** `detectDMASupport`: only a Raspberry Pi with /dev/mem gets a base; DMA iff that base is nonzero. */
    method DetectDMASupport(devMemExists: bool)
      modifies this`hasDMASupport, this`peripheralBase
      ensures peripheralBase == (if IsRaspberryPi(platform) && devMemExists then PeripheralBase(platform) else 0)
      ensures hasDMASupport <==> peripheralBase != 0
      ensures hasDMASupport ==> IsRaspberryPi(platform) && devMemExists
    {
      hasDMASupport := false;
      peripheralBase := 0;
      if !IsRaspberryPi(platform) {
        return;
      }
      if !devMemExists {
        return;
      }
      peripheralBase := PeripheralBase(platform);
      hasDMASupport := peripheralBase != 0;
    }

    /** `detectCapabilities`: record the chips and buses found, DMA support, and the line total. */
    method DetectCapabilities(chips: seq<GpioChipInfo>, buses: seq<I2CBusInfo>, devMemExists: bool)
      modifies this`gpioChips, this`i2cBuses, this`hasDMASupport, this`peripheralBase, this`totalGPIOPins
      ensures Valid()
      ensures gpioChips == chips && i2cBuses == buses
      ensures peripheralBase == (if IsRaspberryPi(platform) && devMemExists then PeripheralBase(platform) else 0)
    {
      gpioChips := chips;
      i2cBuses := buses;
      DetectDMASupport(devMemExists);
      var total := 0;
      var i := 0;
      while i < |chips|
        invariant 0 <= i <= |chips|
        invariant total == SumLines(chips[..i])
      {
        assert chips[..i + 1][..i] == chips[..i];
        total := total + chips[i].numLines;
        i := i + 1;
      }
      assert chips[..i] == chips;
      totalGPIOPins := total;
    }

    /** `refresh`: forget everything and detect again. */
    method Refresh(model: string, cpuinfo: string, chips: seq<GpioChipInfo>, buses: seq<I2CBusInfo>, devMemExists: bool)
      modifies this
      ensures Valid()
      ensures platform == DetectedPlatform(model, cpuinfo)
      ensures gpioChips == chips && i2cBuses == buses
      ensures peripheralBase == (if IsRaspberryPi(platform) && devMemExists then PeripheralBase(platform) else 0)
    {
      platform := Unknown;
      gpioChips := [];
      i2cBuses := [];
      totalGPIOPins := 0;
      hasDMASupport := false;
      peripheralBase := 0;
      DetectPlatform(model, cpuinfo);
      DetectCapabilities(chips, buses, devMemExists);
    }

    function GetPlatformName(): (name: string)
      reads this
      ensures name == "Unknown Platform" <==> !IsSupported(platform)
    {
      PlatformName(platform)
    }

    function GetDefaultGPIOChip(): (name: string)
      reads this
      ensures gpioChips == [] ==> name == "gpiochip0"
      ensures gpioChips != [] ==> exists i :: 0 <= i < |gpioChips| && name == gpioChips[i].name
    {
      DefaultGPIOChip(gpioChips)
    }

    function GetDefaultI2CBus(): (bus: int)
      reads this
      ensures i2cBuses == [] ==> bus == 1
      ensures i2cBuses != [] ==> exists i :: 0 <= i < |i2cBuses| && bus == i2cBuses[i].busNumber
    {
      DefaultI2CBus(platform, i2cBuses)
    }
  }
}

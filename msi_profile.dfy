/**
 * Importing an MSI Afterburner profile: the hand-written INI section
 * splitter, the `key=value` lookup, the field map with its unit
 * conversions, the profile built from one section and the per-section
 * summary rows. The file itself is an optional text (absent when the file
 * does not exist); finding Afterburner's directory and the command line
 * are not modelled.
 */
module MsiProfile {
  import opened Wrappers
  import opened Text

  // ---------------------------------------------------------------------
  // Sections: an insertion-ordered dict from name to raw body
  // ---------------------------------------------------------------------

  /** One section: its name and its raw body. */
  type Section = (string, string)

  /** The keys of an ordered dict (sections or a profile), in insertion order. */
  function Keys<V>(p: seq<(string, V)>): (r: seq<string>)
    ensures |r| == |p| && forall i :: 0 <= i < |p| ==> r[i] == p[i].0
  {
    if p == [] then [] else [p[0].0] + Keys(p[1..])
  }

  predicate DistinctNames(secs: seq<Section>) {
    forall i, j :: 0 <= i < j < |secs| ==> secs[i].0 != secs[j].0
  }

  /** `sections.get(name)`. */
  function Lookup(secs: seq<Section>, name: string): Option<string> {
    if secs == [] then None
    else if secs[0].0 == name then Some(secs[0].1)
    else Lookup(secs[1..], name)
  }

  /** A name is found exactly when it is one of the section names. */
  lemma {:induction false} LookupFindsNames(secs: seq<Section>, name: string)
    ensures Lookup(secs, name).Some? <==> name in Keys(secs)
  {
    if secs != [] {
      LookupFindsNames(secs[1..], name);
      assert Keys(secs) == [secs[0].0] + Keys(secs[1..]);
    }
  }

  /**
   * `sections[name] = body`: a new name goes at the end, an existing one
   * keeps its position and gets the new body.
   */
  function Assign(secs: seq<Section>, name: string, body: string): (r: seq<Section>)
    ensures Lookup(r, name) == Some(body)
    ensures forall n :: n != name ==> Lookup(r, n) == Lookup(secs, n)
    ensures Keys(r) == if name in Keys(secs) then Keys(secs) else Keys(secs) + [name]
  {
    if secs == [] then [(name, body)]
    else if secs[0].0 == name then [(name, body)] + secs[1..]
    else
      var rest := Assign(secs[1..], name, body);
      assert Keys(secs) == [secs[0].0] + Keys(secs[1..]);
      assert ([secs[0]] + rest)[1..] == rest;
      [secs[0]] + rest
  }

  /** Assigning keeps the names of a dict distinct. */
  lemma AssignKeepsDistinct(secs: seq<Section>, name: string, body: string)
    requires DistinctNames(secs)
    ensures DistinctNames(Assign(secs, name, body))
  {
    var r := Assign(secs, name, body);
    var nr := Keys(r);
    forall i, j | 0 <= i < j < |r|
      ensures r[i].0 != r[j].0
    {
      assert nr[i] == r[i].0 && nr[j] == r[j].0;
      if j == |secs| {
        assert name !in Keys(secs);
        assert nr[i] == Keys(secs)[i];
      } else {
        assert nr[i] == Keys(secs)[i] && nr[j] == Keys(secs)[j];
      }
    }
  }

  // ---------------------------------------------------------------------
  // _parse_sections
  // ---------------------------------------------------------------------

  /** A stripped line of the form `[X]`. */
  predicate IsHeader(stripped: string) {
    StartsWith(stripped, "[") && EndsWith(stripped, "]")
  }

  function HeaderName(stripped: string): string
    requires IsHeader(stripped)
  {
    assert stripped[0] == '[' && stripped[|stripped| - 1] == ']';
    stripped[1..|stripped| - 1]
  }

  predicate NoHeaders(lines: seq<string>) {
    forall i :: 0 <= i < |lines| ==> !IsHeader(Strip(lines[i]))
  }

  /** The splitter's variables: the sections so far, the open section and its lines. */
  datatype Splitter = Splitter(sections: seq<Section>, current: Option<string>, lines: seq<string>)

  const START: Splitter := Splitter([], None, [])

  /** Store the open section's body, if a section is open. */
  function Flush(p: Splitter): seq<Section> {
    if p.current.Some? then Assign(p.sections, p.current.value, Join("\n", p.lines)) else p.sections
  }

  /** One iteration of the loop over the lines. */
  function Step(p: Splitter, line: string): Splitter {
    var stripped := Strip(line);
    if IsHeader(stripped) then Splitter(Flush(p), Some(HeaderName(stripped)), [])
    else p.(lines := p.lines + [line])
  }

  function Feed(p: Splitter, lines: seq<string>): Splitter
    decreases |lines|
  {
    if lines == [] then p else Feed(Step(p, lines[0]), lines[1..])
  }

  /** `_parse_sections` over the lines of the text. */
  function SectionsOfLines(lines: seq<string>): seq<Section> {
    Flush(Feed(START, lines))
  }

  function SectionsOf(text: string): seq<Section> {
    SectionsOfLines(SplitLines(text))
  }

  lemma {:induction false} FeedAppend(p: Splitter, xs: seq<string>, ys: seq<string>)
    ensures Feed(p, xs + ys) == Feed(Feed(p, xs), ys)
    decreases |xs|
  {
    if xs == [] {
      assert xs + ys == ys;
    } else {
      var zs := xs + ys;
      assert zs[0] == xs[0] && zs[1..] == xs[1..] + ys;
      assert Feed(p, zs) == Feed(Step(p, xs[0]), zs[1..]);
      FeedAppend(Step(p, xs[0]), xs[1..], ys);
    }
  }

  /** A line that is not a header is appended, unstripped, to the open section. */
  lemma StepBody(p: Splitter, line: string)
    requires !IsHeader(Strip(line))
    ensures Step(p, line) == p.(lines := p.lines + [line])
  {
  }

  lemma NoHeadersTail(body: seq<string>)
    requires body != [] && NoHeaders(body)
    ensures NoHeaders(body[1..])
  {
    forall i | 0 <= i < |body[1..]| ensures !IsHeader(Strip(body[1..][i])) {
      assert body[1..][i] == body[i + 1];
    }
  }

  /** Lines that are not headers are collected, unstripped, into the open section. */
  lemma {:induction false} FeedBody(p: Splitter, body: seq<string>)
    requires NoHeaders(body)
    ensures Feed(p, body) == p.(lines := p.lines + body)
    decreases |body|
  {
    if body != [] {
      var q := p.(lines := p.lines + [body[0]]);
      assert Feed(p, body) == Feed(q, body[1..]) by {
        assert !IsHeader(Strip(body[0]));
        StepBody(p, body[0]);
      }
      assert NoHeaders(body[1..]) by { NoHeadersTail(body); }
      FeedBody(q, body[1..]);
      AppendHead(p.lines, body);
    }
  }

  /** Appending the head of `ys`, then its tail, appends `ys`. */
  lemma AppendHead<T>(xs: seq<T>, ys: seq<T>)
    requires ys != []
    ensures xs + [ys[0]] + ys[1..] == xs + ys
  {
    assert ys == [ys[0]] + ys[1..];
  }

  lemma {:induction false} FeedKeepsDistinct(p: Splitter, lines: seq<string>)
    requires DistinctNames(p.sections)
    ensures DistinctNames(Feed(p, lines).sections)
    decreases |lines|
  {
    if lines != [] {
      var q := Step(p, lines[0]);
      if p.current.Some? {
        AssignKeepsDistinct(p.sections, p.current.value, Join("\n", p.lines));
      }
      FeedKeepsDistinct(q, lines[1..]);
    }
  }

  /** The result is a dict: no section name appears twice. */
  lemma SectionNamesDistinct(text: string)
    ensures DistinctNames(SectionsOf(text))
  {
    var p := Feed(START, SplitLines(text));
    FeedKeepsDistinct(START, SplitLines(text));
    if p.current.Some? {
      AssignKeepsDistinct(p.sections, p.current.value, Join("\n", p.lines));
    }
  }

  /** Text with no header line has no sections: lines before the first header are dropped. */
  lemma NoHeaderNoSections(lines: seq<string>)
    requires NoHeaders(lines)
    ensures SectionsOfLines(lines) == []
  {
    FeedBody(START, lines);
  }

  /**
   * A header followed by non-header lines stores those lines, unstripped
   * and joined by "\n", as that section's body, on top of whatever the
   * earlier lines produced; a repeated name therefore keeps its last body.
   */
  lemma HeaderThenBody(pre: seq<string>, header: string, body: seq<string>)
    requires IsHeader(Strip(header)) && NoHeaders(body)
    ensures SectionsOfLines(pre + [header] + body)
         == Assign(SectionsOfLines(pre), HeaderName(Strip(header)), Join("\n", body))
  {
    var q := Feed(START, pre);
    var s1 := Splitter(Flush(q), Some(HeaderName(Strip(header))), []);
    assert Step(q, header) == s1;
    FeedAppend(START, pre, [header]);
    assert Feed(q, [header]) == Feed(s1, []);
    FeedAppend(START, pre + [header], body);
    FeedBody(s1, body);
    assert [] + body == body;
    assert Feed(START, pre + [header] + body) == s1.(lines := body);
  }

  /** `_parse_sections(text)`. */
  method ParseSections(text: string) returns (sections: seq<Section>)
    ensures sections == SectionsOf(text)
  {
    var all := SplitLines(text);
    sections := [];
    var current: Option<string> := None;
    var lines: seq<string> := [];
    var i := 0;
    while i < |all|
      invariant 0 <= i <= |all|
      invariant Splitter(sections, current, lines) == Feed(START, all[..i])
    {
      var line := all[i];
      var stripped := Strip(line);
      if StartsWith(stripped, "[") && EndsWith(stripped, "]") {
        if current.Some? {
          sections := Assign(sections, current.value, Join("\n", lines));
        }
        current := Some(HeaderName(stripped));
        lines := [];
      } else {
        lines := lines + [line];
      }
      FeedAppend(START, all[..i], [line]);
      assert all[..i + 1] == all[..i] + [line];
      i := i + 1;
    }
    assert all[..i] == all;
    if current.Some? {
      sections := Assign(sections, current.value, Join("\n", lines));
    }
  }

  // ---------------------------------------------------------------------
  // _get_value
  // ---------------------------------------------------------------------

  /** A line whose stripped form starts with `key=`. */
  predicate KeyLine(line: string, key: string) {
    StartsWith(Strip(line), key + "=")
  }

  /** `line.split("=", 1)[1]`: the text after the first '='. */
  function AfterEq(line: string): (r: string)
    ensures |r| <= |line|
  {
    if line == [] then []
    else if line[0] == '=' then line[1..]
    else AfterEq(line[1..])
  }

  /** Non-empty text with no whitespace at either end. */
  predicate Trimmed(v: string) {
    v != [] && !IsSpace(v[0]) && !IsSpace(v[|v| - 1])
  }

  /** The stripped text after '=', None when it is empty. */
  function ValueIn(line: string): (r: Option<string>)
    ensures r.Some? ==> Trimmed(r.value)
  {
    var v := Strip(AfterEq(line));
    if v == [] then None else Some(v)
  }

  function FirstValue(lines: seq<string>, key: string): (r: Option<string>)
    ensures r.Some? ==> Trimmed(r.value)
  {
    if lines == [] then None
    else if KeyLine(lines[0], key) then ValueIn(lines[0])
    else FirstValue(lines[1..], key)
  }

  /** `_get_value(block, key)`. */
  function ValueOf(block: string, key: string): Option<string> {
    FirstValue(SplitLines(block), key)
  }

  /**
   * The first line that starts with `key=` decides: its value, or None if
   * that value is empty, whatever later lines say.
   */
  lemma {:induction false} FirstKeyLineDecides(lines: seq<string>, key: string, i: nat)
    requires i < |lines| && KeyLine(lines[i], key)
    requires forall j :: 0 <= j < i ==> !KeyLine(lines[j], key)
    ensures FirstValue(lines, key) == ValueIn(lines[i])
  {
    if i > 0 {
      FirstKeyLineDecides(lines[1..], key, i - 1);
    }
  }

  /** Without a line starting with `key=` the value is None. */
  lemma {:induction false} NoKeyLineNone(lines: seq<string>, key: string)
    requires forall j :: 0 <= j < |lines| ==> !KeyLine(lines[j], key)
    ensures FirstValue(lines, key) == None
  {
    if lines != [] {
      NoKeyLineNone(lines[1..], key);
    }
  }

  method GetValue(block: string, key: string) returns (r: Option<string>)
    ensures r == ValueOf(block, key)
  {
    var all := SplitLines(block);
    var i := 0;
    while i < |all|
      invariant 0 <= i <= |all|
      invariant FirstValue(all[i..], key) == FirstValue(all, key)
    {
      assert all[i..][1..] == all[i + 1..];
      var line := all[i];
      if StartsWith(Strip(line), key + "=") {
        var v := Strip(AfterEq(line));
        return if v == [] then None else Some(v);
      }
      i := i + 1;
    }
    return None;
  }

  // ---------------------------------------------------------------------
  // _FIELD_MAP and extract_profile
  // ---------------------------------------------------------------------

  /** A profile value. */
  datatype PValue = PStr(s: string) | PInt(n: int) | PBool(b: bool)

  /** The profile dict, in insertion order. */
  type Profile = seq<(string, PValue)>

  /** An Afterburner key, the profile key it maps to, and whether kHz become MHz. */
  datatype FieldRule = FieldRule(abKey: string, ourKey: string, khzToMhz: bool)

  const FIELD_MAP: seq<FieldRule> := [
    FieldRule("CoreClkBoost", "core_offset_mhz", true),
    FieldRule("MemClkBoost", "mem_offset_mhz", true),
    FieldRule("PowerLimit", "power_pct", false),
    FieldRule("ThermalLimit", "thermal_c", false),
    FieldRule("FanSpeed", "fan_pct", false)
  ]

  /**
   * The conversion of one raw value: `int(v) // 1000` for the clock
   * boosts (rounding down, also for negative offsets), `int(v)` otherwise;
   * None where `int()` raises.
   */
  function Convert(rule: FieldRule, raw: string): (r: Option<int>)
    ensures r.Some? <==> ParseInt(raw).Some?
    ensures r.Some? && rule.khzToMhz ==>
      r.value * 1000 <= ParseInt(raw).value < r.value * 1000 + 1000
    ensures r.Some? && !rule.khzToMhz ==> r.value == ParseInt(raw).value
  {
    match ParseInt(raw)
    case None => None
    case Some(v) => Some(if rule.khzToMhz then v / 1000 else v)
  }

  /** What one rule adds: nothing when the key is absent, empty or unparseable. */
  function MappedOne(block: string, rule: FieldRule): (r: Profile)
    ensures |r| <= 1
    ensures r != [] ==> r[0].0 == rule.ourKey && r[0].1.PInt?
  {
    match ValueOf(block, rule.abKey)
    case None => []
    case Some(raw) =>
      match Convert(rule, raw)
      case None => []
      case Some(v) => [(rule.ourKey, PInt(v))]
  }

  function Mapped(block: string, rules: seq<FieldRule>): Profile {
    if rules == [] then [] else Mapped(block, rules[..|rules| - 1]) + MappedOne(block, rules[|rules| - 1])
  }

  function HeaderKeys(): seq<string> {
    ["kingai_gpu_profile", "imported_from", "imported_at", "source_file", "source_section"]
  }

  /** The five keys every imported profile starts with. */
  function Header(importedAt: string, fileName: string, section: string): (r: Profile)
    ensures Keys(r) == HeaderKeys()
  {
    [("kingai_gpu_profile", PStr("1.0")),
     ("imported_from", PStr("msi_afterburner")),
     ("imported_at", PStr(importedAt)),
     ("source_file", PStr(fileName)),
     ("source_section", PStr(section))]
  }

  /** `profile.pop(key, None)`. */
  function Pop(p: Profile, key: string): (r: Profile)
    ensures |r| <= |p|
  {
    if p == [] then []
    else if p[0].0 == key then Pop(p[1..], key)
    else [p[0]] + Pop(p[1..], key)
  }

  /** `Pop` removes exactly `key`: every other key stays and none is added. */
  lemma {:induction false} PopKeys(p: Profile, key: string)
    ensures key !in Keys(Pop(p, key))
    ensures forall k :: k != key && k in Keys(p) ==> k in Keys(Pop(p, key))
    ensures forall k :: k in Keys(Pop(p, key)) ==> k in Keys(p)
  {
    if p != [] {
      PopKeys(p[1..], key);
      KeysAppend([p[0]], p[1..]);
      assert p == [p[0]] + p[1..];
      if p[0].0 != key {
        KeysAppend([p[0]], Pop(p[1..], key));
      }
    }
  }

  const VOLTAGE_NOTE: string := "Voltage offset not applied (not yet supported)"

  /** The errors an import raises. */
  datatype ImportError =
    | FileNotFound(fileName: string)                         // FileNotFoundError
    | SectionNotFound(section: string, available: seq<string>)  // KeyError naming the sections on offer
    | ValueError(text: string)                               // int() refused a value

  /** The sections offered to the user: all but Defaults and Settings, in file order. */
  function Offered(names: seq<string>): (r: seq<string>)
    ensures forall n :: n in r <==> n in names && n != "Defaults" && n != "Settings"
  {
    if names == [] then []
    else if names[0] == "Defaults" || names[0] == "Settings" then Offered(names[1..])
    else [names[0]] + Offered(names[1..])
  }

  /** The fan mode adjustment: `FanMode=0` drops `fan_pct` and sets `fan_auto`. */
  function FanAdjusted(p: Profile, block: string): Profile {
    if ValueOf(block, "FanMode") == Some("0") then Pop(p, "fan_pct") + [("fan_auto", PBool(true))] else p
  }

  /** The voltage boost note; `int()` on a non-integer boost raises. */
  function WithVoltage(p: Profile, block: string): Result<Profile, ImportError> {
    match ValueOf(block, "CoreVoltageBoost")
    case None => Success(p)
    case Some(v) =>
      match ParseInt(v)
      case None => Failure(ValueError(v))
      case Some(mv) =>
        if mv != 0 then Success(p + [("_voltage_boost_mv", PInt(mv)), ("_note_voltage", PStr(VOLTAGE_NOTE))])
        else Success(p)
  }

  /** The profile built from one section body. */
  function ProfileOf(block: string, importedAt: string, fileName: string, section: string): Result<Profile, ImportError> {
    WithVoltage(FanAdjusted(Header(importedAt, fileName, section) + Mapped(block, FIELD_MAP), block), block)
  }

  /** `extract_profile(path, section)`, with the file's text (None when it does not exist). */
  function Extract(file: Option<string>, fileName: string, section: string, importedAt: string)
    : Result<Profile, ImportError>
  {
    if file.None? then Failure(FileNotFound(fileName))
    else
      var secs := SectionsOf(file.value);
      match Lookup(secs, section)
      case None => Failure(SectionNotFound(section, Offered(Keys(secs))))
      case Some(block) => ProfileOf(block, importedAt, fileName, section)
  }

  lemma {:induction false} KeysAppend<V>(a: seq<(string, V)>, b: seq<(string, V)>)
    ensures Keys(a + b) == Keys(a) + Keys(b)
  {
  }

  /** Every key a mapped field can have: a target of the rules. */
  lemma {:induction false} MappedKeys(block: string, rules: seq<FieldRule>)
    ensures forall k :: k in Keys(Mapped(block, rules)) ==> exists i :: 0 <= i < |rules| && rules[i].ourKey == k
    decreases |rules|
  {
    if rules != [] {
      var init := rules[..|rules| - 1];
      var last := rules[|rules| - 1];
      MappedKeys(block, init);
      KeysAppend(Mapped(block, init), MappedOne(block, last));
      forall k | k in Keys(Mapped(block, rules))
        ensures exists i :: 0 <= i < |rules| && rules[i].ourKey == k
      {
        if k in Keys(Mapped(block, init)) {
          var i :| 0 <= i < |init| && init[i].ourKey == k;
          assert rules[i].ourKey == k;
        } else {
          assert k in Keys(MappedOne(block, last));
          assert rules[|rules| - 1].ourKey == k;
        }
      }
    }
  }

  /** Every key an imported profile may hold. */
  const PROFILE_KEYS: seq<string> := HeaderKeys() + [
    "core_offset_mhz", "mem_offset_mhz", "power_pct", "thermal_c", "fan_pct",
    "fan_auto", "_voltage_boost_mv", "_note_voltage"]

  /** The field-map targets are listed, in order, right after the header keys. */
  lemma FieldTargetsListed()
    ensures forall i :: 0 <= i < |FIELD_MAP| ==> PROFILE_KEYS[5 + i] == FIELD_MAP[i].ourKey
  {
    assert PROFILE_KEYS[5..10] == ["core_offset_mhz", "mem_offset_mhz", "power_pct", "thermal_c", "fan_pct"];
  }

  /** Starts with the five header keys and holds no key outside `PROFILE_KEYS`. */
  predicate WellShaped(p: Profile) {
    |p| >= 5 && Keys(p)[..5] == HeaderKeys() && forall k :: k in Keys(p) ==> k in PROFILE_KEYS
  }

  /** The keys before the fan and voltage adjustments. */
  lemma MappedProfileKeys(block: string, importedAt: string, fileName: string, section: string)
    ensures var p := Header(importedAt, fileName, section) + Mapped(block, FIELD_MAP);
      |p| >= 5 && Keys(p)[..5] == HeaderKeys() && forall k :: k in Keys(p) ==> k in PROFILE_KEYS
  {
    var h := Header(importedAt, fileName, section);
    var m := Mapped(block, FIELD_MAP);
    MappedKeys(block, FIELD_MAP);
    FieldTargetsListed();
    KeysAppend(h, m);
    forall k | k in Keys(m) ensures k in PROFILE_KEYS {
      var i :| 0 <= i < |FIELD_MAP| && FIELD_MAP[i].ourKey == k;
      assert PROFILE_KEYS[5 + i] == k;
    }
    assert (Keys(h) + Keys(m))[..5] == Keys(h);
  }

  /** Popping `fan_pct` keeps the header in front and adds no key. */
  lemma PopFanShape(p: Profile)
    requires WellShaped(p)
    ensures WellShaped(Pop(p, "fan_pct"))
  {
    var popped := Pop(p, "fan_pct");
    PopKeys(p, "fan_pct");
    forall i | 0 <= i < 5 ensures p[i].0 != "fan_pct" {
      assert p[i].0 == Keys(p)[..5][i] == HeaderKeys()[i];
      assert |HeaderKeys()[i]| != |"fan_pct"|;
    }
    PopPrefix(p, "fan_pct", 5);
    assert Keys(popped)[..5] == Keys(p)[..5] by {
      forall i | 0 <= i < 5 ensures Keys(popped)[i] == Keys(p)[i] {
        assert popped[..5][i] == p[..5][i];
      }
    }
  }

  /** `FanMode=0` swaps `fan_pct` for `fan_auto` and leaves the header in front. */
  lemma FanAdjustedShape(p: Profile, block: string)
    requires WellShaped(p)
    ensures WellShaped(FanAdjusted(p, block))
  {
    if ValueOf(block, "FanMode") == Some("0") {
      var f := FanAdjusted(p, block);
      var popped := Pop(p, "fan_pct");
      PopFanShape(p);
      KeysAppend(popped, [("fan_auto", PBool(true))]);
      assert PROFILE_KEYS[10] == "fan_auto";
      assert Keys(f)[..5] == Keys(popped)[..5] by {
        forall i | 0 <= i < 5 ensures Keys(f)[i] == Keys(popped)[i] { }
      }
    }
  }

  /** The voltage note only appends: the profile so far is kept as a prefix, and only the two note keys are new. */
  lemma WithVoltageExtends(p: Profile, block: string)
    ensures var r := WithVoltage(p, block);
      r.Success? ==>
        && |r.value| >= |p| && r.value[..|p|] == p
        && forall k :: k in Keys(r.value) ==> k in Keys(p) || k == "_voltage_boost_mv" || k == "_note_voltage"
  {
    var r := WithVoltage(p, block);
    if r.Success? && r.value != p {
      var mv := ParseInt(ValueOf(block, "CoreVoltageBoost").value).value;
      var extra := [("_voltage_boost_mv", PInt(mv)), ("_note_voltage", PStr(VOLTAGE_NOTE))];
      assert r.value == p + extra;
      KeysAppend(p, extra);
    }
  }

  lemma WithVoltageShape(p: Profile, block: string)
    requires WellShaped(p)
    ensures WithVoltage(p, block).Success? ==> WellShaped(WithVoltage(p, block).value)
  {
    var r := WithVoltage(p, block);
    WithVoltageExtends(p, block);
    if r.Success? {
      assert PROFILE_KEYS[11] == "_voltage_boost_mv" && PROFILE_KEYS[12] == "_note_voltage";
      assert Keys(r.value)[..5] == Keys(p)[..5] by {
        forall i | 0 <= i < 5 ensures Keys(r.value)[i] == Keys(p)[i] {
          assert r.value[..|p|][i] == p[i];
        }
      }
    }
  }

  /**
   * An imported profile starts with the five header keys and holds no key
   * but those, the field-map targets, `fan_auto` and the voltage note.
   */
  lemma ProfileShape(block: string, importedAt: string, fileName: string, section: string)
    ensures var r := ProfileOf(block, importedAt, fileName, section);
      r.Success? ==>
        && |r.value| >= 5 && Keys(r.value)[..5] == HeaderKeys()
        && forall k :: k in Keys(r.value) ==> k in PROFILE_KEYS
  {
    var p := Header(importedAt, fileName, section) + Mapped(block, FIELD_MAP);
    MappedProfileKeys(block, importedAt, fileName, section);
    FanAdjustedShape(p, block);
    WithVoltageShape(FanAdjusted(p, block), block);
  }

  /** Popping a key that is not among the first n entries keeps those entries. */
  lemma {:induction false} PopPrefix(p: Profile, key: string, n: nat)
    requires n <= |p| && forall i :: 0 <= i < n ==> p[i].0 != key
    ensures |Pop(p, key)| >= n && Pop(p, key)[..n] == p[..n]
  {
    PopSplit(p, key, n);
    assert (p[..n] + Pop(p[n..], key))[..n] == p[..n];
  }

  /** Entries in front of the first `key` pass through `Pop` unchanged. */
  lemma {:induction false} PopSplit(p: Profile, key: string, n: nat)
    requires n <= |p| && forall i :: 0 <= i < n ==> p[i].0 != key
    ensures Pop(p, key) == p[..n] + Pop(p[n..], key)
    decreases n
  {
    if n > 0 {
      var tail := p[1..];
      assert p[0].0 != key;
      forall i | 0 <= i < n - 1 ensures tail[i].0 != key { assert tail[i] == p[i + 1]; }
      PopSplit(tail, key, n - 1);
      var after := Pop(p[n..], key);
      assert tail[n - 1..] == p[n..];
      assert Pop(p, key) == [p[0]] + (tail[..n - 1] + after);
      assert p[..n] == [p[0]] + tail[..n - 1];
      AppendAssoc([p[0]], tail[..n - 1], after);
    }
  }

  /** With `FanMode=0` the profile has no `fan_pct` and has `fan_auto=True`. */
  lemma FanAutoProfile(block: string, importedAt: string, fileName: string, section: string)
    requires ValueOf(block, "FanMode") == Some("0")
    ensures var r := ProfileOf(block, importedAt, fileName, section);
      r.Success? ==> "fan_pct" !in Keys(r.value) && ("fan_auto", PBool(true)) in r.value
  {
    var popped := Pop(Header(importedAt, fileName, section) + Mapped(block, FIELD_MAP), "fan_pct");
    var p := popped + [("fan_auto", PBool(true))];
    PopKeys(Header(importedAt, fileName, section) + Mapped(block, FIELD_MAP), "fan_pct");
    KeysAppend(popped, [("fan_auto", PBool(true))]);
    assert "fan_pct" !in Keys(p);
    WithVoltageExtends(p, block);
    var r := WithVoltage(p, block);
    if r.Success? {
      assert r.value[|p| - 1] == r.value[..|p|][|p| - 1] == ("fan_auto", PBool(true));
    }
  }

  /** A section that is not in the file raises, naming the sections on offer. */
  lemma MissingSectionRaises(text: string, fileName: string, section: string, importedAt: string)
    requires section !in Keys(SectionsOf(text))
    ensures Extract(Some(text), fileName, section, importedAt)
         == Failure(SectionNotFound(section, Offered(Keys(SectionsOf(text)))))
  {
    LookupFindsNames(SectionsOf(text), section);
  }

  /** A voltage boost `int()` cannot read raises instead of being skipped. */
  lemma BadVoltageRaises(block: string, importedAt: string, fileName: string, section: string)
    requires ValueOf(block, "CoreVoltageBoost").Some?
    requires ParseInt(ValueOf(block, "CoreVoltageBoost").value).None?
    ensures ProfileOf(block, importedAt, fileName, section).Failure?
  {
  }

  /** One entry of `_FIELD_MAP`: convert the raw value, skipping it when `int()` raises. */
  method ApplyRule(block: string, rule: FieldRule) returns (added: Profile)
    ensures added == MappedOne(block, rule)
  {
    added := [];
    var raw := GetValue(block, rule.abKey);
    if raw.Some? {
      var v := ParseInt(raw.value);
      if v.Some? {
        added := [(rule.ourKey, PInt(if rule.khzToMhz then v.value / 1000 else v.value))];
      }
    }
  }

  /** The loop over `_FIELD_MAP`: each parseable value is added under its profile key. */
  method ApplyFieldMap(block: string, profile: Profile) returns (r: Profile)
    ensures r == profile + Mapped(block, FIELD_MAP)
  {
    r := profile;
    var i := 0;
    while i < |FIELD_MAP|
      invariant 0 <= i <= |FIELD_MAP|
      invariant r == profile + Mapped(block, FIELD_MAP[..i])
    {
      var rule := FIELD_MAP[i];
      var added := ApplyRule(block, rule);
      assert FIELD_MAP[..i + 1][..i] == FIELD_MAP[..i] && FIELD_MAP[..i + 1][i] == rule;
      assert Mapped(block, FIELD_MAP[..i + 1]) == Mapped(block, FIELD_MAP[..i]) + added;
      r := r + added;
      i := i + 1;
    }
    assert FIELD_MAP[..i] == FIELD_MAP;
  }

  /** `extract_profile`. */
  method ExtractProfile(file: Option<string>, fileName: string, section: string, importedAt: string)
    returns (r: Result<Profile, ImportError>)
    ensures r == Extract(file, fileName, section, importedAt)
  {
    if file.None? {
      return Failure(FileNotFound(fileName));
    }
    var sections := ParseSections(file.value);
    var found := Lookup(sections, section);
    if found.None? {
      return Failure(SectionNotFound(section, Offered(Keys(sections))));
    }
    var block := found.value;
    var profile := Header(importedAt, fileName, section);
    profile := ApplyFieldMap(block, profile);
    var fanMode := GetValue(block, "FanMode");
    if fanMode == Some("0") {
      profile := Pop(profile, "fan_pct");
      profile := profile + [("fan_auto", PBool(true))];
    }
    var vboost := GetValue(block, "CoreVoltageBoost");
    if vboost.Some? {
      var mv := ParseInt(vboost.value);
      if mv.None? {
        return Failure(ValueError(vboost.value));
      }
      if mv.value != 0 {
        profile := profile + [("_voltage_boost_mv", PInt(mv.value)), ("_note_voltage", PStr(VOLTAGE_NOTE))];
      }
    }
    return Success(profile);
  }

  // ---------------------------------------------------------------------
  // list_sections
  // ---------------------------------------------------------------------

  /** One summary row. */
  datatype Row = Row(section: string, core: string, mem: string, power: string, thermal: string, fan: string)

  /** `f"{int(raw) // 1000:+d}"`, or "N/A" when the value is absent. */
  function MhzLabel(raw: Option<string>): (r: Result<string, ImportError>)
    ensures r.Success? ==> (r.value == "N/A" <==> raw.None?)
  {
    if raw.None? then Success("N/A")
    else match ParseInt(raw.value)
      case None => Failure(ValueError(raw.value))
      case Some(v) => Success(FormatSigned(v / 1000))
  }

  /** `f"{v}"` of an optional text: None prints as "None". */
  function Shown(v: Option<string>): string {
    if v.Some? then v.value else "None"
  }

  /** The row for one section. */
  function RowOf(name: string, block: string): Result<Row, ImportError> {
    var core :- MhzLabel(ValueOf(block, "CoreClkBoost"));
    var mem :- MhzLabel(ValueOf(block, "MemClkBoost"));
    var power := ValueOf(block, "PowerLimit");
    var thermal := ValueOf(block, "ThermalLimit");
    var fanMode := ValueOf(block, "FanMode");
    var fanSpeed := ValueOf(block, "FanSpeed");
    Success(Row(
      name, core, mem,
      if power.Some? then power.value + "%" else "N/A",
      if thermal.Some? then thermal.value + "\U{B0}C" else "N/A",
      if fanMode == Some("1") then Shown(fanSpeed) + "%" else "auto"))
  }

  /** The rows for the sections from the first on; the first failing row raises. */
  function RowsOf(secs: seq<Section>): Result<seq<Row>, ImportError> {
    if secs == [] then Success([])
    else if secs[0].0 == "Defaults" || secs[0].0 == "Settings" then RowsOf(secs[1..])
    else
      var row :- RowOf(secs[0].0, secs[0].1);
      var rest :- RowsOf(secs[1..]);
      Success([row] + rest)
  }

  /** Rows already produced, in front of the rows still to come. */
  function Prepend(rows: seq<Row>, rest: Result<seq<Row>, ImportError>): Result<seq<Row>, ImportError> {
    match rest
    case Failure(e) => Failure(e)
    case Success(more) => Success(rows + more)
  }

  /** `list_sections(path)`. */
  function ListOf(file: Option<string>, fileName: string): Result<seq<Row>, ImportError> {
    if file.None? then Failure(FileNotFound(fileName)) else RowsOf(SectionsOf(file.value))
  }

  /** One row per offered section, in file order. */
  lemma {:induction false} RowsFollowSections(secs: seq<Section>)
    ensures var r := RowsOf(secs);
      r.Success? ==> (|r.value| == |Offered(Keys(secs))|
        && forall i :: 0 <= i < |r.value| ==> r.value[i].section == Offered(Keys(secs))[i])
  {
    if secs != [] {
      RowsFollowSections(secs[1..]);
      assert Keys(secs) == [secs[0].0] + Keys(secs[1..]);
      assert Keys(secs)[1..] == Keys(secs[1..]);
    }
  }

  /**
   * The labels of a row: core and mem read "N/A" exactly when absent; the
   * fan shows a speed exactly when FanMode is "1", otherwise "auto".
   */
  lemma RowLabels(name: string, block: string)
    ensures var r := RowOf(name, block);
      r.Success? ==>
        && r.value.section == name
        && (r.value.core == "N/A" <==> ValueOf(block, "CoreClkBoost").None?)
        && (r.value.mem == "N/A" <==> ValueOf(block, "MemClkBoost").None?)
        && (r.value.fan == "auto" <==> ValueOf(block, "FanMode") != Some("1"))
  {
    var r := RowOf(name, block);
    if r.Success? && ValueOf(block, "FanMode") == Some("1") {
      var s := Shown(ValueOf(block, "FanSpeed")) + "%";
      assert s[|s| - 1] == '%';
    }
  }

  /** The body of the loop of `list_sections` for one section. */
  method SummaryRow(name: string, block: string) returns (r: Result<Row, ImportError>)
    ensures r == RowOf(name, block)
  {
    var coreRaw := GetValue(block, "CoreClkBoost");
    var memRaw := GetValue(block, "MemClkBoost");
    var power := GetValue(block, "PowerLimit");
    var thermal := GetValue(block, "ThermalLimit");
    var fanMode := GetValue(block, "FanMode");
    var fanSpeed := GetValue(block, "FanSpeed");
    var core := MhzLabel(coreRaw);
    if core.Failure? {
      return Failure(core.error);
    }
    var mem := MhzLabel(memRaw);
    if mem.Failure? {
      return Failure(mem.error);
    }
    var fanLabel := if fanMode == Some("1") then Shown(fanSpeed) + "%" else "auto";
    return Success(Row(name, core.value, mem.value,
      if power.Some? then power.value + "%" else "N/A",
      if thermal.Some? then thermal.value + "\U{B0}C" else "N/A",
      fanLabel));
  }

  /** `list_sections`. */
  method ListSections(file: Option<string>, fileName: string) returns (r: Result<seq<Row>, ImportError>)
    ensures r == ListOf(file, fileName)
  {
    if file.None? {
      return Failure(FileNotFound(fileName));
    }
    var sections := ParseSections(file.value);
    var results: seq<Row> := [];
    var i := 0;
    assert sections[i..] == sections;
    assert RowsOf(sections).Success? ==> [] + RowsOf(sections).value == RowsOf(sections).value;
    while i < |sections|
      invariant 0 <= i <= |sections|
      invariant RowsOf(sections) == Prepend(results, RowsOf(sections[i..]))
    {
      assert sections[i..][1..] == sections[i + 1..] && sections[i..][0] == sections[i];
      var name := sections[i].0;
      var block := sections[i].1;
      if name == "Defaults" || name == "Settings" {
        i := i + 1;
        continue;
      }
      var row := SummaryRow(name, block);
      if row.Failure? {
        return Failure(row.error);
      }
      assert RowsOf(sections[i..]) == Prepend([row.value], RowsOf(sections[i + 1..]));
      if RowsOf(sections[i + 1..]).Success? {
        var more := RowsOf(sections[i + 1..]).value;
        assert (results + [row.value]) + more == results + ([row.value] + more);
      }
      results := results + [row.value];
      i := i + 1;
    }
    assert sections[i..] == [];
    assert results + [] == results;
    return Success(results);
  }
}

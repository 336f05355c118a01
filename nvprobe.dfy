/**
 * Reading NVAPI Get buffers back: the PStates20 clock-delta search, the
 * power-info and thermal-info probes with their fall-back buffer scans,
 * and the fan-control layout detection with its get-modify-set writes.
 *
 * Each reader is a method with the loop the driver code runs, proved
 * equal to a recursive specification function; the lemmas state what the
 * specification guarantees.
 */
module NvProbe {
  import opened Wrappers
  import opened NvStruct

  function Min(a: int, b: int): int { if a <= b then a else b }

  // ---------------------------------------------------------------------
  // PStates20: clock delta lookup
  // ---------------------------------------------------------------------

  /** A buffer long enough for every offset the PStates20 readers touch. */
  predicate IsPstatesBuffer(s: seq<Byte>) { |s| >= PSTATES20_V1_SIZE }

  /** How many clock entries `_find_clock_in_pstates` looks at. */
  function ClocksScanned(s: seq<Byte>): nat
    requires IsPstatesBuffer(s)
    ensures ClocksScanned(s) <= MAX_CLOCKS
  {
    Min(U32(s, PS_NUM_CLOCKS), MAX_CLOCKS)
  }

  /** How many pstates `_read_clock_delta` looks at. */
  function PstatesScanned(s: seq<Byte>): nat
    requires IsPstatesBuffer(s)
    ensures PstatesScanned(s) <= MAX_PSTATES
  {
    Min(U32(s, PS_NUM_PSTATES), MAX_PSTATES)
  }

  /** The domain id stored in `pStates[p].clocks[c]`. */
  function DomainAt(s: seq<Byte>, p: nat, c: nat): nat
    requires IsPstatesBuffer(s) && p < MAX_PSTATES && c < MAX_CLOCKS
  {
    ClockEntryInPstate(p, c);
    U32(s, ClockOff(p, c) + CK_DOMAIN)
  }

  /** The first clock index at or after `c` in pstate `p` whose domain matches. */
  function FirstClockFrom(s: seq<Byte>, domain: int, p: nat, c: nat): (r: Option<nat>)
    requires IsPstatesBuffer(s) && p < MAX_PSTATES && c <= ClocksScanned(s)
    ensures r.Some? ==> c <= r.value < ClocksScanned(s) && DomainAt(s, p, r.value) == domain
    ensures r.Some? ==> forall j :: c <= j < r.value ==> DomainAt(s, p, j) != domain
    ensures r.None? ==> forall j :: c <= j < ClocksScanned(s) ==> DomainAt(s, p, j) != domain
    decreases ClocksScanned(s) - c
  {
    if c == ClocksScanned(s) then None
    else if DomainAt(s, p, c) == domain then Some(c)
    else FirstClockFrom(s, domain, p, c + 1)
  }

  /**
   * `_find_clock_in_pstates`: the first of the first min(numClocks, 8)
   * clock entries of pstate `p` whose domain is `domain`, or None.
   */
  method FindClockInPstates(s: seq<Byte>, domain: int, p: nat) returns (ci: Option<nat>)
    requires IsPstatesBuffer(s) && p < MAX_PSTATES
    ensures ci == FirstClockFrom(s, domain, p, 0)
  {
    var n := ClocksScanned(s);
    var c := 0;
    while c < n
      invariant 0 <= c <= n
      invariant FirstClockFrom(s, domain, p, c) == FirstClockFrom(s, domain, p, 0)
    {
      if DomainAt(s, p, c) == domain {
        return Some(c);
      }
      c := c + 1;
    }
    return None;
  }

  /** The first (pstate, clock) pair, pstates in order from `p`, matching `domain`. */
  function FirstMatchFrom(s: seq<Byte>, domain: int, p: nat): (r: Option<(nat, nat)>)
    requires IsPstatesBuffer(s) && p <= PstatesScanned(s)
    ensures r.Some? ==> p <= r.value.0 < PstatesScanned(s) && r.value.1 < ClocksScanned(s)
    ensures r.Some? ==> FirstClockFrom(s, domain, r.value.0, 0) == Some(r.value.1)
    ensures r.Some? ==> forall q :: p <= q < r.value.0 ==> FirstClockFrom(s, domain, q, 0).None?
    ensures r.None? ==> forall q :: p <= q < PstatesScanned(s) ==> FirstClockFrom(s, domain, q, 0).None?
    decreases PstatesScanned(s) - p
  {
    if p == PstatesScanned(s) then None
    else
      match FirstClockFrom(s, domain, p, 0)
      case Some(c) => Some((p, c))
      case None => FirstMatchFrom(s, domain, p + 1)
  }

  /** (current, min, max) kHz delta of the clock entry at (p, c). */
  function DeltaAt(s: seq<Byte>, p: nat, c: nat): (int, int, int)
    requires IsPstatesBuffer(s) && p < MAX_PSTATES && c < MAX_CLOCKS
  {
    ClockEntryInPstate(p, c);
    var base := ClockOff(p, c);
    (I32(s, base + CK_DELTA_VAL), I32(s, base + CK_DELTA_MIN), I32(s, base + CK_DELTA_MAX))
  }

  /** The clock delta `_read_clock_delta` reports for `domain`. */
  function ClockDelta(s: seq<Byte>, domain: int): (int, int, int)
    requires IsPstatesBuffer(s)
  {
    match FirstMatchFrom(s, domain, 0)
    case Some(pc) => DeltaAt(s, pc.0, pc.1)
    case None => (0, 0, 0)
  }

  /**
   * `_read_clock_delta`: search pstates 0..min(numPStates, 16) in order
   * for a clock entry of `domain` and return its (value, min, max) delta;
   * (0, 0, 0) when no pstate has one.
   */
  method ReadClockDelta(s: seq<Byte>, domain: int) returns (r: (int, int, int))
    requires IsPstatesBuffer(s)
    ensures r == ClockDelta(s, domain)
  {
    var n := PstatesScanned(s);
    var p := 0;
    while p < n
      invariant 0 <= p <= n
      invariant FirstMatchFrom(s, domain, p) == FirstMatchFrom(s, domain, 0)
    {
      var ci := FindClockInPstates(s, domain, p);
      if ci.Some? {
        return DeltaAt(s, p, ci.value);
      }
      p := p + 1;
    }
    return (0, 0, 0);
  }

  /**
   * The SetPstates20 request for `domain` reads back, through the same
   * search `get_oc_status` uses, as (offset, 0, 0).
   */
  lemma ClockRequestReadsBack(domain: nat, offsetKhz: int)
    requires domain < WORD && IsI32(offsetKhz)
    ensures ClockDelta(ClockRequest(domain, offsetKhz), domain) == (offsetKhz, 0, 0)
  {
    var r := ClockRequest(domain, offsetKhz);
    ClockRequestWords(domain, offsetKhz);
    ClockRequestZeroes(domain, offsetKhz);
    assert ClocksScanned(r) == 1 && PstatesScanned(r) == 1;
    assert DomainAt(r, 0, 0) == domain;
    assert FirstClockFrom(r, domain, 0, 0) == Some(0);
    assert FirstMatchFrom(r, domain, 0) == Some((0, 0));
    assert I32(r, 44) == 0 && I32(r, 48) == 0;
  }

  // ---------------------------------------------------------------------
  // Power info probe
  // ---------------------------------------------------------------------

  const PWR_INFO_MIN: nat := 20
  const PWR_INFO_DEF: nat := 28
  const PWR_INFO_MAX: nat := 36

  /** A plausible PCM power value: 30% to 200%. */
  predicate IsPcm(v: int) { 30000 <= v <= 200000 }

  /**
   * The fall-back scan: in order, the words at 4-aligned offsets from
   * `off` up to the last whole word that are plausible PCM values.
   */
  function PcmCandidates(s: seq<Byte>, off: nat): (r: seq<nat>)
    ensures forall i :: 0 <= i < |r| ==> IsPcm(r[i])
    decreases |s| - off
  {
    if off + 4 > |s| then []
    else (if IsPcm(U32(s, off)) then [U32(s, off)] else []) + PcmCandidates(s, off + 4)
  }

  /**
   * The choice around the first candidate equal to 100000 at or after
   * `i`: its neighbours, or 50000 / 116000 where it has none, or the
   * hard-coded (50000, 100000, 116000) when there is no such candidate.
   */
  function PickAroundDefault(c: seq<nat>, i: nat): (r: (nat, nat, nat))
    requires i <= |c|
    decreases |c| - i
  {
    if i == |c| then (50000, 100000, 116000)
    else if c[i] == 100000 then
      (if i > 0 then c[i - 1] else 50000, 100000, if i < |c| - 1 then c[i + 1] else 116000)
    else PickAroundDefault(c, i + 1)
  }

  /** `_get_power_info`'s result for a filled GetInfo buffer. */
  function PowerInfoOf(s: seq<Byte>): (nat, nat, nat)
    requires |s| == POWER_INFO_SIZE
  {
    var d := U32(s, PWR_INFO_DEF);
    if IsPcm(d) then (U32(s, PWR_INFO_MIN), d, U32(s, PWR_INFO_MAX))
    else PickAroundDefault(PcmCandidates(s, 4), 0)
  }

  /**
   * `_get_power_info` after the GetInfo call: the primary offsets when the
   * default word is plausible, otherwise the scan and the pick around the
   * first 100000 candidate.
   */
  method ProbePowerInfo(s: seq<Byte>) returns (r: (nat, nat, nat))
    requires |s| == POWER_INFO_SIZE
    ensures r == PowerInfoOf(s)
  {
    var minP, defP, maxP := U32(s, PWR_INFO_MIN), U32(s, PWR_INFO_DEF), U32(s, PWR_INFO_MAX);
    if IsPcm(defP) {
      r := (minP, defP, maxP);
    } else {
      var cands := ScanPcm(s);
      r := PickAround(cands);
    }
  }

  /** The fall-back scan of `_get_power_info`: every 4-aligned word from offset 4 that is a PCM value. */
  method ScanPcm(s: seq<Byte>) returns (cands: seq<nat>)
    ensures cands == PcmCandidates(s, 4)
  {
    cands := [];
    var off := 4;
    while off + 3 < |s|
      invariant 4 <= off
      invariant cands + PcmCandidates(s, off) == PcmCandidates(s, 4)
      decreases |s| - off
    {
      var v := U32(s, off);
      ghost var here := if IsPcm(v) then [v] else [];
      ghost var before := cands;
      assert PcmCandidates(s, off) == here + PcmCandidates(s, off + 4);
      if IsPcm(v) {
        cands := cands + [v];
      }
      assert cands == before + here;
      AppendAssoc(before, here, PcmCandidates(s, off + 4));
      off := off + 4;
    }
    assert PcmCandidates(s, off) == [];
  }

  /** The search for the first 100000 among the candidates and the pick around it. */
  method PickAround(cands: seq<nat>) returns (r: (nat, nat, nat))
    ensures r == PickAroundDefault(cands, 0)
  {
    r := (50000, 100000, 116000);
    var i := 0;
    var found := false;
    while i < |cands| && !found
      invariant 0 <= i <= |cands|
      invariant !found ==> PickAroundDefault(cands, i) == PickAroundDefault(cands, 0)
      invariant !found ==> r == (50000, 100000, 116000)
      invariant found ==> r == PickAroundDefault(cands, 0)
      decreases |cands| - i, !found
    {
      if cands[i] == 100000 {
        var lo := if i > 0 then cands[i - 1] else 50000;
        var hi := if i < |cands| - 1 then cands[i + 1] else 116000;
        r := (lo, 100000, hi);
        found := true;
      } else {
        i := i + 1;
      }
    }
  }

  lemma {:induction false} PickAroundDefaultIs100000(c: seq<nat>, i: nat)
    requires i <= |c|
    ensures PickAroundDefault(c, i).1 == 100000
    decreases |c| - i
  {
    if i < |c| && c[i] != 100000 {
      PickAroundDefaultIs100000(c, i + 1);
    }
  }

  /**
   * Whatever the buffer holds, the default power `_get_power_info` reports
   * is a plausible PCM value, and when the primary default word is
   * plausible the result is exactly the three primary words.
   */
  lemma PowerDefaultPlausible(s: seq<Byte>)
    requires |s| == POWER_INFO_SIZE
    ensures IsPcm(PowerInfoOf(s).1)
    ensures IsPcm(U32(s, PWR_INFO_DEF)) ==>
      PowerInfoOf(s) == (U32(s, PWR_INFO_MIN), U32(s, PWR_INFO_DEF), U32(s, PWR_INFO_MAX))
    ensures !IsPcm(U32(s, PWR_INFO_DEF)) ==> PowerInfoOf(s).1 == 100000
  {
    if !IsPcm(U32(s, PWR_INFO_DEF)) {
      PickAroundDefaultIs100000(PcmCandidates(s, 4), 0);
    }
  }

  /**
   * The pick around the first 100000 candidate: its index `k` is the first
   * one holding 100000, and the bounds are its neighbours or the defaults.
   */
  lemma {:induction false} PickAroundFirst(c: seq<nat>, i: nat, k: nat)
    requires i <= k < |c| && c[k] == 100000
    requires forall j :: i <= j < k ==> c[j] != 100000
    ensures PickAroundDefault(c, i) ==
      (if k > 0 then c[k - 1] else 50000, 100000, if k < |c| - 1 then c[k + 1] else 116000)
    decreases k - i
  {
    if i < k {
      PickAroundFirst(c, i + 1, k);
    }
  }

  /** With no candidate equal to 100000 the hard-coded triple is used. */
  lemma {:induction false} PickAroundNone(c: seq<nat>, i: nat)
    requires i <= |c|
    requires forall j :: i <= j < |c| ==> c[j] != 100000
    ensures PickAroundDefault(c, i) == (50000, 100000, 116000)
    decreases |c| - i
  {
    if i < |c| {
      PickAroundNone(c, i + 1);
    }
  }

  // ---------------------------------------------------------------------
  // Thermal info probe
  // ---------------------------------------------------------------------

  const THERMAL_INFO_MIN: nat := 16
  const THERMAL_INFO_DEF: nat := 20
  const THERMAL_INFO_MAX: nat := 24

  /** A raw word seen as a temperature: shifted down by 8 when that lands in 30..120. */
  function TempCandidate(raw: nat): nat {
    if 30 <= raw / 0x100 <= 120 then raw / 0x100 else raw
  }

  /** The fall-back scan: temperature candidates in 60..100, in buffer order. */
  function TempCandidates(s: seq<Byte>, off: nat): (r: seq<nat>)
    ensures forall i :: 0 <= i < |r| ==> 60 <= r[i] <= 100
    decreases |s| - off
  {
    if off + 4 > |s| then []
    else
      var t := TempCandidate(U32(s, off));
      (if 60 <= t <= 100 then [t] else []) + TempCandidates(s, off + 4)
  }

  function SeqMin(c: seq<nat>): (m: nat)
    requires c != []
    ensures m in c && forall i :: 0 <= i < |c| ==> m <= c[i]
  {
    if |c| == 1 then c[0] else var m := SeqMin(c[1..]); if c[0] <= m then c[0] else m
  }

  function SeqMax(c: seq<nat>): (m: nat)
    requires c != []
    ensures m in c && forall i :: 0 <= i < |c| ==> c[i] <= m
  {
    if |c| == 1 then c[0] else var m := SeqMax(c[1..]); if c[0] >= m then c[0] else m
  }

  /** The three primary words, shifted down by 8 if any of them exceeds 200. */
  function ThermalPrimary(s: seq<Byte>): (nat, nat, nat)
    requires |s| == THERMAL_INFO_SIZE
  {
    var mn, df, mx := U32(s, THERMAL_INFO_MIN), U32(s, THERMAL_INFO_DEF), U32(s, THERMAL_INFO_MAX);
    if mn > 200 || df > 200 || mx > 200 then (mn / 0x100, df / 0x100, mx / 0x100)
    else (mn, df, mx)
  }

  /** `_get_thermal_info`'s result for a filled GetInfo buffer. */
  function ThermalInfoOf(s: seq<Byte>): (nat, nat, nat)
    requires |s| == THERMAL_INFO_SIZE
  {
    var p := ThermalPrimary(s);
    if 30 <= p.1 <= 120 then p else TempFallback(TempCandidates(s, 8))
  }

  /** The range the scan yields: (min, midpoint, max) of the candidates, or (65, 83, 90). */
  function TempFallback(found: seq<nat>): (nat, nat, nat) {
    if found != [] then (SeqMin(found), (SeqMin(found) + SeqMax(found)) / 2, SeqMax(found))
    else (65, 83, 90)
  }

  /** The fall-back scan loop of `_get_thermal_info`. */
  method ScanTemps(s: seq<Byte>) returns (found: seq<nat>)
    ensures found == TempCandidates(s, 8)
  {
    found := [];
    var off := 8;
    while off + 3 < |s|
      invariant 8 <= off
      invariant found + TempCandidates(s, off) == TempCandidates(s, 8)
      decreases |s| - off
    {
      var candidate := TempCandidate(U32(s, off));
      ghost var here := if 60 <= candidate <= 100 then [candidate] else [];
      ghost var rest := TempCandidates(s, off + 4);
      ghost var before := found;
      TempCandidatesStep(s, off);
      if 60 <= candidate <= 100 {
        found := found + [candidate];
      }
      assert found == before + here;
      AppendAssoc(before, here, rest);
      off := off + 4;
    }
    assert TempCandidates(s, off) == [];
  }

  /** One word of the scan: its candidate, if in range, then the rest. */
  lemma TempCandidatesStep(s: seq<Byte>, off: nat)
    requires off + 4 <= |s|
    ensures var t := TempCandidate(U32(s, off));
      TempCandidates(s, off) == (if 60 <= t <= 100 then [t] else []) + TempCandidates(s, off + 4)
  {
  }

  /**
   * `_get_thermal_info` after the GetInfo call: shift detection on the
   * primary words, then the fall-back scan when the default is implausible.
   */
  method ProbeThermalInfo(s: seq<Byte>) returns (r: (nat, nat, nat))
    requires |s| == THERMAL_INFO_SIZE
    ensures r == ThermalInfoOf(s)
  {
    var minT, defT, maxT := U32(s, THERMAL_INFO_MIN), U32(s, THERMAL_INFO_DEF), U32(s, THERMAL_INFO_MAX);
    if minT > 200 || defT > 200 || maxT > 200 {
      minT, defT, maxT := minT / 0x100, defT / 0x100, maxT / 0x100;
    }
    ghost var primary := ThermalPrimary(s);
    assert minT == primary.0 && defT == primary.1 && maxT == primary.2;
    if !(30 <= defT <= 120) {
      var found := ScanTemps(s);
      r := TempRange(found);
      return;
    }
    return (minT, defT, maxT);
  }

  /** The end of the fall-back: `min`/`max` of the candidates, or the hard-coded triple. */
  method TempRange(found: seq<nat>) returns (r: (nat, nat, nat))
    ensures r == TempFallback(found)
  {
    if found != [] {
      var minT := SeqMin(found);
      var maxT := SeqMax(found);
      return (minT, (minT + maxT) / 2, maxT);
    }
    return (65, 83, 90);
  }

  /**
   * Whatever the buffer holds, the default temperature `_get_thermal_info`
   * reports is in 30..120 °C; when the scan decides, the reported range is
   * ordered and inside 60..100.
   */
  lemma ThermalDefaultPlausible(s: seq<Byte>)
    requires |s| == THERMAL_INFO_SIZE
    ensures 30 <= ThermalInfoOf(s).1 <= 120
    ensures !(30 <= ThermalPrimary(s).1 <= 120) ==>
      var r := ThermalInfoOf(s);
      60 <= r.0 <= r.1 <= r.2 <= 100
  {
    var found := TempCandidates(s, 8);
    if found != [] {
      assert SeqMin(found) <= found[0] <= SeqMax(found);
    }
    assert !(30 <= ThermalPrimary(s).1 <= 120) ==> ThermalInfoOf(s) == TempFallback(found);
  }

  /** A shifted Info struct is recognised: any word above 200 shifts all three. */
  lemma ThermalShiftDetected(s: seq<Byte>)
    requires |s| == THERMAL_INFO_SIZE
    requires U32(s, THERMAL_INFO_MIN) > 200 || U32(s, THERMAL_INFO_DEF) > 200 || U32(s, THERMAL_INFO_MAX) > 200
    requires 30 <= U32(s, THERMAL_INFO_DEF) / 0x100 <= 120
    ensures ThermalInfoOf(s) == (U32(s, THERMAL_INFO_MIN) / 0x100, U32(s, THERMAL_INFO_DEF) / 0x100,
                                 U32(s, THERMAL_INFO_MAX) / 0x100)
  {
  }

  // ---------------------------------------------------------------------
  // Fan control (ClientFanCoolers) layout and writes
  // ---------------------------------------------------------------------

  const FAN_CONTROL_SIZE: nat := 1452
  const FAN_HEADER_SIZE: nat := 12

  /** The fan count: word 8, or word 4 when word 8 is zero. */
  function FanCount(s: seq<Byte>): nat
    requires |s| >= FAN_HEADER_SIZE
  {
    if U32(s, 8) == 0 then U32(s, 4) else U32(s, 8)
  }

  /** Whether `_set_fan_new_api` trusts the GetControl layout, and with what entry size. */
  datatype FanLayout = Unusable | Entries(count: nat, entrySize: nat)

  /** `_set_fan_new_api`'s layout checks on a filled GetControl buffer. */
  function FanLayoutOf(s: seq<Byte>): FanLayout
    requires |s| == FAN_CONTROL_SIZE
  {
    var count := FanCount(s);
    if count == 0 || count > 16 then Unusable
    else if count <= 0 || count > 32 then Unusable  // a second guard the first already implies
    else
      var entrySize := (FAN_CONTROL_SIZE - FAN_HEADER_SIZE) / count;
      if entrySize < 12 || entrySize > 256 then Unusable
      else Entries(count, entrySize)
  }

  lemma EntrySizeBounds(count: nat)
    requires 1 <= count <= 16
    ensures 12 <= 1440 / count
    ensures 1440 / count <= 256 <==> count >= 6
    ensures count * (1440 / count) <= 1440
  {
    // One case per fan count from 1 to 16, so that each division is by a literal.
    if count == 1 {} else if count == 2 {} else if count == 3 {} else if count == 4 {}
    else if count == 5 {} else if count == 6 {} else if count == 7 {} else if count == 8 {}
    else if count == 9 {} else if count == 10 {} else if count == 11 {} else if count == 12 {}
    else if count == 13 {} else if count == 14 {} else if count == 15 {} else {}
  }

  /**
   * The new fan path is taken exactly for 6..16 fans: fewer than six
   * give entries over 256 bytes, more than sixteen are refused outright.
   * Its entries then fit the 1440 bytes after the header.
   */
  lemma FanLayoutUsableIff(s: seq<Byte>)
    requires |s| == FAN_CONTROL_SIZE
    ensures FanLayoutOf(s).Entries? <==> 6 <= FanCount(s) <= 16
    ensures FanLayoutOf(s).Entries? ==>
      var l := FanLayoutOf(s);
      l.count == FanCount(s) && l.entrySize == 1440 / l.count && 90 <= l.entrySize
      && l.count * l.entrySize <= 1440
  {
    var count := FanCount(s);
    if 1 <= count <= 16 {
      EntrySizeBounds(count);
      if count >= 6 {
        assert 1440 / count >= 1440 / 16 by {
          if count == 6 {} else if count == 7 {} else if count == 8 {} else if count == 9 {}
          else if count == 10 {} else if count == 11 {} else if count == 12 {} else if count == 13 {}
          else if count == 14 {} else if count == 15 {} else {}
        }
      }
    }
  }

  function LevelOff(i: nat, entrySize: nat): nat { FAN_HEADER_SIZE + i * entrySize + 8 }

  /** One fan entry's update: the level word at `lo`, the mode word after it. */
  function WriteEntry(w: seq<Byte>, lo: nat, level: nat, mode: nat): (r: seq<Byte>)
    requires lo + 8 <= |w|
    ensures |r| == |w|
  {
    WriteU32(WriteU32(w, lo, level), lo + 4, mode)
  }

  /** The entry's two words read back as written. */
  lemma EntryWords(w: seq<Byte>, lo: nat, level: nat, mode: nat)
    requires lo + 8 <= |w| && level < WORD && mode < WORD
    ensures U32(WriteEntry(w, lo, level, mode), lo) == level
    ensures U32(WriteEntry(w, lo, level, mode), lo + 4) == mode
  {
    ReadPastWrite(WriteU32(w, lo, level), lo + 4, mode, lo);
  }

  /** A word clear of the entry's eight bytes is left as it was. */
  lemma EntryKeeps(w: seq<Byte>, lo: nat, level: nat, mode: nat, o: nat)
    requires lo + 8 <= |w| && o + 4 <= |w|
    requires o + 4 <= lo || lo + 8 <= o
    ensures U32(WriteEntry(w, lo, level, mode), o) == U32(w, o)
  {
    ReadPastWrite(w, lo, level, o);
    ReadPastWrite(WriteU32(w, lo, level), lo + 4, mode, o);
  }

  /**
   * The GetControl buffer after the loop of `_set_fan_new_api` has visited
   * entries 0..n-1: each entry whose level and mode words fit gets the
   * level at +8 and the mode at +12.
   */
  function FanWritten(s: seq<Byte>, entrySize: nat, level: nat, mode: nat, n: nat): (r: seq<Byte>)
    ensures |r| == |s|
  {
    if n == 0 then s
    else
      var w := FanWritten(s, entrySize, level, mode, n - 1);
      var lo := LevelOff(n - 1, entrySize);
      if lo + 8 <= |w| then WriteEntry(w, lo, level, mode) else w
  }

  lemma MulMono(i: nat, j: nat, k: nat)
    requires i < j
    ensures i * k + k <= j * k
  {
    var d := j - i;
    assert j * k == i * k + d * k;
    assert d * k >= k by {
      assert d >= 1;
    }
  }

  /**
   * Get-modify-set keeps everything else: a byte outside the level and
   * mode words of entries 0..n-1 is the byte GetControl returned.
   */
  lemma {:induction false} FanWrittenPreserves(s: seq<Byte>, entrySize: nat, level: nat, mode: nat, n: nat, k: nat)
    requires k < |s|
    requires forall i :: 0 <= i < n ==> !(LevelOff(i, entrySize) <= k < LevelOff(i, entrySize) + 8)
    ensures FanWritten(s, entrySize, level, mode, n)[k] == s[k]
  {
    if n > 0 {
      FanWrittenPreserves(s, entrySize, level, mode, n - 1, k);
    }
  }

  /** A word reads the same from two buffers that agree on its four bytes. */
  lemma U32Agree(a: seq<Byte>, b: seq<Byte>, off: nat)
    requires off + 4 <= |a| && off + 4 <= |b|
    requires forall k :: off <= k < off + 4 ==> a[k] == b[k]
    ensures U32(a, off) == U32(b, off)
  {
  }

  /**
   * Entry `i < n` ends up with the level and mode words requested, as long
   * as entries are at least 16 bytes apart and fit in the buffer.
   */
  lemma {:induction false} FanWrittenSets(s: seq<Byte>, entrySize: nat, level: nat, mode: nat, n: nat, i: nat)
    requires level < WORD && mode < WORD && 16 <= entrySize
    requires i < n && LevelOff(n - 1, entrySize) + 8 <= |s|
    ensures LevelOff(i, entrySize) + 8 <= |s|
    ensures U32(FanWritten(s, entrySize, level, mode, n), LevelOff(i, entrySize)) == level
    ensures U32(FanWritten(s, entrySize, level, mode, n), LevelOff(i, entrySize) + 4) == mode
    decreases n
  {
    var lo := LevelOff(n - 1, entrySize);
    var w := FanWritten(s, entrySize, level, mode, n - 1);
    assert FanWritten(s, entrySize, level, mode, n) == WriteEntry(w, lo, level, mode);
    if i < n - 1 {
      MulMono(i, n - 1, entrySize);
      MulMono(n - 2, n - 1, entrySize);
      var li := LevelOff(i, entrySize);
      FanWrittenSets(s, entrySize, level, mode, n - 1, i);
      EntryKeeps(w, lo, level, mode, li);
      EntryKeeps(w, lo, level, mode, li + 4);
    } else {
      EntryWords(w, lo, level, mode);
    }
  }
}

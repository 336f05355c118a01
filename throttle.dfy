/**
 * `decode_throttle_reasons`: NVML's clocks-throttle-reasons bitmask
 * turned into the names of the reasons it reports.
 */
module Throttle {
  import opened Text

  /** `THROTTLE_REASONS`, in table order (ascending flag value). */
  const THROTTLE_REASONS: seq<(bv64, string)> := [
    (0x0000_0001, "GPU_IDLE"),
    (0x0000_0002, "APP_CLOCK_SETTING"),
    (0x0000_0004, "SW_POWER_CAP"),
    (0x0000_0008, "HW_SLOWDOWN"),
    (0x0000_0010, "SYNC_BOOST"),
    (0x0000_0020, "SW_THERMAL"),
    (0x0000_0040, "HW_THERMAL"),
    (0x0000_0080, "HW_POWER_BRAKE"),
    (0x0000_0100, "DISPLAY_CLOCK")
  ]

  /** Every bit the table knows. */
  const KNOWN_BITS: bv64 := 0x1FF

  /** `bitmask & flag`, taken as a truth value. */
  predicate Has(mask: bv64, flag: bv64) {
    mask & flag != 0
  }

  /** The names of the table rows whose flag is set in `mask`, in table order. */
  function FlagNames(mask: bv64, table: seq<(bv64, string)>): (r: seq<string>)
    ensures |r| <= |table|
  {
    if table == [] then []
    else
      var rest := FlagNames(mask, table[..|table| - 1]);
      var row := table[|table| - 1];
      if Has(mask, row.0) then rest + [row.1] else rest
  }

  function Unknown(mask: bv64): string {
    "UNKNOWN(0x" + Hex08(mask as nat) + ")"
  }

  /** What `decode_throttle_reasons(mask)` returns. */
  function Decoded(mask: bv64): (r: seq<string>)
    ensures |r| >= 1
  {
    if mask == 0 then ["NONE"]
    else
      var names := FlagNames(mask, THROTTLE_REASONS);
      if names == [] then [Unknown(mask)] else names
  }

  /** The names of the table, in order. */
  function RowNames(table: seq<(bv64, string)>): (r: seq<string>)
    ensures |r| == |table|
    ensures forall i :: 0 <= i < |table| ==> r[i] == table[i].1
  {
    if table == [] then [] else RowNames(table[..|table| - 1]) + [table[|table| - 1].1]
  }

  /** The names listed after the first `i + 1` rows: those after `i` rows, and row `i` if its flag is set. */
  lemma FlagNamesStep(mask: bv64, table: seq<(bv64, string)>, i: nat)
    requires i < |table|
    ensures FlagNames(mask, table[..i + 1])
         == FlagNames(mask, table[..i]) + (if Has(mask, table[i].0) then [table[i].1] else [])
  {
    assert table[..i + 1][..i] == table[..i];
  }

  /** The loop of `decode_throttle_reasons` over the table. */
  method DecodeThrottleReasons(mask: bv64) returns (reasons: seq<string>)
    ensures reasons == Decoded(mask)
  {
    if mask == 0 {
      return ["NONE"];
    }
    reasons := [];
    var i := 0;
    while i < |THROTTLE_REASONS|
      invariant 0 <= i <= |THROTTLE_REASONS|
      invariant reasons == FlagNames(mask, THROTTLE_REASONS[..i])
    {
      var row := THROTTLE_REASONS[i];
      FlagNamesStep(mask, THROTTLE_REASONS, i);
      if Has(mask, row.0) {
        reasons := reasons + [row.1];
      }
      i := i + 1;
    }
    assert THROTTLE_REASONS[..i] == THROTTLE_REASONS;
    if reasons == [] {
      reasons := [Unknown(mask)];
    }
  }

  predicate DistinctNames(table: seq<(bv64, string)>) {
    forall i, j :: 0 <= i < j < |table| ==> table[i].1 != table[j].1
  }

  /** Every listed name is the name of a table row. */
  lemma {:induction false} ListedFromTable(mask: bv64, table: seq<(bv64, string)>, n: string)
    requires n in FlagNames(mask, table)
    ensures n in RowNames(table)
    decreases |table|
  {
    var init := table[..|table| - 1];
    if n in FlagNames(mask, init) {
      ListedFromTable(mask, init, n);
      assert RowNames(table) == RowNames(init) + [table[|table| - 1].1];
    }
  }

  /** In a table with distinct names, a row's name is listed exactly when its flag is set. */
  lemma {:induction false} ListedIffSet(mask: bv64, table: seq<(bv64, string)>, j: nat)
    requires DistinctNames(table) && j < |table|
    ensures table[j].1 in FlagNames(mask, table) <==> Has(mask, table[j].0)
    decreases |table|
  {
    var last := |table| - 1;
    var init := table[..last];
    assert DistinctNames(init);
    if j < last {
      ListedIffSet(mask, init, j);
      assert table[j] == init[j];
      assert table[j].1 != table[last].1;
    } else if table[last].1 in FlagNames(mask, init) {
      ListedFromTable(mask, init, table[last].1);
      assert false;
    }
  }

  /** A zero mask decodes to exactly `["NONE"]`. */
  lemma ZeroIsNone()
    ensures Decoded(0) == ["NONE"]
  {
  }

  /** A mask with no flag of the table set lists no name. */
  lemma NoFlagNoNames(mask: bv64)
    requires mask & KNOWN_BITS == 0
    ensures FlagNames(mask, THROTTLE_REASONS) == []
  {
    var t := THROTTLE_REASONS;
    assert DistinctNames(t);
    if FlagNames(mask, t) != [] {
      var n := FlagNames(mask, t)[0];
      ListedFromTable(mask, t, n);
      var k :| 0 <= k < |t| && RowNames(t)[k] == n;
      ListedIffSet(mask, t, k);
      NoKnownBitNoRow(mask, k);
      assert false;
    }
  }

  /** Every flag of the table lies within the known bits. */
  lemma NoKnownBitNoRow(mask: bv64, k: nat)
    requires mask & KNOWN_BITS == 0 && k < |THROTTLE_REASONS|
    ensures !Has(mask, THROTTLE_REASONS[k].0)
  {
    var f := THROTTLE_REASONS[k].0;
    assert f & KNOWN_BITS == f;
    assert mask & f == (mask & KNOWN_BITS) & f;
  }

  /** A mask with a known bit set has that bit's flag set in some row. */
  lemma KnownBitHasRow(mask: bv64) returns (j: nat)
    requires mask & KNOWN_BITS != 0
    ensures j < |THROTTLE_REASONS| && Has(mask, THROTTLE_REASONS[j].0)
  {
    if mask & 0x1 != 0 { return 0; }
    if mask & 0x2 != 0 { return 1; }
    if mask & 0x4 != 0 { return 2; }
    if mask & 0x8 != 0 { return 3; }
    if mask & 0x10 != 0 { return 4; }
    if mask & 0x20 != 0 { return 5; }
    if mask & 0x40 != 0 { return 6; }
    if mask & 0x80 != 0 { return 7; }
    assert mask & 0x100 != 0;
    return 8;
  }

  /**
   * For a mask with a known bit, each reason in the table is listed
   * exactly when its bit is set; unknown bits are then ignored.
   */
  lemma ReasonsMatchBits(mask: bv64, j: nat)
    requires mask & KNOWN_BITS != 0 && j < |THROTTLE_REASONS|
    ensures THROTTLE_REASONS[j].1 in Decoded(mask) <==> Has(mask, THROTTLE_REASONS[j].0)
  {
    var t := THROTTLE_REASONS;
    assert DistinctNames(t);
    var j0 := KnownBitHasRow(mask);
    ListedIffSet(mask, t, j0);
    assert mask != 0;
    assert Decoded(mask) == FlagNames(mask, t);
    ListedIffSet(mask, t, j);
  }

  /**
   * A non-zero mask with no known bit decodes to the single
   * `UNKNOWN(0x…)` entry.
   */
  lemma UnknownBitsOnly(mask: bv64)
    requires mask != 0 && mask & KNOWN_BITS == 0
    ensures Decoded(mask) == [Unknown(mask)]
  {
    NoFlagNoNames(mask);
  }

  /** The hex digits of `UNKNOWN(0x…)`: at least eight, lower-case, spelling the mask. */
  lemma UnknownSpellsMask(mask: bv64)
    ensures var h := Unknown(mask)[10..|Unknown(mask)| - 1];
      |h| >= 8 && (forall i :: 0 <= i < |h| ==> IsHexDigit(h[i])) && DigitsValue(h, 16) == mask as nat
  {
    Hex08Value(mask as nat);
    assert Unknown(mask)[10..|Unknown(mask)| - 1] == Hex08(mask as nat);
  }
}

/**
 * Raw NVAPI struct buffers: the version tag, little-endian 32-bit words,
 * the PStates20 layout arithmetic, and the request images the setters
 * build before handing a buffer to the driver.
 *
 * A buffer's contents are a `seq<Byte>`; the in-place writers (`W32`,
 * `WI32`, `NewBuffer`) work on an `array<Byte>` and are specified by the
 * pure functions over the sequence.
 */
module NvStruct {

  type Byte = b: int | 0 <= b < 256

  /** 2^32 and 2^31: the range of a uint32 and the sign bit of an int32. */
  const WORD: int := 0x1_0000_0000
  const HALF: int := 0x8000_0000

  predicate IsI32(v: int) { -HALF <= v < HALF }

  // ---------------------------------------------------------------------
  // Version tag and word codec
  // ---------------------------------------------------------------------

  /**
   * MAKE_NVAPI_VERSION: the struct size in the low 16 bits, the version
   * above them (`size | version << 16`, which is a sum for size < 2^16).
   */
  function MakeVersion(size: nat, version: nat): (tag: nat)
    requires size < 0x1_0000
    ensures tag % 0x1_0000 == size && tag / 0x1_0000 == version
  {
    size + version * 0x1_0000
  }

  /** `struct.unpack_from("<I", s, off)`. */
  function U32(s: seq<Byte>, off: int): (v: nat)
    requires 0 <= off && off + 4 <= |s|
    ensures v < WORD
  {
    s[off] as int + 0x100 * (s[off + 1] as int) + 0x1_0000 * (s[off + 2] as int)
      + 0x100_0000 * (s[off + 3] as int)
  }

  /** `struct.unpack_from("<i", s, off)`: the same bits read as two's complement. */
  function I32(s: seq<Byte>, off: int): (v: int)
    requires 0 <= off && off + 4 <= |s|
    ensures IsI32(v) && v % WORD == U32(s, off)
  {
    var u := U32(s, off);
    if u >= HALF then u - WORD else u
  }

  /** The four little-endian bytes of a uint32. */
  function Le32(v: nat): (r: seq<Byte>)
    requires v < WORD
    ensures |r| == 4
  {
    var b1 := v / 0x100;
    var b2 := b1 / 0x100;
    var b3 := b2 / 0x100;
    [v % 0x100, b1 % 0x100, b2 % 0x100, b3]
  }

  lemma Le32Value(v: nat)
    requires v < WORD
    ensures U32(Le32(v), 0) == v
  {
    var b1 := v / 0x100;
    var b2 := b1 / 0x100;
    assert v == 0x100 * b1 + v % 0x100;
    assert b1 == 0x100 * b2 + b1 % 0x100;
    assert b2 == 0x100 * (b2 / 0x100) + b2 % 0x100;
  }

  /**
   * `_w32`: `struct.pack_into("<I", s, off, value & 0xFFFFFFFF)`. Only the
   * four bytes at `off` change, and they read back as the value mod 2^32.
   */
  function WriteU32(s: seq<Byte>, off: int, value: int): (r: seq<Byte>)
    requires 0 <= off && off + 4 <= |s|
    ensures |r| == |s|
    ensures forall i :: 0 <= i < |s| && !(off <= i < off + 4) ==> r[i] == s[i]
    ensures U32(r, off) == value % WORD
  {
    var bytes := Le32(value % WORD);
    Le32Value(value % WORD);
    var r := s[..off] + bytes + s[off + 4..];
    assert r[off..off + 4] == bytes;
    r
  }

  /**
   * `_wi32`: `struct.pack_into("<i", …)`, which accepts only a signed
   * 32-bit value and then lays down the same bytes as the unsigned write.
   */
  function WriteI32(s: seq<Byte>, off: int, value: int): (r: seq<Byte>)
    requires 0 <= off && off + 4 <= |s|
    requires IsI32(value)
    ensures |r| == |s|
    ensures forall i :: 0 <= i < |s| && !(off <= i < off + 4) ==> r[i] == s[i]
    ensures I32(r, off) == value
  {
    WriteU32(s, off, value)
  }

  /** A zero-filled buffer of `size` bytes. */
  function Zeroes(size: nat): (r: seq<Byte>)
    ensures |r| == size
  {
    seq(size, _ => 0)
  }

  /**
   * `_buf(size, version)`: `size` bytes, all zero except word 0, which
   * holds the version tag.
   */
  function Blank(size: nat, version: nat): (r: seq<Byte>)
    requires 4 <= size < 0x1_0000
    ensures |r| == size
    ensures U32(r, 0) == MakeVersion(size, version) % WORD
    ensures U32(r, 0) % 0x1_0000 == size
    ensures forall i :: 4 <= i < size ==> r[i] == 0
  {
    var z := Zeroes(size);
    var r := WriteU32(z, 0, MakeVersion(size, version));
    VersionKeepsSize(size, version);
    forall i | 4 <= i < size ensures r[i] == 0 {
      assert r[i] == z[i];
    }
    r
  }

  /** The size survives the masking of the tag to 32 bits. */
  lemma VersionKeepsSize(size: nat, version: nat)
    requires size < 0x1_0000
    ensures (MakeVersion(size, version) % WORD) % 0x1_0000 == size
  {
    var t := MakeVersion(size, version);
    var q := t / WORD;
    assert t % WORD == size + 0x1_0000 * (version - 0x1_0000 * q);
    ModShift(size, version - 0x1_0000 * q);
  }

  lemma ModShift(a: int, k: int)
    requires 0 <= a < 0x1_0000
    ensures (a + 0x1_0000 * k) % 0x1_0000 == a
  {
  }

  // ---------------------------------------------------------------------
  // In-place buffer operations
  // ---------------------------------------------------------------------

  /** `_buf`: a fresh buffer holding `Blank(size, version)`. */
  method NewBuffer(size: nat, version: nat) returns (b: array<Byte>)
    requires 4 <= size < 0x1_0000
    ensures fresh(b) && b[..] == Blank(size, version)
  {
    b := new Byte[size](_ => 0);
    assert b[..] == Zeroes(size);
    W32(b, 0, MakeVersion(size, version));
  }

  /** `_w32` on a buffer in place. */
  method W32(b: array<Byte>, off: int, value: int)
    requires 0 <= off && off + 4 <= b.Length
    modifies b
    ensures b[..] == WriteU32(old(b[..]), off, value)
  {
    var bytes := Le32(value % WORD);
    b[off] := bytes[0];
    b[off + 1] := bytes[1];
    b[off + 2] := bytes[2];
    b[off + 3] := bytes[3];
    assert b[..] == old(b[..])[..off] + bytes + old(b[..])[off + 4..];
  }

  /** `_wi32` on a buffer in place. */
  method WI32(b: array<Byte>, off: int, value: int)
    requires 0 <= off && off + 4 <= b.Length
    requires IsI32(value)
    modifies b
    ensures b[..] == WriteI32(old(b[..]), off, value)
  {
    W32(b, off, value);
  }

  /** A word read from outside a write's four bytes is unaffected by the write. */
  lemma ReadPastWrite(s: seq<Byte>, off: int, value: int, o: int)
    requires 0 <= off && off + 4 <= |s| && 0 <= o && o + 4 <= |s|
    requires off + 4 <= o || o + 4 <= off
    ensures U32(WriteU32(s, off, value), o) == U32(s, o)
  {
    var r := WriteU32(s, off, value);
    assert r[o] == s[o] && r[o + 1] == s[o + 1] && r[o + 2] == s[o + 2] && r[o + 3] == s[o + 3];
  }

  /** Writes to two words that do not overlap can be made in either order. */
  lemma WritesCommute(s: seq<Byte>, o1: int, v1: int, o2: int, v2: int)
    requires 0 <= o1 && o1 + 4 <= |s| && 0 <= o2 && o2 + 4 <= |s|
    requires o1 + 4 <= o2 || o2 + 4 <= o1
    ensures WriteU32(WriteU32(s, o1, v1), o2, v2) == WriteU32(WriteU32(s, o2, v2), o1, v1)
  {
    var a := WriteU32(WriteU32(s, o1, v1), o2, v2);
    var b := WriteU32(WriteU32(s, o2, v2), o1, v1);
    var w1 := Le32(v1 % WORD);
    var w2 := Le32(v2 % WORD);
    forall i | 0 <= i < |s| ensures a[i] == b[i] {
      if o1 <= i < o1 + 4 {
        assert a[i] == WriteU32(s, o1, v1)[i] == w1[i - o1];
        assert b[i] == w1[i - o1];
      } else if o2 <= i < o2 + 4 {
        assert a[i] == w2[i - o2];
        assert b[i] == WriteU32(s, o2, v2)[i] == w2[i - o2];
      }
    }
  }

  // ---------------------------------------------------------------------
  // PStates20 layout
  // ---------------------------------------------------------------------

  const PSTATES20_V1_SIZE: nat := 7316
  const PSTATES20_V2_SIZE: nat := 7416
  const CLOCK_ENTRY_SIZE: nat := 44
  const VOLTAGE_ENTRY_SIZE: nat := 24
  const MAX_CLOCKS: nat := 8
  const MAX_VOLTAGES: nat := 4
  const MAX_PSTATES: nat := 16
  const PSTATE_SIZE: nat := 8 + MAX_CLOCKS * CLOCK_ENTRY_SIZE + MAX_VOLTAGES * VOLTAGE_ENTRY_SIZE

  const PS_NUM_PSTATES: nat := 8
  const PS_NUM_CLOCKS: nat := 12
  const PS_PSTATES_START: nat := 20

  const CK_DOMAIN: nat := 0
  const CK_TYPE: nat := 4
  const CK_DELTA_VAL: nat := 12
  const CK_DELTA_MIN: nat := 16
  const CK_DELTA_MAX: nat := 20

  /** Byte offset of `pStates[i]`. */
  function PstateOff(i: nat): nat { PS_PSTATES_START + i * PSTATE_SIZE }

  /** Byte offset of `pStates[p].clocks[c]`. */
  function ClockOff(p: nat, c: nat): nat { PstateOff(p) + 8 + c * CLOCK_ENTRY_SIZE }

  /** Byte offset of `pStates[p].baseVoltages[v]`. */
  function VoltOff(p: nat, v: nat): nat {
    PstateOff(p) + 8 + MAX_CLOCKS * CLOCK_ENTRY_SIZE + v * VOLTAGE_ENTRY_SIZE
  }

  /**
   * The layout constants close exactly: a pstate is 456 bytes, sixteen of
   * them after the 20-byte header end at the V1 size, and the last voltage
   * entry of the last pstate ends there too.
   */
  lemma PstatesFillV1()
    ensures PSTATE_SIZE == 456
    ensures PstateOff(MAX_PSTATES) == PSTATES20_V1_SIZE
    ensures VoltOff(MAX_PSTATES - 1, MAX_VOLTAGES - 1) + VOLTAGE_ENTRY_SIZE == PSTATES20_V1_SIZE
    ensures PSTATES20_V2_SIZE == PSTATES20_V1_SIZE + 100
  {
  }

  /**
   * A clock entry lies inside its pstate, after the pstate header and
   * before the first voltage entry; the last voltage entry ends where the
   * next pstate begins.
   */
  lemma ClockEntryInPstate(p: nat, c: nat)
    requires p < MAX_PSTATES && c < MAX_CLOCKS
    ensures PstateOff(p) + 8 <= ClockOff(p, c)
    ensures ClockOff(p, c) + CLOCK_ENTRY_SIZE <= VoltOff(p, 0)
    ensures VoltOff(p, MAX_VOLTAGES - 1) + VOLTAGE_ENTRY_SIZE == PstateOff(p + 1)
    ensures ClockOff(p, c) + CLOCK_ENTRY_SIZE <= PSTATES20_V1_SIZE
  {
  }

  /** Distinct (pstate, clock) pairs name disjoint 44-byte entries. */
  lemma ClockEntriesDisjoint(p1: nat, c1: nat, p2: nat, c2: nat)
    requires p1 < MAX_PSTATES && c1 < MAX_CLOCKS && p2 < MAX_PSTATES && c2 < MAX_CLOCKS
    requires (p1, c1) != (p2, c2)
    ensures ClockOff(p1, c1) + CLOCK_ENTRY_SIZE <= ClockOff(p2, c2)
         || ClockOff(p2, c2) + CLOCK_ENTRY_SIZE <= ClockOff(p1, c1)
  {
  }

  // ---------------------------------------------------------------------
  // Request images built by the setters
  // ---------------------------------------------------------------------

  /**
   * `_set_clock_offset`'s SetPstates20 V2 buffer: one pstate (P0) with one
   * clock entry for `domain`, single-frequency type, delta `offsetKhz`.
   */
  function ClockRequest(domain: int, offsetKhz: int): (r: seq<Byte>)
    requires IsI32(offsetKhz)
    ensures |r| == PSTATES20_V2_SIZE
  {
    var ck := ClockOff(0, 0);
    var b0 := Blank(PSTATES20_V2_SIZE, 2);
    var b1 := WriteU32(b0, PS_NUM_PSTATES, 1);
    var b2 := WriteU32(b1, PS_NUM_CLOCKS, 1);
    var b3 := WriteU32(b2, PstateOff(0), 0);
    var b4 := WriteU32(b3, ck + CK_DOMAIN, domain);
    var b5 := WriteU32(b4, ck + CK_TYPE, 0);
    WriteI32(b5, ck + CK_DELTA_VAL, offsetKhz)
  }

  /**
   * The clock request's words: the V2 tag, one pstate and one clock, pstate
   * id 0, the domain, type 0 and the signed delta.
   */
  lemma ClockRequestWords(domain: int, offsetKhz: int)
    requires IsI32(offsetKhz)
    ensures var r := ClockRequest(domain, offsetKhz);
      && U32(r, 0) == MakeVersion(PSTATES20_V2_SIZE, 2)
      && U32(r, PS_NUM_PSTATES) == 1 && U32(r, PS_NUM_CLOCKS) == 1
      && U32(r, PstateOff(0)) == 0
      && U32(r, ClockOff(0, 0) + CK_DOMAIN) == domain % WORD
      && U32(r, ClockOff(0, 0) + CK_TYPE) == 0
      && I32(r, ClockOff(0, 0) + CK_DELTA_VAL) == offsetKhz
  {
    var b0 := Blank(PSTATES20_V2_SIZE, 2);
    var b1 := WriteU32(b0, 8, 1);
    var b2 := WriteU32(b1, 12, 1);
    var b3 := WriteU32(b2, 20, 0);
    var b4 := WriteU32(b3, 28, domain);
    var b5 := WriteU32(b4, 32, 0);
    var r := WriteU32(b5, 40, offsetKhz);
    assert r == ClockRequest(domain, offsetKhz);
    ReadPastWrite(b0, 8, 1, 0);
    ReadPastWrite(b1, 12, 1, 0);
    ReadPastWrite(b1, 12, 1, 8);
    ReadPastWrite(b2, 20, 0, 0);
    ReadPastWrite(b2, 20, 0, 8);
    ReadPastWrite(b2, 20, 0, 12);
    ReadPastWrite(b3, 28, domain, 0);
    ReadPastWrite(b3, 28, domain, 8);
    ReadPastWrite(b3, 28, domain, 12);
    ReadPastWrite(b3, 28, domain, 20);
    ReadPastWrite(b4, 32, 0, 0);
    ReadPastWrite(b4, 32, 0, 8);
    ReadPastWrite(b4, 32, 0, 12);
    ReadPastWrite(b4, 32, 0, 20);
    ReadPastWrite(b4, 32, 0, 28);
    ReadPastWrite(b5, 40, offsetKhz, 0);
    ReadPastWrite(b5, 40, offsetKhz, 8);
    ReadPastWrite(b5, 40, offsetKhz, 12);
    ReadPastWrite(b5, 40, offsetKhz, 20);
    ReadPastWrite(b5, 40, offsetKhz, 28);
    ReadPastWrite(b5, 40, offsetKhz, 32);
  }

  /**
   * Every other byte of the clock request after the tag is zero: only the
   * two counts, the domain and the delta are non-zero words.
   */
  lemma ClockRequestZeroes(domain: int, offsetKhz: int)
    requires IsI32(offsetKhz)
    ensures var r := ClockRequest(domain, offsetKhz);
      forall i :: 4 <= i < |r| && !(8 <= i < 16) && !(28 <= i < 32) && !(40 <= i < 44) ==> r[i] == 0
  {
    var b0 := Blank(PSTATES20_V2_SIZE, 2);
    var b1 := WriteU32(b0, 8, 1);
    var b2 := WriteU32(b1, 12, 1);
    var b3 := WriteU32(b2, 20, 0);
    var b4 := WriteU32(b3, 28, domain);
    var b5 := WriteU32(b4, 32, 0);
    var r := WriteU32(b5, 40, offsetKhz);
    assert r == ClockRequest(domain, offsetKhz);
    forall i | 4 <= i < |r| && !(8 <= i < 16) && !(28 <= i < 32) && !(40 <= i < 44)
      ensures r[i] == 0
    {
      if 20 <= i < 24 {
        assert r[i] == b3[i] == Le32(0)[i - 20];
      } else if 32 <= i < 36 {
        assert r[i] == b5[i] == Le32(0)[i - 32];
      } else {
        assert r[i] == b0[i];
      }
    }
  }

  const POWER_STATUS_SIZE: nat := 72
  const POWER_INFO_SIZE: nat := 184
  const PWR_STATUS_COUNT: nat := 4
  const PWR_STATUS_POWER: nat := 12

  /** `_set_power_status`'s buffer: count 1, entry 0's power in PCM (masked). */
  function PowerRequest(pcm: int): (r: seq<Byte>)
    ensures |r| == POWER_STATUS_SIZE
  {
    var b := WriteU32(Blank(POWER_STATUS_SIZE, 1), PWR_STATUS_COUNT, 1);
    WriteU32(b, PWR_STATUS_POWER, pcm)
  }

  /** The power request's words: the V1 tag, count 1, the power masked to 32 bits, zeros after. */
  lemma PowerRequestLayout(pcm: int)
    ensures var r := PowerRequest(pcm);
      && U32(r, 0) == MakeVersion(POWER_STATUS_SIZE, 1)
      && U32(r, PWR_STATUS_COUNT) == 1
      && U32(r, PWR_STATUS_POWER) == pcm % WORD
      && forall i :: 8 <= i < |r| && !(12 <= i < 16) ==> r[i] == 0
  {
    var b0 := Blank(POWER_STATUS_SIZE, 1);
    var b1 := WriteU32(b0, 4, 1);
    var r := WriteU32(b1, 12, pcm);
    ReadPastWrite(b0, 4, 1, 0);
    ReadPastWrite(b1, 12, pcm, 0);
    ReadPastWrite(b1, 12, pcm, 4);
    forall i | 8 <= i < |r| && !(12 <= i < 16) ensures r[i] == 0 {
      assert r[i] == b1[i] == b0[i];
    }
  }

  /** `_get_power_status`: entry 0's power of a GetStatus buffer. */
  function PowerStatusOf(s: seq<Byte>): nat
    requires |s| == POWER_STATUS_SIZE
  {
    U32(s, PWR_STATUS_POWER)
  }

  /** The power word of a status request reads back as the PCM value. */
  lemma PowerRequestReadsBack(pcm: int)
    requires 0 <= pcm < WORD
    ensures PowerStatusOf(PowerRequest(pcm)) == pcm
  {
    PowerRequestLayout(pcm);
  }

  const THERMAL_LIMIT_SIZE: nat := 40
  const THERMAL_INFO_SIZE: nat := 88
  const THERMAL_LIMIT_COUNT: nat := 4
  const THERMAL_LIMIT_CONTROLLER: nat := 8
  const THERMAL_LIMIT_VALUE: nat := 12
  const THERMAL_LIMIT_FLAGS: nat := 16

  /**
   * `_set_thermal_limit`'s V2 buffer: count 1, controller 1, the
   * temperature shifted left by 8 (masked to 32 bits), priority flag.
   */
  function ThermalRequest(tempC: int, priority: bool): (r: seq<Byte>)
    ensures |r| == THERMAL_LIMIT_SIZE
  {
    var b1 := WriteU32(Blank(THERMAL_LIMIT_SIZE, 2), THERMAL_LIMIT_COUNT, 1);
    var b2 := WriteU32(b1, THERMAL_LIMIT_CONTROLLER, 1);
    var b3 := WriteU32(b2, THERMAL_LIMIT_VALUE, tempC * 0x100);
    WriteU32(b3, THERMAL_LIMIT_FLAGS, if priority then 1 else 0)
  }

  /**
   * The thermal request's words: the V2 tag, count 1, controller 1, the
   * shifted temperature, the priority flag, and zeros after them.
   */
  lemma ThermalRequestLayout(tempC: int, priority: bool)
    ensures var r := ThermalRequest(tempC, priority);
      && U32(r, 0) == MakeVersion(THERMAL_LIMIT_SIZE, 2)
      && U32(r, THERMAL_LIMIT_COUNT) == 1 && U32(r, THERMAL_LIMIT_CONTROLLER) == 1
      && U32(r, THERMAL_LIMIT_VALUE) == (tempC * 0x100) % WORD
      && U32(r, THERMAL_LIMIT_FLAGS) == (if priority then 1 else 0)
      && forall i :: 20 <= i < |r| ==> r[i] == 0
  {
    var flag := if priority then 1 else 0;
    var b0 := Blank(THERMAL_LIMIT_SIZE, 2);
    var b1 := WriteU32(b0, 4, 1);
    var b2 := WriteU32(b1, 8, 1);
    var b3 := WriteU32(b2, 12, tempC * 0x100);
    var r := WriteU32(b3, 16, flag);
    ReadPastWrite(b0, 4, 1, 0);
    ReadPastWrite(b1, 8, 1, 0);
    ReadPastWrite(b1, 8, 1, 4);
    ReadPastWrite(b2, 12, tempC * 0x100, 0);
    ReadPastWrite(b2, 12, tempC * 0x100, 4);
    ReadPastWrite(b2, 12, tempC * 0x100, 8);
    ReadPastWrite(b3, 16, flag, 0);
    ReadPastWrite(b3, 16, flag, 4);
    ReadPastWrite(b3, 16, flag, 8);
    ReadPastWrite(b3, 16, flag, 12);
    forall i | 20 <= i < |r| ensures r[i] == 0 {
      assert r[i] == b3[i] == b2[i] == b1[i] == b0[i];
    }
  }

  /** `_get_thermal_limit`: the value word shifted right by 8. */
  function ThermalLimitOf(s: seq<Byte>): nat
    requires |s| == THERMAL_LIMIT_SIZE
  {
    U32(s, THERMAL_LIMIT_VALUE) / 0x100
  }

  /**
   * The shift by 8 is undone on the way back: a temperature below 2^24
   * set with `_set_thermal_limit` reads back unchanged.
   */
  lemma ThermalRequestReadsBack(tempC: int, priority: bool)
    requires 0 <= tempC < 0x100_0000
    ensures ThermalLimitOf(ThermalRequest(tempC, priority)) == tempC
  {
    ThermalRequestLayout(tempC, priority);
    assert (tempC * 0x100) % WORD == tempC * 0x100;
  }

  const COOLER_LEVELS_SIZE: nat := 4 + 3 * 8
  const FAN_POLICY_MANUAL: nat := 1
  const FAN_POLICY_AUTO: nat := 32

  function Clamp(v: int, lo: int, hi: int): (r: int)
    requires lo <= hi
    ensures lo <= r <= hi
    ensures lo <= v <= hi ==> r == v
  {
    if v < lo then lo else if v > hi then hi else v
  }

  /** A SetCoolerLevels buffer with cooler 0 set to `level` under `policy`. */
  function CoolerRequest(level: nat, policy: nat): (r: seq<Byte>)
    requires level < WORD && policy < WORD
    ensures |r| == COOLER_LEVELS_SIZE
  {
    WriteU32(WriteU32(Blank(COOLER_LEVELS_SIZE, 1), 4, level), 8, policy)
  }

  /** The cooler request's words: the V1 tag, the level, the policy, zeros after. */
  lemma CoolerRequestLayout(level: nat, policy: nat)
    requires level < WORD && policy < WORD
    ensures var r := CoolerRequest(level, policy);
      && U32(r, 0) == MakeVersion(COOLER_LEVELS_SIZE, 1)
      && U32(r, 4) == level && U32(r, 8) == policy
      && forall i :: 12 <= i < |r| ==> r[i] == 0
  {
    var b0 := Blank(COOLER_LEVELS_SIZE, 1);
    var b1 := WriteU32(b0, 4, level);
    var r := WriteU32(b1, 8, policy);
    ReadPastWrite(b0, 4, level, 0);
    ReadPastWrite(b1, 8, policy, 0);
    ReadPastWrite(b1, 8, policy, 4);
    forall i | 12 <= i < |r| ensures r[i] == 0 {
      assert r[i] == b1[i] == b0[i];
    }
  }

  /** `_set_cooler_level`: the speed clamped to 0..100, manual policy. */
  function CoolerManual(speedPct: int): (r: seq<Byte>)
    ensures |r| == COOLER_LEVELS_SIZE
  {
    CoolerRequest(Clamp(speedPct, 0, 100), FAN_POLICY_MANUAL)
  }

  /**
   * The manual request never asks for more than 100%, asks for the speed
   * itself when it is a percentage, and sets the manual policy.
   */
  lemma CoolerManualLevel(speedPct: int)
    ensures U32(CoolerManual(speedPct), 4) <= 100
    ensures U32(CoolerManual(speedPct), 8) == FAN_POLICY_MANUAL
    ensures 0 <= speedPct <= 100 ==> U32(CoolerManual(speedPct), 4) == speedPct
  {
    CoolerRequestLayout(Clamp(speedPct, 0, 100), FAN_POLICY_MANUAL);
  }

  /** `_set_cooler_auto`: level 30 (ignored by the driver) under the auto policy. */
  function CoolerAuto(): (r: seq<Byte>)
    ensures |r| == COOLER_LEVELS_SIZE
  {
    CoolerRequest(30, FAN_POLICY_AUTO)
  }

  /** The auto request carries level 30 and the auto policy. */
  lemma CoolerAutoLevel()
    ensures U32(CoolerAuto(), 4) == 30 && U32(CoolerAuto(), 8) == FAN_POLICY_AUTO
  {
    CoolerRequestLayout(30, FAN_POLICY_AUTO);
  }
}

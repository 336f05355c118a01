/**
 * The wrappers of `kingai_gpu/lib/nvapi.py` below `_handle`: each method
 * takes the resolved function table and a handle slot, makes the native
 * calls its Python function makes, and is specified by the matching
 * function of `NvCalls`. Also here: what `get_oc_status` records in the
 * device cache, the fan request of `set_fan_speed` and `set_fan_auto`,
 * and the outcome `reset_all` reports.
 */
module NvApi {
  import opened Wrappers
  import opened NvStruct
  import opened NvProbe
  import opened Native
  import opened Retry
  import opened NvCalls
  import opened DeviceCache

  // ---------------------------------------------------------------------
  // What the device cache records and returns
  // ---------------------------------------------------------------------

  /**
   * `power_primary_ok`: the power reading differs from the `OcStatus`
   * defaults, in the current value or in the range.
   */
  predicate PowerPrimaryOk(s: OcStatus) {
    s.powerPcm != 100000 || s.powerRangePcm != (50000, 150000)
  }

  /**
   * The entry `_save_probe_to_cache` stores for a status: its identity,
   * the power flag, no thermal shift, the session's fan API and the
   * timestamp, every other field at its default.
   */
  function ProbeEntry(s: OcStatus, driverVersion: string, fanApi: Option<string>, cachedAt: string): (e: GpuCacheEntry)
    ensures EntryKey(e) == CacheKey(s.gpuName, s.busId, driverVersion)
    ensures e.powerPrimaryOk.Some? && e.thermalShifted.None? && e.fanApi == fanApi
  {
    DefaultEntry().(gpuName := s.gpuName, busId := s.busId, driverVersion := driverVersion,
                    powerPrimaryOk := Some(PowerPrimaryOk(s)), thermalShifted := None,
                    fanApi := fanApi, cachedAt := cachedAt)
  }

  /**
   * What `_get_cached_fan_api` takes from the cache: nothing without a
   * name or a driver version; otherwise the stored entry's fan API when
   * it is a non-empty string.
   */
  function StoredFanApi(entries: map<string, GpuCacheEntry>, gpuName: string, busId: int, driverVersion: string)
    : (r: Option<string>)
    ensures r.Some? ==> r.value != "" && gpuName != "" && driverVersion != ""
    ensures r.Some? ==> (CacheKey(gpuName, busId, driverVersion) in entries
                         && entries[CacheKey(gpuName, busId, driverVersion)].fanApi == r)
  {
    if gpuName == "" || driverVersion == "" then None
    else match Get(entries, CacheKey(gpuName, busId, driverVersion))
      case None => None
      case Some(e) => if e.fanApi.Some? && e.fanApi.value != "" then e.fanApi else None
  }

  /**
   * The fan API noted in one session survives to the next: the entry saved
   * with the status, written to disk and loaded back, gives the noted API
   * to the lookup the next session makes for the same GPU and driver.
   */
  lemma NotedFanApiPersists(entries: map<string, GpuCacheEntry>, s: OcStatus, driverVersion: string,
                            api: string, cachedAt: string)
    requires s.gpuName != "" && driverVersion != "" && api != ""
    ensures var e := ProbeEntry(s, driverVersion, Some(api), cachedAt);
      StoredFanApi(LoadedEntries(Parsed(Serialize(entries[EntryKey(e) := e]))).value, s.gpuName, s.busId, driverVersion)
        == Some(api)
  {
    var e := ProbeEntry(s, driverVersion, Some(api), cachedAt);
    PersistedEntryFound(entries, e);
  }

  /**
   * A status with the default power reading is recorded as "primary
   * offsets not ok", and any other power value as ok.
   */
  lemma DefaultPowerNotPrimary(s: OcStatus, driverVersion: string, fanApi: Option<string>, cachedAt: string)
    ensures ProbeEntry(s, driverVersion, fanApi, cachedAt).powerPrimaryOk
      == Some(!(s.powerPcm == 100000 && s.powerRangePcm == (50000, 150000)))
  {
  }

  /**
   * `_get_cached_fan_api` past the in-session memo: the name and the bus
   * id (a handle error is swallowed and gives None), then the stored
   * preference for that GPU and driver.
   */
  function FanApiLookup(env: Env, n: nat, h: Result<nat, Error>, entries: map<string, GpuCacheEntry>,
                        driverVersion: string): (e: Effect<Option<string>>)
    ensures h.Failure? ==> e == Effect(None, [])
    ensures e.result.Some? ==> e.result.value != ""
  {
    if h.Failure? then Effect(None, [])
    else
      var name := NameEffect(env, n, h);
      var bus := BusEffect(env, n + |name.calls|, h);
      Effect(StoredFanApi(entries, name.result.value, bus.result.value, driverVersion), name.calls + bus.calls)
  }

  /**
   * The end of `reset_all`, given the names of the settings steps that
   * failed, an exception other than NvApiError that escaped them, and how
   * its `set_fan_auto` step ended: the escaped exception propagates, and
   * so does a fan exception other than NvApiError; otherwise the single
   * `NvApiError("reset_all", -1)` is raised when any step failed.
   */
  function ResetOutcome(errors: seq<string>, raised: Option<Error>, fan: Outcome<Error>): (out: Outcome<Error>)
    ensures raised.Some? ==> out == Fail(raised.value)
    ensures out.Pass? ==> raised.None? && errors == [] && fan.Pass?
  {
    if raised.Some? then Fail(raised.value)
    else if fan.Fail? && !fan.error.NvApiError? then fan
    else
      var all := errors + (if fan.Fail? then ["fan"] else []);
      if all == [] then Pass else Fail(NvApiError("reset_all", -1))
  }

  /**
   * `reset_all` raises its own error exactly when one of the five steps
   * failed with an NvApiError: when one of the four settings steps is
   * recorded (`ResetErrorsIff` says which) or the fan step failed; it
   * never passes on a step's own NvApiError.
   */
  lemma ResetOutcomeIff(errors: seq<string>, fan: Outcome<Error>)
    requires !(fan.Fail? && !fan.error.NvApiError?)
    ensures var out := ResetOutcome(errors, None, fan);
      out == Fail(NvApiError("reset_all", -1)) <==> errors != [] || fan.Fail?
    ensures var out := ResetOutcome(errors, None, fan);
      out.Pass? <==> errors == [] && fan.Pass?
  {
    var all := errors + (if fan.Fail? then ["fan"] else []);
    assert all == [] <==> errors == [] && fan.Pass?;
  }

  // ---------------------------------------------------------------------
  // Buffers, built in place
  // ---------------------------------------------------------------------

  /** The count word handed to EnumPhysicalGPUs, and what the driver leaves in it. */
  method EnumerateGpus(driver: Driver, count0: nat) returns (status: int, count: nat)
    requires count0 < WORD
    modifies driver
    ensures var reply := old(driver.Next(EnumCall(count0)));
      && driver.log == old(driver.log) + [EnumCall(count0)]
      && status == reply.status
      && count == U32(Filled(Le32(count0), reply), 0)
  {
    var word := Le32(count0);
    var b := new Byte[4](i requires 0 <= i < 4 => word[i]);
    assert b[..] == word;
    status := driver.Query(EnumPhysicalGpus, 0, b);
    count := U32(b[..], 0);
  }

  /** A zero-filled `ctypes.create_string_buffer`. */
  method ZeroBuffer(size: nat) returns (b: array<Byte>)
    ensures fresh(b) && b[..] == Zeroes(size)
  {
    b := new Byte[size](_ => 0);
  }

  /** `_set_clock_offset`'s writes into a fresh V2 buffer. */
  method BuildClockRequest(domain: int, offsetKhz: int) returns (b: array<Byte>)
    requires IsI32(offsetKhz)
    ensures fresh(b) && b[..] == ClockRequest(domain, offsetKhz)
  {
    b := NewBuffer(PSTATES20_V2_SIZE, 2);
    W32(b, PS_NUM_PSTATES, 1);
    W32(b, PS_NUM_CLOCKS, 1);
    W32(b, PstateOff(0), 0);
    var ck := ClockOff(0, 0);
    W32(b, ck + CK_DOMAIN, domain);
    W32(b, ck + CK_TYPE, 0);
    WI32(b, ck + CK_DELTA_VAL, offsetKhz);
  }

  /** `_set_power_status`'s writes. */
  method BuildPowerRequest(pcm: int) returns (b: array<Byte>)
    ensures fresh(b) && b[..] == PowerRequest(pcm)
  {
    b := NewBuffer(POWER_STATUS_SIZE, 1);
    W32(b, PWR_STATUS_COUNT, 1);
    W32(b, PWR_STATUS_POWER, pcm);
  }

  /** `_set_thermal_limit`'s writes. */
  method BuildThermalRequest(tempC: int, priority: bool) returns (b: array<Byte>)
    ensures fresh(b) && b[..] == ThermalRequest(tempC, priority)
  {
    b := NewBuffer(THERMAL_LIMIT_SIZE, 2);
    W32(b, THERMAL_LIMIT_COUNT, 1);
    W32(b, THERMAL_LIMIT_CONTROLLER, 1);
    W32(b, THERMAL_LIMIT_VALUE, tempC * 0x100);
    W32(b, THERMAL_LIMIT_FLAGS, if priority then 1 else 0);
  }

  /** The SetCoolerLevels writes of `_set_cooler_level` and `_set_cooler_auto`. */
  method BuildCoolerRequest(level: nat, policy: nat) returns (b: array<Byte>)
    requires level < WORD && policy < WORD
    ensures fresh(b) && b[..] == CoolerRequest(level, policy)
  {
    b := NewBuffer(COOLER_LEVELS_SIZE, 1);
    W32(b, 4, level);
    W32(b, 8, policy);
  }

  /**
   * The loop of `_set_fan_new_api` over the fan entries: level and mode
   * written into each entry whose two words fit the buffer.
   */
  method WriteFanEntries(b: array<Byte>, count: nat, entrySize: nat, level: nat, mode: nat)
    modifies b
    ensures b[..] == FanWritten(old(b[..]), entrySize, level, mode, count)
  {
    ghost var s0 := b[..];
    var i := 0;
    while i < count
      invariant i <= count
      invariant b[..] == FanWritten(s0, entrySize, level, mode, i)
    {
      WriteFanEntry(b, i, entrySize, level, mode);
      i := i + 1;
    }
  }

  /** One pass of that loop: entry `i` is written when its two words fit. */
  method WriteFanEntry(b: array<Byte>, i: nat, entrySize: nat, level: nat, mode: nat)
    modifies b
    ensures var lo := LevelOff(i, entrySize);
      b[..] == if lo + 8 <= b.Length then WriteEntry(old(b[..]), lo, level, mode) else old(b[..])
  {
    var levelOff := LevelOff(i, entrySize);
    if levelOff + 8 <= b.Length {
      WriteEntryAt(b, levelOff, level, mode);
    }
  }

  /** One pass of that loop that fits: `_w32` of the level, then of the mode. */
  method WriteEntryAt(b: array<Byte>, levelOff: nat, level: nat, mode: nat)
    requires levelOff + 8 <= b.Length
    modifies b
    ensures b[..] == WriteEntry(old(b[..]), levelOff, level, mode)
  {
    W32(b, levelOff, level);
    W32(b, levelOff + 4, mode);
  }

  // ---------------------------------------------------------------------
  // The wrappers past `_handle`: a resolved table, a handle slot, a driver
  // ---------------------------------------------------------------------

  /** `fn = _fn.get(name)`, -3 when None, then `_check(name, fn(h, buf))`; the driver fills `buf`. */
  method CallGet(driver: Driver, fns: set<Fn>, f: Fn, slot: nat, buf: array<Byte>) returns (out: Outcome<Error>)
    modifies driver, buf
    ensures var g := old(GetEffect(Env(fns, driver.respond), |driver.log|, f, slot, buf[..]));
      && driver.log == old(driver.log) + g.calls
      && (g.result.Success? ==> out == Pass && buf[..] == g.result.value)
      && (g.result.Failure? ==> out == Fail(g.result.error))
  {
    if f !in fns {
      return Fail(NvApiError(f.Name(), -3));
    }
    var status := driver.Query(f, slot, buf);
    out := if status != 0 then Fail(NvApiError(f.Name(), status)) else Pass;
  }

  /** `fn = _fn.get(name)`, -3 when None, then `_check_set(name, fn, …)`. */
  method CallSet(driver: Driver, fns: set<Fn>, c: NativeCall) returns (out: Outcome<Error>)
    modifies driver
    ensures var e := SetEffect(Env(fns, driver.respond), old(|driver.log|), c);
      out == e.result && driver.log == old(driver.log) + e.calls
  {
    if c.op !in fns {
      return Fail(NvApiError(c.op.Name(), -3));
    }
    ghost var st := Statuses(driver.respond, |driver.log|, c);
    ghost var slept;
    out, slept := CheckSet(driver, c.op.Name(), c, DEFAULT_MAX_RETRIES);
    RunCharacterised(st, DEFAULT_MAX_RETRIES);
  }

  /** `_get_gpu_name` past its handle. */
  method ReadGpuName(driver: Driver, fns: set<Fn>, slot: nat) returns (name: string)
    modifies driver
    ensures var e := NameEffect(Env(fns, driver.respond), old(|driver.log|), Success(slot));
      e.result == Success(name) && driver.log == old(driver.log) + e.calls
  {
    var b := ZeroBuffer(NAME_BUFFER_SIZE);
    name := UNKNOWN_GPU;
    if GetFullName in fns {
      var o := CallGet(driver, fns, GetFullName, slot, b);
      if o.Pass? {
        name := CString(b[..]);
      }
    }
  }

  /** `_get_bus_id` past its handle. */
  method ReadBusId(driver: Driver, fns: set<Fn>, slot: nat) returns (busId: nat)
    modifies driver
    ensures var e := BusEffect(Env(fns, driver.respond), old(|driver.log|), Success(slot));
      e.result == Success(busId) && driver.log == old(driver.log) + e.calls
  {
    var b := ZeroBuffer(4);
    busId := 0;
    if Fn.GetBusId in fns {
      var o := CallGet(driver, fns, Fn.GetBusId, slot, b);
      if o.Pass? {
        busId := U32(b[..], 0);
      }
    }
  }

  /**
   * `_get_cached_fan_api` past its handle: the name, the bus id (whose
   * own `_handle` returns the same slot), then the stored preference.
   */
  method ReadStoredFanApi(driver: Driver, fns: set<Fn>, slot: nat, entries: map<string, GpuCacheEntry>,
                          driverVersion: string) returns (api: Option<string>)
    modifies driver
    ensures var e := FanApiLookup(Env(fns, driver.respond), old(|driver.log|), Success(slot), entries, driverVersion);
      api == e.result && driver.log == old(driver.log) + e.calls
  {
    var name := ReadGpuName(driver, fns, slot);
    var busId := ReadBusId(driver, fns, slot);
    api := StoredFanApi(entries, name, busId, driverVersion);
  }

  /** `_get_pstates20` past its handle. */
  method ReadPstates(driver: Driver, fns: set<Fn>, slot: nat) returns (r: Result<seq<Byte>, Error>)
    modifies driver
    ensures var e := PstatesEffect(Env(fns, driver.respond), old(|driver.log|), Success(slot));
      r == e.result && driver.log == old(driver.log) + e.calls
  {
    var b := NewBuffer(PSTATES20_V1_SIZE, 1);
    var o := CallGet(driver, fns, Fn.GetPstates20, slot, b);
    r := if o.Pass? then Success(b[..]) else Failure(o.error);
  }

  /** `_get_power_status` past its handle. */
  method ReadPowerStatus(driver: Driver, fns: set<Fn>, slot: nat) returns (r: Result<nat, Error>)
    modifies driver
    ensures var e := PowerStatusEffect(Env(fns, driver.respond), old(|driver.log|), Success(slot));
      r == e.result && driver.log == old(driver.log) + e.calls
  {
    var b := NewBuffer(POWER_STATUS_SIZE, 1);
    var o := CallGet(driver, fns, PowerGetStatus, slot, b);
    r := if o.Pass? then Success(PowerStatusOf(b[..])) else Failure(o.error);
  }

  /** `_get_power_info` past its handle. */
  method ReadPowerInfo(driver: Driver, fns: set<Fn>, slot: nat) returns (r: Result<(nat, nat, nat), Error>)
    modifies driver
    ensures var e := PowerInfoEffect(Env(fns, driver.respond), old(|driver.log|), Success(slot));
      r == e.result && driver.log == old(driver.log) + e.calls
  {
    var b := NewBuffer(POWER_INFO_SIZE, 1);
    var o := CallGet(driver, fns, PowerGetInfo, slot, b);
    if o.Pass? {
      var info := ProbePowerInfo(b[..]);
      r := Success(info);
    } else {
      r := Failure(o.error);
    }
  }

  /** `_get_thermal_limit` past its handle. */
  method ReadThermalLimit(driver: Driver, fns: set<Fn>, slot: nat) returns (r: Result<nat, Error>)
    modifies driver
    ensures var e := ThermalLimitEffect(Env(fns, driver.respond), old(|driver.log|), Success(slot));
      r == e.result && driver.log == old(driver.log) + e.calls
  {
    var b := NewBuffer(THERMAL_LIMIT_SIZE, 2);
    var o := CallGet(driver, fns, ThermalGetLimit, slot, b);
    r := if o.Pass? then Success(ThermalLimitOf(b[..])) else Failure(o.error);
  }

  /** `_get_thermal_info` past its handle. */
  method ReadThermalInfo(driver: Driver, fns: set<Fn>, slot: nat) returns (r: Result<(nat, nat, nat), Error>)
    modifies driver
    ensures var e := ThermalInfoEffect(Env(fns, driver.respond), old(|driver.log|), Success(slot));
      r == e.result && driver.log == old(driver.log) + e.calls
  {
    var b := NewBuffer(THERMAL_INFO_SIZE, 1);
    var o := CallGet(driver, fns, ThermalGetInfo, slot, b);
    if o.Pass? {
      var info := ProbeThermalInfo(b[..]);
      r := Success(info);
    } else {
      r := Failure(o.error);
    }
  }

  /**
   * `_set_clock_offset` past its handle. `struct.pack` raises on the
   * delta after the other fields are written; the half-built buffer is
   * dropped, so checking the range first has the same effect.
   */
  method WriteClockOffset(driver: Driver, fns: set<Fn>, slot: nat, domain: int, offsetKhz: int, ghost n: nat)
    returns (out: Outcome<Error>)
    requires n == |driver.log|
    modifies driver
    ensures var e := ClockOffsetEffect(Env(fns, driver.respond), n, Success(slot), domain, offsetKhz);
      out == e.result && driver.log == old(driver.log) + e.calls
  {
    if !IsI32(offsetKhz) {
      return Fail(StructError);
    }
    var b := BuildClockRequest(domain, offsetKhz);
    out := CallSet(driver, fns, NativeCall(SetPstates20, slot, 0, b[..]));
  }

  /** `_set_power_status` past its handle. */
  method WritePowerStatus(driver: Driver, fns: set<Fn>, slot: nat, pcm: int) returns (out: Outcome<Error>)
    modifies driver
    ensures var e := PowerSetEffect(Env(fns, driver.respond), old(|driver.log|), Success(slot), pcm);
      out == e.result && driver.log == old(driver.log) + e.calls
  {
    var b := BuildPowerRequest(pcm);
    out := CallSet(driver, fns, NativeCall(PowerSetStatus, slot, 0, b[..]));
  }

  /** `_set_thermal_limit` past its handle. */
  method WriteThermalLimit(driver: Driver, fns: set<Fn>, slot: nat, tempC: int, priority: bool)
    returns (out: Outcome<Error>)
    modifies driver
    ensures var e := ThermalSetEffect(Env(fns, driver.respond), old(|driver.log|), Success(slot), tempC, priority);
      out == e.result && driver.log == old(driver.log) + e.calls
  {
    var b := BuildThermalRequest(tempC, priority);
    out := CallSet(driver, fns, NativeCall(ThermalSetLimit, slot, 0, b[..]));
  }

  /** `_set_cooler_level(speed_pct, 0, gpu)` past its handle. */
  method WriteCoolerLevel(driver: Driver, fns: set<Fn>, slot: nat, speedPct: int) returns (out: Outcome<Error>)
    modifies driver
    ensures var e := CoolerLevelEffect(Env(fns, driver.respond), old(|driver.log|), Success(slot), speedPct);
      out == e.result && driver.log == old(driver.log) + e.calls
  {
    var b := BuildCoolerRequest(Clamp(speedPct, 0, 100), FAN_POLICY_MANUAL);
    out := CallSet(driver, fns, CoolerCall(slot, b[..]));
  }

  /** `_set_cooler_auto(0, gpu)` past its handle. */
  method WriteCoolerAuto(driver: Driver, fns: set<Fn>, slot: nat) returns (out: Outcome<Error>)
    modifies driver
    ensures var e := CoolerAutoEffect(Env(fns, driver.respond), old(|driver.log|), Success(slot));
      out == e.result && driver.log == old(driver.log) + e.calls
  {
    var b := BuildCoolerRequest(30, FAN_POLICY_AUTO);
    out := CallSet(driver, fns, CoolerCall(slot, b[..]));
  }

  /**
   * `_set_fan_new_api` past its handle: GetControl, the layout checks, the
   * entry loop and SetControl, with the legacy level call as its fallback.
   * The fallback's own `_handle` finds the module initialised and returns
   * the same slot without a native call.
   */
  method WriteFanNewApi(driver: Driver, fns: set<Fn>, slot: nat, speedPct: int, manual: bool)
    returns (out: Outcome<Error>)
    modifies driver
    ensures var e := FanNewApiEffect(Env(fns, driver.respond), old(|driver.log|), Success(slot), speedPct, manual);
      out == e.result && driver.log == old(driver.log) + e.calls
  {
    if FanGetControl !in fns || FanSetControl !in fns {
      out := WriteCoolerLevel(driver, fns, slot, speedPct);
    } else {
      out := FanGetModifySet(driver, fns, slot, speedPct, manual);
    }
  }

  /** The get-modify-set of `_set_fan_new_api`, both fan functions being resolved. */
  method FanGetModifySet(driver: Driver, fns: set<Fn>, slot: nat, speedPct: int, manual: bool)
    returns (out: Outcome<Error>)
    requires FanGetControl in fns && FanSetControl in fns
    modifies driver
    ensures var e := FanNewApiEffect(Env(fns, driver.respond), old(|driver.log|), Success(slot), speedPct, manual);
      out == e.result && driver.log == old(driver.log) + e.calls
  {
    ghost var env := Env(fns, driver.respond);
    ghost var g := GetEffect(env, |driver.log|, FanGetControl, slot, Blank(FAN_CONTROL_SIZE, 1));
    var b := NewBuffer(FAN_CONTROL_SIZE, 1);
    var o := CallGet(driver, fns, FanGetControl, slot, b);
    ghost var mid := driver.log;
    assert mid == old(driver.log) + g.calls;
    out := FanModifyOrFallBack(driver, fns, slot, b, o.Pass?, speedPct, manual);
    assert driver.log == old(driver.log) + g.calls + (driver.log[|mid|..]);
  }

  /** What follows GetControl: the legacy call, or the entries modified and SetControl. */
  method FanModifyOrFallBack(driver: Driver, fns: set<Fn>, slot: nat, b: array<Byte>, got: bool, speedPct: int, manual: bool)
    returns (out: Outcome<Error>)
    requires b.Length == FAN_CONTROL_SIZE
    modifies driver, b
    ensures var e := FanAfterGet(Env(fns, driver.respond), old(|driver.log|), slot,
                                 if got then Some(old(b[..])) else None, speedPct, manual);
      out == e.result && driver.log == old(driver.log) + e.calls
  {
    var layout := if got then FanLayoutOf(b[..]) else Unusable;
    if layout.Unusable? {
      out := WriteCoolerLevel(driver, fns, slot, speedPct);
    } else {
      out := FanModifySet(driver, fns, slot, b, layout, speedPct, manual);
    }
  }

  /** The loop over the fan entries of a usable layout, then SetControl with the result. */
  method FanModifySet(driver: Driver, fns: set<Fn>, slot: nat, b: array<Byte>, layout: FanLayout, speedPct: int, manual: bool)
    returns (out: Outcome<Error>)
    requires layout.Entries?
    modifies driver, b
    ensures var c := NativeCall(FanSetControl, slot, 0, FanControlBuffer(old(b[..]), layout, speedPct, manual));
      var e := SetEffect(Env(fns, driver.respond), old(|driver.log|), c);
      out == e.result && driver.log == old(driver.log) + e.calls
  {
    WriteFanEntries(b, layout.count, layout.entrySize, Clamp(speedPct, 0, 100), if manual then 1 else 0);
    out := CallSet(driver, fns, NativeCall(FanSetControl, slot, 0, b[..]));
  }

  // ---------------------------------------------------------------------
  // get_oc_status past its handle
  // ---------------------------------------------------------------------

  /** The clock block: both deltas from one PStates20 read, or the status as it was. */
  method ReadClocksBlock(driver: Driver, fns: set<Fn>, slot: nat, s: OcStatus, ghost n: nat) returns (t: OcStatus)
    requires n == |driver.log|
    modifies driver
    ensures var e := ClocksRead(Env(fns, driver.respond), n, slot, s);
      t == e.result && driver.log == old(driver.log) + e.calls
  {
    hide PstatesEffect, ClockDelta;
    var g := ReadPstates(driver, fns, slot);
    t := WithClocks(s, g);
  }

  /** The power block: status, then info, kept only when the default is positive. */
  method ReadPowerBlock(driver: Driver, fns: set<Fn>, slot: nat, s: OcStatus, ghost n: nat) returns (t: OcStatus)
    requires n == |driver.log|
    modifies driver
    ensures var e := PowerRead(Env(fns, driver.respond), n, slot, s);
      t == e.result && driver.log == old(driver.log) + e.calls
  {
    hide PowerStatusEffect, PowerInfoEffect;
    t := s;
    var st := ReadPowerStatus(driver, fns, slot);
    if st.Success? {
      var info := ReadPowerInfo(driver, fns, slot);
      t := WithPower(s, st, info);
    }
  }

  /** The thermal-limit block. */
  method ReadThermalLimitBlock(driver: Driver, fns: set<Fn>, slot: nat, s: OcStatus, ghost n: nat) returns (t: OcStatus)
    requires n == |driver.log|
    modifies driver
    ensures var e := ThermalLimitRead(Env(fns, driver.respond), n, slot, s);
      t == e.result && driver.log == old(driver.log) + e.calls
  {
    hide ThermalLimitEffect;
    var g := ReadThermalLimit(driver, fns, slot);
    t := WithThermalLimit(s, g);
  }

  /** The thermal-range block. */
  method ReadThermalRangeBlock(driver: Driver, fns: set<Fn>, slot: nat, s: OcStatus, ghost n: nat) returns (t: OcStatus)
    requires n == |driver.log|
    modifies driver
    ensures var e := ThermalRangeRead(Env(fns, driver.respond), n, slot, s);
      t == e.result && driver.log == old(driver.log) + e.calls
  {
    hide ThermalInfoEffect;
    var g := ReadThermalInfo(driver, fns, slot);
    t := WithThermalRange(s, g);
  }

  /** The two thermal blocks in order, from call number `n`. */
  method ReadThermalBlocks(driver: Driver, fns: set<Fn>, slot: nat, s: OcStatus, ghost n: nat) returns (t: OcStatus)
    requires n == |driver.log|
    modifies driver
    ensures var e := ThermalReads(Env(fns, driver.respond), n, slot, s);
      t == e.result && driver.log == old(driver.log) + e.calls
  {
    hide ThermalLimitRead, ThermalRangeRead;
    ghost var log0 := driver.log;
    var l := ReadThermalLimitBlock(driver, fns, slot, s, n);
    ghost var first := ThermalLimitRead(Env(fns, driver.respond), n, slot, s);
    t := ReadThermalRangeBlock(driver, fns, slot, l, n + |first.calls|);
    Regroup(log0, first.calls, driver.log[n + |first.calls|..]);
  }

  /** The power block, then the thermal blocks, from call number `n`. */
  method ReadPowerOnward(driver: Driver, fns: set<Fn>, slot: nat, s: OcStatus, ghost n: nat) returns (t: OcStatus)
    requires n == |driver.log|
    modifies driver
    ensures var e := PowerOnward(Env(fns, driver.respond), n, slot, s);
      t == e.result && driver.log == old(driver.log) + e.calls
  {
    hide PowerRead, ThermalReads;
    ghost var log0 := driver.log;
    var p := ReadPowerBlock(driver, fns, slot, s, n);
    ghost var first := PowerRead(Env(fns, driver.respond), n, slot, s);
    t := ReadThermalBlocks(driver, fns, slot, p, n + |first.calls|);
    Regroup(log0, first.calls, driver.log[n + |first.calls|..]);
  }

  /** The four blocks in order, each starting from what the one before left. */
  method ReadBlocks(driver: Driver, fns: set<Fn>, slot: nat, s: OcStatus, ghost n: nat) returns (t: OcStatus)
    requires n == |driver.log|
    modifies driver
    ensures var e := OcReadings(Env(fns, driver.respond), n, slot, s);
      t == e.result && driver.log == old(driver.log) + e.calls
  {
    hide ClocksRead, PowerOnward;
    ghost var log0 := driver.log;
    var c := ReadClocksBlock(driver, fns, slot, s, n);
    ghost var first := ClocksRead(Env(fns, driver.respond), n, slot, s);
    t := ReadPowerOnward(driver, fns, slot, c, n + |first.calls|);
    Regroup(log0, first.calls, driver.log[n + |first.calls|..]);
  }

  /** `get_oc_status` past its handle and without the cache save. */
  method ReadOcStatus(driver: Driver, fns: set<Fn>, slot: nat) returns (s: OcStatus)
    modifies driver
    ensures var e := OcStatusEffect(Env(fns, driver.respond), old(|driver.log|), Success(slot));
      e.result == Success(s) && driver.log == old(driver.log) + e.calls
  {
    hide NameEffect, BusEffect, OcReadings;
    var name := ReadGpuName(driver, fns, slot);
    var busId := ReadBusId(driver, fns, slot);
    s := ReadBlocks(driver, fns, slot, DEFAULT_STATUS.(gpuName := name, busId := busId), |driver.log|);
  }
}

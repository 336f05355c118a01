/**
 * The module-level state of `kingai_gpu/lib/nvapi.py` as one object:
 * `_initialized`, the function table `_fn` and the count `_gpu_count`
 * that `_init` fills, the in-session memo `_session_fan_api` and the
 * lazily loaded `_device_cache`. Every method does what its Python
 * function does, against a `Driver` and a `CacheDisk`, and its contract
 * is the matching function of `NvCalls` or `NvApi` run from the state the
 * method starts in.
 */
module NvSession {
  import opened Wrappers
  import opened NvStruct
  import opened Native
  import opened NvCalls
  import opened DeviceCache
  import opened NvApi

  /** The memo after `_session_fan_api[gpu] = api` when there is an API to note. */
  function Noted(memo: map<int, string>, gpu: int, api: Option<string>): (m: map<int, string>)
    ensures api.Some? ==> gpu in m && m[gpu] == api.value
    ensures forall g :: g != gpu ==> Get(m, g) == Get(memo, g)
  {
    if api.Some? then memo[gpu := api.value] else memo
  }

  /**
   * `_get_cached_fan_api(gpu)`: the memo answers without a call; a cache
   * whose load raises (`cache` None) gives None before any call;
   * otherwise the stored preference is looked up with the handle `h`.
   */
  function CachedFanApi(env: Env, n: nat, h: Result<nat, Error>, memo: map<int, string>,
                        cache: Option<map<string, GpuCacheEntry>>, driverVersion: string, gpu: int)
    : (e: Effect<Option<string>>)
    ensures gpu in memo ==> e == Effect(Some(memo[gpu]), [])
    ensures gpu !in memo && (h.Failure? || cache.None?) ==> e == Effect(None, [])
  {
    if gpu in memo then Effect(Some(memo[gpu]), [])
    else if cache.None? then Effect(None, [])
    else FanApiLookup(env, n, h, cache.value, driverVersion)
  }

  class Session {
    const driver: Driver
    const disk: CacheDisk
    /** What `_get_driver_version` reports for the session; "" without NVML. */
    const driverVersion: string

    var initialized: bool
    var fns: set<Fn>
    var gpuCount: nat
    var sessionFanApi: map<int, string>
    var deviceCache: GpuCache?

    /** `_gpu_count` is a `c_uint`. */
    predicate Valid()
      reads `gpuCount
    {
      gpuCount < WORD
    }

    /** The state at import: nothing initialised, an empty memo, no cache loaded. */
    constructor (driver: Driver, disk: CacheDisk, driverVersion: string)
      ensures Valid()
      ensures this.driver == driver && this.disk == disk && this.driverVersion == driverVersion
      ensures !initialized && fns == {} && gpuCount == 0 && sessionFanApi == map[] && deviceCache == null
    {
      this.driver := driver;
      this.disk := disk;
      this.driverVersion := driverVersion;
      initialized := false;
      fns := {};
      gpuCount := 0;
      sessionFanApi := map[];
      deviceCache := null;
    }

    /** What `_handle(gpu)` would do now. */
    function HandleNow(gpu: int): HandleRun
      requires Valid()
      reads `initialized, `fns, `gpuCount, driver
    {
      HandleEffect(driver.exports, driver.respond, |driver.log|, initialized, fns, gpuCount, gpu)
    }

    /** The initialisation state a `_handle` leaves. */
    predicate Left(hr: HandleRun)
      reads `initialized, `fns, `gpuCount
    {
      initialized == hr.initialized && fns == hr.fns && gpuCount == hr.count
    }

    /** The wrappers' view once a `_handle` has left `hr`. */
    function EnvOf(hr: HandleRun): Env {
      Env(hr.fns, driver.respond)
    }

    /**
     * The entries `_get_cached_fan_api` and `_save_probe_to_cache` see: the
     * loaded cache, or what loading the file gives; None where that load raises.
     */
    function Cache(): Option<map<string, GpuCacheEntry>>
      reads `deviceCache, deviceCache, disk
    {
      if deviceCache == null then LoadedEntries(disk.file) else Some(deviceCache.entries)
    }

    // -------------------------------------------------------------------
    // _init and _handle
    // -------------------------------------------------------------------

    /** `_init()`: a no-op once initialised. */
    method Init() returns (out: Outcome<Error>)
      requires Valid()
      modifies `initialized, `fns, `gpuCount, driver
      ensures Valid()
      ensures old(initialized) ==> out == Pass && driver.log == old(driver.log)
                                   && initialized && fns == old(fns) && gpuCount == old(gpuCount)
      ensures !old(initialized) ==>
        var i := old(InitEffect(driver.exports, driver.respond, |driver.log|, fns, gpuCount));
        out == i.out && driver.log == old(driver.log) + i.calls
        && initialized == i.out.Pass? && fns == i.fns && gpuCount == i.count
    {
      if initialized {
        return Pass;
      }
      if ResolveFn(driver.exports, Initialize).None? {
        return Fail(NvApiError("Initialize", -3));
      }
      var status := driver.Invoke(INIT_CALL);
      if status != 0 {
        return Fail(NvApiError("Initialize", status));
      }
      out := ResolveFunctions();
      initialized := out.Pass?;
    }

    /** Steps 2 and 3 of `_init`: resolve the table, then enumerate the GPUs if the driver can. */
    method ResolveFunctions() returns (out: Outcome<Error>)
      requires Valid()
      modifies `initialized, `fns, `gpuCount, driver
      ensures Valid()
      ensures var s := old(ResolveEffect(driver.exports, driver.respond, |driver.log|, gpuCount));
        out == s.out && driver.log == old(driver.log) + s.calls && fns == s.fns && gpuCount == s.count
      ensures initialized == old(initialized)
    {
      fns := ResolvedTable(driver.exports);
      out := Pass;
      if EnumPhysicalGpus in fns {
        var status: int, count: nat;
        status, count := EnumerateGpus(driver, gpuCount);
        gpuCount := count;
        if status != 0 {
          out := Fail(NvApiError("EnumPhysicalGPUs", status));
        }
      }
    }

    /** `_handle(gpu)`: `_init()`, then the slot of `gpu` in the handle array. */
    method Handle(gpu: int) returns (h: Result<nat, Error>)
      requires Valid()
      modifies `initialized, `fns, `gpuCount, driver
      ensures Valid()
      ensures var hr := old(HandleNow(gpu));
        h == hr.h && driver.log == old(driver.log) + hr.calls && Left(hr)
    {
      var o := Init();
      if o.Fail? {
        return Failure(o.error);
      }
      if gpu >= gpuCount {
        return Failure(NvApiError("GPU_GetHandle", -5));
      }
      if gpu < -MAX_GPUS || gpu >= MAX_GPUS {
        return Failure(IndexError);
      }
      h := Success(if gpu < 0 then gpu + MAX_GPUS else gpu);
    }

    /** `enable_oc(gpu)`: `_init()` and `_handle(gpu)`, for their errors alone. */
    method EnableOc(gpu: int) returns (out: Outcome<Error>)
      requires Valid()
      modifies `initialized, `fns, `gpuCount, driver
      ensures Valid()
      ensures var hr := old(HandleNow(gpu));
        out == (if hr.h.Success? then Pass else Fail(hr.h.error))
        && driver.log == old(driver.log) + hr.calls && Left(hr)
    {
      var o := Init();
      if o.Fail? {
        return o;
      }
      var h := Handle(gpu);
      out := if h.Success? then Pass else Fail(h.error);
    }

    // -------------------------------------------------------------------
    // Getters
    // -------------------------------------------------------------------

    /** `_get_gpu_name(gpu)`. */
    method GetGpuName(gpu: int) returns (r: Result<string, Error>)
      requires Valid()
      modifies `initialized, `fns, `gpuCount, driver
      ensures Valid()
      ensures var hr := old(HandleNow(gpu));
        var e := NameEffect(EnvOf(hr), old(|driver.log|) + |hr.calls|, hr.h);
        r == e.result && driver.log == old(driver.log) + hr.calls + e.calls && Left(hr)
    {
      ghost var hr, n0 := HandleNow(gpu), |driver.log|;
      var h := Handle(gpu);
      if h.Failure? {
        return Failure(h.error);
      }
      ghost var e := NameEffect(EnvOf(hr), n0 + |hr.calls|, hr.h);
      assert |driver.log| == n0 + |hr.calls|;
      var name := ReadGpuName(driver, fns, h.value);
      r := Success(name);
      assert r == e.result;
    }

    /** `_get_bus_id(gpu)`. */
    method GetBusId(gpu: int) returns (r: Result<nat, Error>)
      requires Valid()
      modifies `initialized, `fns, `gpuCount, driver
      ensures Valid()
      ensures var hr := old(HandleNow(gpu));
        var e := BusEffect(EnvOf(hr), old(|driver.log|) + |hr.calls|, hr.h);
        r == e.result && driver.log == old(driver.log) + hr.calls + e.calls && Left(hr)
    {
      ghost var hr, n0 := HandleNow(gpu), |driver.log|;
      var h := Handle(gpu);
      if h.Failure? {
        return Failure(h.error);
      }
      ghost var e := BusEffect(EnvOf(hr), n0 + |hr.calls|, hr.h);
      assert |driver.log| == n0 + |hr.calls|;
      var busId := ReadBusId(driver, fns, h.value);
      r := Success(busId);
      assert r == e.result;
    }

    /** `_get_pstates20(gpu)`. */
    method GetPstates20(gpu: int) returns (r: Result<seq<Byte>, Error>)
      requires Valid()
      modifies `initialized, `fns, `gpuCount, driver
      ensures Valid()
      ensures var hr := old(HandleNow(gpu));
        var e := PstatesEffect(EnvOf(hr), old(|driver.log|) + |hr.calls|, hr.h);
        r == e.result && driver.log == old(driver.log) + hr.calls + e.calls && Left(hr)
    {
      ghost var hr, n0 := HandleNow(gpu), |driver.log|;
      var h := Handle(gpu);
      if h.Failure? {
        return Failure(h.error);
      }
      ghost var e := PstatesEffect(EnvOf(hr), n0 + |hr.calls|, hr.h);
      assert |driver.log| == n0 + |hr.calls|;
      r := ReadPstates(driver, fns, h.value);
      assert r == e.result;
    }

    /** `_get_power_status(gpu)`. */
    method GetPowerStatus(gpu: int) returns (r: Result<nat, Error>)
      requires Valid()
      modifies `initialized, `fns, `gpuCount, driver
      ensures Valid()
      ensures var hr := old(HandleNow(gpu));
        var e := PowerStatusEffect(EnvOf(hr), old(|driver.log|) + |hr.calls|, hr.h);
        r == e.result && driver.log == old(driver.log) + hr.calls + e.calls && Left(hr)
    {
      ghost var hr, n0 := HandleNow(gpu), |driver.log|;
      var h := Handle(gpu);
      if h.Failure? {
        return Failure(h.error);
      }
      ghost var e := PowerStatusEffect(EnvOf(hr), n0 + |hr.calls|, hr.h);
      assert |driver.log| == n0 + |hr.calls|;
      r := ReadPowerStatus(driver, fns, h.value);
      assert r == e.result;
    }

    /** `_get_power_info(gpu)`. */
    method GetPowerInfo(gpu: int) returns (r: Result<(nat, nat, nat), Error>)
      requires Valid()
      modifies `initialized, `fns, `gpuCount, driver
      ensures Valid()
      ensures var hr := old(HandleNow(gpu));
        var e := PowerInfoEffect(EnvOf(hr), old(|driver.log|) + |hr.calls|, hr.h);
        r == e.result && driver.log == old(driver.log) + hr.calls + e.calls && Left(hr)
    {
      ghost var hr, n0 := HandleNow(gpu), |driver.log|;
      var h := Handle(gpu);
      if h.Failure? {
        return Failure(h.error);
      }
      ghost var e := PowerInfoEffect(EnvOf(hr), n0 + |hr.calls|, hr.h);
      assert |driver.log| == n0 + |hr.calls|;
      r := ReadPowerInfo(driver, fns, h.value);
      assert r == e.result;
    }

    /** `_get_thermal_limit(gpu)`. */
    method GetThermalLimit(gpu: int) returns (r: Result<nat, Error>)
      requires Valid()
      modifies `initialized, `fns, `gpuCount, driver
      ensures Valid()
      ensures var hr := old(HandleNow(gpu));
        var e := ThermalLimitEffect(EnvOf(hr), old(|driver.log|) + |hr.calls|, hr.h);
        r == e.result && driver.log == old(driver.log) + hr.calls + e.calls && Left(hr)
    {
      ghost var hr, n0 := HandleNow(gpu), |driver.log|;
      var h := Handle(gpu);
      if h.Failure? {
        return Failure(h.error);
      }
      ghost var e := ThermalLimitEffect(EnvOf(hr), n0 + |hr.calls|, hr.h);
      assert |driver.log| == n0 + |hr.calls|;
      r := ReadThermalLimit(driver, fns, h.value);
      assert r == e.result;
    }

    /** `_get_thermal_info(gpu)`. */
    method GetThermalInfo(gpu: int) returns (r: Result<(nat, nat, nat), Error>)
      requires Valid()
      modifies `initialized, `fns, `gpuCount, driver
      ensures Valid()
      ensures var hr := old(HandleNow(gpu));
        var e := ThermalInfoEffect(EnvOf(hr), old(|driver.log|) + |hr.calls|, hr.h);
        r == e.result && driver.log == old(driver.log) + hr.calls + e.calls && Left(hr)
    {
      ghost var hr, n0 := HandleNow(gpu), |driver.log|;
      var h := Handle(gpu);
      if h.Failure? {
        return Failure(h.error);
      }
      ghost var e := ThermalInfoEffect(EnvOf(hr), n0 + |hr.calls|, hr.h);
      assert |driver.log| == n0 + |hr.calls|;
      r := ReadThermalInfo(driver, fns, h.value);
      assert r == e.result;
    }

    // -------------------------------------------------------------------
    // Setters
    // -------------------------------------------------------------------

    /** `_set_clock_offset(domain_id, offset_khz, gpu)`. */
    method SetClockOffset(domain: int, offsetKhz: int, gpu: int) returns (out: Outcome<Error>)
      requires Valid()
      modifies `initialized, `fns, `gpuCount, driver
      ensures Valid()
      ensures var hr := old(HandleNow(gpu));
        var e := ClockOffsetEffect(EnvOf(hr), old(|driver.log|) + |hr.calls|, hr.h, domain, offsetKhz);
        out == e.result && driver.log == old(driver.log) + hr.calls + e.calls && Left(hr)
    {
      ghost var hr, n0 := HandleNow(gpu), |driver.log|;
      var h := Handle(gpu);
      if h.Failure? {
        return Fail(h.error);
      }
      ghost var e := ClockOffsetEffect(EnvOf(hr), n0 + |hr.calls|, hr.h, domain, offsetKhz);
      assert |driver.log| == n0 + |hr.calls|;
      out := WriteClockOffset(driver, fns, h.value, domain, offsetKhz, |driver.log|);
      assert out == e.result;
    }

    /** `set_core_offset(mhz, gpu)`: the graphics domain, in kHz. */
    method SetCoreOffset(mhz: int, gpu: int) returns (out: Outcome<Error>)
      requires Valid()
      modifies `initialized, `fns, `gpuCount, driver
      ensures Valid()
      ensures var hr := old(HandleNow(gpu));
        var e := ClockOffsetEffect(EnvOf(hr), old(|driver.log|) + |hr.calls|, hr.h, 0, mhz * 1000);
        out == e.result && driver.log == old(driver.log) + hr.calls + e.calls && Left(hr)
    {
      out := SetClockOffset(0, mhz * 1000, gpu);
    }

    /** `set_mem_offset(mhz, gpu)`: the memory domain, in kHz. */
    method SetMemOffset(mhz: int, gpu: int) returns (out: Outcome<Error>)
      requires Valid()
      modifies `initialized, `fns, `gpuCount, driver
      ensures Valid()
      ensures var hr := old(HandleNow(gpu));
        var e := ClockOffsetEffect(EnvOf(hr), old(|driver.log|) + |hr.calls|, hr.h, 4, mhz * 1000);
        out == e.result && driver.log == old(driver.log) + hr.calls + e.calls && Left(hr)
    {
      out := SetClockOffset(4, mhz * 1000, gpu);
    }

    /** `_set_power_status(power_pcm, gpu)`. */
    method SetPowerStatus(pcm: int, gpu: int) returns (out: Outcome<Error>)
      requires Valid()
      modifies `initialized, `fns, `gpuCount, driver
      ensures Valid()
      ensures var hr := old(HandleNow(gpu));
        var e := PowerSetEffect(EnvOf(hr), old(|driver.log|) + |hr.calls|, hr.h, pcm);
        out == e.result && driver.log == old(driver.log) + hr.calls + e.calls && Left(hr)
    {
      ghost var hr, n0 := HandleNow(gpu), |driver.log|;
      var h := Handle(gpu);
      if h.Failure? {
        return Fail(h.error);
      }
      ghost var e := PowerSetEffect(EnvOf(hr), n0 + |hr.calls|, hr.h, pcm);
      assert |driver.log| == n0 + |hr.calls|;
      out := WritePowerStatus(driver, fns, h.value, pcm);
      assert out == e.result;
    }

    /** `_set_thermal_limit(temp_c, gpu, priority)`; `set_thermal_limit` passes no priority. */
    method SetThermalLimit(tempC: int, gpu: int, priority: bool) returns (out: Outcome<Error>)
      requires Valid()
      modifies `initialized, `fns, `gpuCount, driver
      ensures Valid()
      ensures var hr := old(HandleNow(gpu));
        var e := ThermalSetEffect(EnvOf(hr), old(|driver.log|) + |hr.calls|, hr.h, tempC, priority);
        out == e.result && driver.log == old(driver.log) + hr.calls + e.calls && Left(hr)
    {
      ghost var hr, n0 := HandleNow(gpu), |driver.log|;
      var h := Handle(gpu);
      if h.Failure? {
        return Fail(h.error);
      }
      ghost var e := ThermalSetEffect(EnvOf(hr), n0 + |hr.calls|, hr.h, tempC, priority);
      assert |driver.log| == n0 + |hr.calls|;
      out := WriteThermalLimit(driver, fns, h.value, tempC, priority);
      assert out == e.result;
    }

    /** `_set_cooler_level(speed_pct, 0, gpu)`. */
    method SetCoolerLevel(speedPct: int, gpu: int) returns (out: Outcome<Error>)
      requires Valid()
      modifies `initialized, `fns, `gpuCount, driver
      ensures Valid()
      ensures var hr := old(HandleNow(gpu));
        var e := CoolerLevelEffect(EnvOf(hr), old(|driver.log|) + |hr.calls|, hr.h, speedPct);
        out == e.result && driver.log == old(driver.log) + hr.calls + e.calls && Left(hr)
    {
      ghost var hr, n0 := HandleNow(gpu), |driver.log|;
      var h := Handle(gpu);
      if h.Failure? {
        return Fail(h.error);
      }
      ghost var e := CoolerLevelEffect(EnvOf(hr), n0 + |hr.calls|, hr.h, speedPct);
      assert |driver.log| == n0 + |hr.calls|;
      out := WriteCoolerLevel(driver, fns, h.value, speedPct);
      assert out == e.result;
    }

    /** `_set_cooler_auto(0, gpu)`. */
    method SetCoolerAuto(gpu: int) returns (out: Outcome<Error>)
      requires Valid()
      modifies `initialized, `fns, `gpuCount, driver
      ensures Valid()
      ensures var hr := old(HandleNow(gpu));
        var e := CoolerAutoEffect(EnvOf(hr), old(|driver.log|) + |hr.calls|, hr.h);
        out == e.result && driver.log == old(driver.log) + hr.calls + e.calls && Left(hr)
    {
      ghost var hr, n0 := HandleNow(gpu), |driver.log|;
      var h := Handle(gpu);
      if h.Failure? {
        return Fail(h.error);
      }
      ghost var e := CoolerAutoEffect(EnvOf(hr), n0 + |hr.calls|, hr.h);
      assert |driver.log| == n0 + |hr.calls|;
      out := WriteCoolerAuto(driver, fns, h.value);
      assert out == e.result;
    }

    /** `_set_fan_new_api(speed_pct, manual, gpu)`. */
    method SetFanNewApi(speedPct: int, manual: bool, gpu: int) returns (out: Outcome<Error>)
      requires Valid()
      modifies `initialized, `fns, `gpuCount, driver
      ensures Valid()
      ensures var hr := old(HandleNow(gpu));
        var e := FanNewApiEffect(EnvOf(hr), old(|driver.log|) + |hr.calls|, hr.h, speedPct, manual);
        out == e.result && driver.log == old(driver.log) + hr.calls + e.calls && Left(hr)
    {
      ghost var hr, n0 := HandleNow(gpu), |driver.log|;
      var h := Handle(gpu);
      if h.Failure? {
        return Fail(h.error);
      }
      ghost var e := FanNewApiEffect(EnvOf(hr), n0 + |hr.calls|, hr.h, speedPct, manual);
      assert |driver.log| == n0 + |hr.calls|;
      out := WriteFanNewApi(driver, fns, h.value, speedPct, manual);
      assert out == e.result;
    }

    // -------------------------------------------------------------------
    // The fan API memo and the device cache
    // -------------------------------------------------------------------

    /** `_note_fan_api(api, gpu)`. */
    method NoteFanApi(api: string, gpu: int)
      modifies `sessionFanApi
      ensures sessionFanApi == old(sessionFanApi)[gpu := api]
    {
      sessionFanApi := sessionFanApi[gpu := api];
    }

    /**
     * `_get_cached_fan_api(gpu)`: the memo answers first; otherwise the
     * cache is loaded if need be, and the preference stored for the GPU's
     * name, bus id and driver (what `StoredFanApiOf` returns) is promoted
     * into the memo. A handle error is swallowed and gives None.
     */
    method GetCachedFanApi(gpu: int) returns (api: Option<string>)
      requires Valid()
      modifies `initialized, `fns, `gpuCount, `sessionFanApi, `deviceCache, driver
      ensures Valid()
      ensures var hr := old(HandleNow(gpu));
        var c := CachedFanApi(EnvOf(hr), old(|driver.log|) + |hr.calls|, hr.h, old(sessionFanApi),
                              old(Cache()), driverVersion, gpu);
        api == c.result && sessionFanApi == Noted(old(sessionFanApi), gpu, api)
        && (gpu in old(sessionFanApi) ==>
              driver.log == old(driver.log) && deviceCache == old(deviceCache)
              && initialized == old(initialized) && fns == old(fns) && gpuCount == old(gpuCount))
        && (gpu !in old(sessionFanApi) && old(Cache()).None? ==>
              driver.log == old(driver.log) && deviceCache == null
              && initialized == old(initialized) && fns == old(fns) && gpuCount == old(gpuCount))
        && (gpu !in old(sessionFanApi) && old(Cache()).Some? ==>
              driver.log == old(driver.log) + hr.calls + c.calls && Left(hr))
      ensures Cache() == old(Cache())
      ensures old(deviceCache) != null ==> deviceCache == old(deviceCache)
      ensures old(deviceCache) == null && deviceCache != null ==> fresh(deviceCache)
    {
      hide FanApiLookup, HandleEffect, LoadedEntries;
      if gpu in sessionFanApi {
        return Some(sessionFanApi[gpu]);
      }
      var loaded := LoadCacheIfNeeded();
      if !loaded {
        return None;
      }
      api := StoredFanApiOf(gpu);
      if api.Some? {
        NoteFanApi(api.value, gpu);
      }
    }

    /**
     * `if _device_cache is None: _device_cache = load_cache()`; `loaded` is
     * false where the load raises, and `_device_cache` then stays None.
     */
    method LoadCacheIfNeeded() returns (loaded: bool)
      modifies `deviceCache
      ensures loaded <==> old(Cache()).Some?
      ensures loaded ==> deviceCache != null && Some(deviceCache.entries) == old(Cache())
      ensures !loaded ==> deviceCache == null
      ensures old(deviceCache) != null ==> deviceCache == old(deviceCache)
      ensures old(deviceCache) == null && deviceCache != null ==> fresh(deviceCache)
    {
      loaded := true;
      if deviceCache == null {
        var r := LoadCache(disk);
        if r.Failure? {
          return false;
        }
        deviceCache := r.value;
      }
    }

    /**
     * `_get_cached_fan_api` past the memo, with the cache loaded: the
     * stored preference for the GPU's name, bus id and driver version.
     */
    method StoredFanApiOf(gpu: int) returns (api: Option<string>)
      requires Valid() && deviceCache != null
      modifies `initialized, `fns, `gpuCount, driver
      ensures Valid()
      ensures var hr := old(HandleNow(gpu));
        var look := FanApiLookup(EnvOf(hr), old(|driver.log|) + |hr.calls|, hr.h, deviceCache.entries, driverVersion);
        api == look.result && driver.log == old(driver.log) + hr.calls + look.calls && Left(hr)
    {
      hide FanApiLookup, HandleEffect;
      ghost var hr, n0 := HandleNow(gpu), |driver.log|;
      var h := Handle(gpu);
      if h.Failure? {
        return None;
      }
      ghost var look := FanApiLookup(EnvOf(hr), n0 + |hr.calls|, hr.h, deviceCache.entries, driverVersion);
      assert |driver.log| == n0 + |hr.calls|;
      api := ReadStoredFanApi(driver, fns, h.value, deviceCache.entries, driverVersion);
      assert api == look.result;
    }

    /**
     * `_save_probe_to_cache(status, gpu)`: without a name or a driver
     * version nothing is saved; a load that raises is swallowed and nothing
     * is saved either; otherwise the probe entry, carrying the memo's fan
     * API, is put into the loaded cache, which is written out.
     */
    method SaveProbeToCache(status: OcStatus, gpu: int, cachedAt: string)
      modifies this, disk, deviceCache
      ensures initialized == old(initialized) && fns == old(fns) && gpuCount == old(gpuCount)
      ensures sessionFanApi == old(sessionFanApi)
      ensures status.gpuName == "" || driverVersion == "" ==>
        deviceCache == old(deviceCache) && Cache() == old(Cache()) && disk.file == old(disk.file)
      ensures status.gpuName != "" && driverVersion != "" && old(Cache()).None? ==>
        deviceCache == null && disk.file == old(disk.file)
      ensures status.gpuName != "" && driverVersion != "" && old(Cache()).Some? ==>
        var e := ProbeEntry(status, driverVersion, Get(sessionFanApi, gpu), cachedAt);
        deviceCache != null && deviceCache.entries == old(Cache()).value[EntryKey(e) := e]
        && disk.file == (if disk.writable then Parsed(Serialize(deviceCache.entries)) else old(disk.file))
      ensures old(deviceCache) != null ==> deviceCache == old(deviceCache)
      ensures old(deviceCache) == null && deviceCache != null ==> fresh(deviceCache)
    {
      if status.gpuName == "" || driverVersion == "" {
        return;
      }
      var e := ProbeEntry(status, driverVersion, Get(sessionFanApi, gpu), cachedAt);
      if deviceCache == null {
        var loaded := LoadCache(disk);
        if loaded.Failure? {
          return;
        }
        deviceCache := loaded.value;
      }
      var put := PutEntry(disk, e, deviceCache);
      deviceCache := put.value;
    }

    // -------------------------------------------------------------------
    // Fan requests
    // -------------------------------------------------------------------

    /** The legacy call of a fan request: `_set_cooler_auto` for `set_fan_auto`, `_set_cooler_level` otherwise. */
    method SetCoolerLegacy(speedPct: int, auto: bool, gpu: int) returns (out: Outcome<Error>)
      requires Valid()
      modifies `initialized, `fns, `gpuCount, driver
      ensures Valid()
      ensures var hr := old(HandleNow(gpu));
        var e := LegacyEffect(EnvOf(hr), old(|driver.log|) + |hr.calls|, hr.h, speedPct, auto);
        out == e.result && driver.log == old(driver.log) + hr.calls + e.calls && Left(hr)
    {
      if auto {
        out := SetCoolerAuto(gpu);
      } else {
        out := SetCoolerLevel(speedPct, gpu);
      }
    }

    /**
     * `set_fan_speed(speedPct)` (`auto` false) and `set_fan_auto()`
     * (`auto` true). Each step runs its own `_handle`; once the first has
     * left the library initialised the later ones make no call, and the
     * request is the cached-preference lookup followed by
     * `FanSelectEffect`. In every case a request that returns leaves a
     * preference noted for the GPU and no other GPU's entry changes.
     */
    method RequestFan(speedPct: int, auto: bool, gpu: int) returns (out: Outcome<Error>)
      requires Valid()
      modifies `initialized, `fns, `gpuCount, `sessionFanApi, `deviceCache, driver
      ensures Valid()
      ensures Cache() == old(Cache())
      ensures old(deviceCache) != null ==> deviceCache == old(deviceCache)
      ensures old(deviceCache) == null && deviceCache != null ==> fresh(deviceCache)
      ensures out.Pass? ==> gpu in sessionFanApi
      ensures forall g :: g != gpu ==> Get(sessionFanApi, g) == Get(old(sessionFanApi), g)
      ensures var hr := old(HandleNow(gpu));
        var env, n := EnvOf(hr), old(|driver.log|) + |hr.calls|;
        var c := CachedFanApi(env, n, hr.h, old(sessionFanApi), old(Cache()), driverVersion, gpu);
        var f := FanSelectEffect(env, n + |c.calls|, hr.h, c.result, speedPct, auto);
        hr.initialized ==>
          out == f.out && driver.log == old(driver.log) + hr.calls + c.calls + f.calls && Left(hr)
          && sessionFanApi == Noted(Noted(old(sessionFanApi), gpu, c.result), gpu, f.note)
    {
      hide FanSelectEffect, FanApiLookup, HandleEffect, LoadedEntries;
      ghost var hr, log0 := HandleNow(gpu), driver.log;
      var cached := GetCachedFanApi(gpu);
      out := SelectFanApi(cached, speedPct, auto, gpu);
    }

    /**
     * A fan request once the cached preference is known: "old" goes to
     * the legacy call alone; otherwise the new API is tried and "new"
     * noted when it returns, and an NvApiError from it leads to the
     * legacy call, noting "old" when that returns.
     */
    method SelectFanApi(cached: Option<string>, speedPct: int, auto: bool, gpu: int) returns (out: Outcome<Error>)
      requires Valid()
      modifies `initialized, `fns, `gpuCount, `sessionFanApi, driver
      ensures Valid()
      ensures out.Pass? && cached != Some("old") ==> gpu in sessionFanApi
      ensures gpu in old(sessionFanApi) ==> gpu in sessionFanApi
      ensures forall g :: g != gpu ==> Get(sessionFanApi, g) == Get(old(sessionFanApi), g)
      ensures var hr := old(HandleNow(gpu));
        var f := FanSelectEffect(EnvOf(hr), old(|driver.log|) + |hr.calls|, hr.h, cached, speedPct, auto);
        hr.initialized ==>
          out == f.out && driver.log == old(driver.log) + hr.calls + f.calls && Left(hr)
          && sessionFanApi == Noted(old(sessionFanApi), gpu, f.note)
    {
      hide FanNewApiEffect, LegacyEffect, HandleEffect;
      if cached == Some("old") {
        out := SetCoolerLegacy(speedPct, auto, gpu);
        return;
      }
      out := SetFanNewApi(if auto then 0 else speedPct, !auto, gpu);
      if out.Pass? {
        NoteFanApi("new", gpu);
      } else if out.error.NvApiError? {
        out := SetCoolerLegacy(speedPct, auto, gpu);
        if out.Pass? {
          NoteFanApi("old", gpu);
        }
      }
    }

    /** `set_fan_speed(speedPct, gpu)`. */
    method SetFanSpeed(speedPct: int, gpu: int) returns (out: Outcome<Error>)
      requires Valid()
      modifies `initialized, `fns, `gpuCount, `sessionFanApi, `deviceCache, driver
      ensures Valid()
      ensures Cache() == old(Cache())
      ensures old(deviceCache) != null ==> deviceCache == old(deviceCache)
      ensures old(deviceCache) == null && deviceCache != null ==> fresh(deviceCache)
      ensures out.Pass? ==> gpu in sessionFanApi
      ensures forall g :: g != gpu ==> Get(sessionFanApi, g) == Get(old(sessionFanApi), g)
      ensures var hr := old(HandleNow(gpu));
        var env, n := EnvOf(hr), old(|driver.log|) + |hr.calls|;
        var c := CachedFanApi(env, n, hr.h, old(sessionFanApi), old(Cache()), driverVersion, gpu);
        var f := FanSelectEffect(env, n + |c.calls|, hr.h, c.result, speedPct, false);
        hr.initialized ==>
          out == f.out && driver.log == old(driver.log) + hr.calls + c.calls + f.calls && Left(hr)
          && sessionFanApi == Noted(Noted(old(sessionFanApi), gpu, c.result), gpu, f.note)
    {
      out := RequestFan(speedPct, false, gpu);
    }

    /** `set_fan_auto(gpu)`. */
    method SetFanAuto(gpu: int) returns (out: Outcome<Error>)
      requires Valid()
      modifies `initialized, `fns, `gpuCount, `sessionFanApi, `deviceCache, driver
      ensures Valid()
      ensures Cache() == old(Cache())
      ensures old(deviceCache) != null ==> deviceCache == old(deviceCache)
      ensures old(deviceCache) == null && deviceCache != null ==> fresh(deviceCache)
      ensures out.Pass? ==> gpu in sessionFanApi
      ensures forall g :: g != gpu ==> Get(sessionFanApi, g) == Get(old(sessionFanApi), g)
      ensures var hr := old(HandleNow(gpu));
        var env, n := EnvOf(hr), old(|driver.log|) + |hr.calls|;
        var c := CachedFanApi(env, n, hr.h, old(sessionFanApi), old(Cache()), driverVersion, gpu);
        var f := FanSelectEffect(env, n + |c.calls|, hr.h, c.result, 0, true);
        hr.initialized ==>
          out == f.out && driver.log == old(driver.log) + hr.calls + c.calls + f.calls && Left(hr)
          && sessionFanApi == Noted(Noted(old(sessionFanApi), gpu, c.result), gpu, f.note)
    {
      out := RequestFan(0, true, gpu);
    }

    // -------------------------------------------------------------------
    // get_oc_status and reset_all
    // -------------------------------------------------------------------

    /**
     * `get_oc_status(gpu)`: the name's handle error propagates, so once it
     * has returned the library is initialised and every later `_handle`
     * is the same slot without a call; the status read is `OcStatusEffect`
     * and it is then saved to the device cache, stamped `cachedAt`.
     */
    method GetOcStatus(gpu: int, cachedAt: string) returns (r: Result<OcStatus, Error>)
      requires Valid()
      modifies this, driver, disk, deviceCache
      ensures Valid()
      ensures var hr := old(HandleNow(gpu));
        var e := OcStatusEffect(EnvOf(hr), old(|driver.log|) + |hr.calls|, hr.h);
        r == e.result && driver.log == old(driver.log) + hr.calls + e.calls && Left(hr)
      ensures sessionFanApi == old(sessionFanApi)
      ensures r.Failure? ==> deviceCache == old(deviceCache) && disk.file == old(disk.file)
      ensures r.Success? && (r.value.gpuName == "" || driverVersion == "") ==>
        Cache() == old(Cache()) && disk.file == old(disk.file)
      ensures r.Success? && r.value.gpuName != "" && driverVersion != "" && old(Cache()).None? ==>
        deviceCache == null && disk.file == old(disk.file)
      ensures r.Success? && r.value.gpuName != "" && driverVersion != "" && old(Cache()).Some? ==>
        var entry := ProbeEntry(r.value, driverVersion, Get(sessionFanApi, gpu), cachedAt);
        deviceCache != null && deviceCache.entries == old(Cache()).value[EntryKey(entry) := entry]
        && disk.file == (if disk.writable then Parsed(Serialize(deviceCache.entries)) else old(disk.file))
    {
      hide OcStatusEffect, HandleEffect;
      ghost var hr, n0 := HandleNow(gpu), |driver.log|;
      var h := Handle(gpu);
      if h.Failure? {
        return Failure(h.error);
      }
      assert |driver.log| == n0 + |hr.calls|;
      var s := ReadOcStatus(driver, fns, h.value);
      SaveProbeToCache(s, gpu, cachedAt);
      r := Success(s);
    }

    /** `reset_all`'s power step: the read default, or 100000 after an NvApiError. */
    method ResetPower(gpu: int) returns (out: Outcome<Error>)
      requires Valid()
      modifies `initialized, `fns, `gpuCount, driver
      ensures Valid()
      ensures var hr := old(HandleNow(gpu));
        var e := PowerResetEffect(EnvOf(hr), old(|driver.log|) + |hr.calls|, hr.h);
        hr.initialized ==> out == e.result && driver.log == old(driver.log) + hr.calls + e.calls && Left(hr)
    {
      hide PowerInfoEffect, PowerSetEffect, HandleEffect;
      var info := GetPowerInfo(gpu);
      if info.Failure? {
        out := Fail(info.error);
      } else {
        out := SetPowerStatus(info.value.1, gpu);
      }
      if out.Fail? && out.error.NvApiError? {
        out := SetPowerStatus(100000, gpu);
      }
    }

    /** `reset_all`'s thermal step: the read default, without priority. */
    method ResetThermal(gpu: int) returns (out: Outcome<Error>)
      requires Valid()
      modifies `initialized, `fns, `gpuCount, driver
      ensures Valid()
      ensures var hr := old(HandleNow(gpu));
        var e := ThermalResetEffect(EnvOf(hr), old(|driver.log|) + |hr.calls|, hr.h);
        hr.initialized ==> out == e.result && driver.log == old(driver.log) + hr.calls + e.calls && Left(hr)
    {
      hide ThermalInfoEffect, ThermalSetEffect, HandleEffect;
      var info := GetThermalInfo(gpu);
      if info.Failure? {
        out := Fail(info.error);
      } else {
        out := SetThermalLimit(info.value.1, gpu, false);
      }
    }

    /** Whether a step's outcome escapes `reset_all`'s handlers, which catch NvApiError only. */
    static predicate Raises(o: Outcome<Error>) {
      o.Fail? && !o.error.NvApiError?
    }

    /**
     * `reset_all`'s clock steps: core offset 0, then memory offset 0,
     * which is not attempted when the core step raises (its outcome then
     * stands for both).
     */
    method ResetClocks(gpu: int) returns (core: Outcome<Error>, mem: Outcome<Error>)
      requires Valid()
      modifies `initialized, `fns, `gpuCount, driver
      ensures Valid()
      ensures Raises(core) ==> mem == core
      ensures var hr := old(HandleNow(gpu));
        var env, n := EnvOf(hr), old(|driver.log|) + |hr.calls|;
        var c0 := ClockOffsetEffect(env, n, hr.h, 0, 0);
        var c1 := ClockOffsetEffect(env, n + |c0.calls|, hr.h, 4, 0);
        hr.initialized ==>
          core == c0.result && mem == c1.result && Left(hr)
          && driver.log == old(driver.log) + hr.calls + c0.calls + c1.calls
    {
      hide ClockOffsetEffect, SetEffect, ClockCall, ClockRequest, HandleEffect;
      core := SetCoreOffset(0, gpu);
      if Raises(core) {
        return core, core;
      }
      mem := SetMemOffset(0, gpu);
    }

    /**
     * `reset_all`'s limit steps: power, then thermal, which is not
     * attempted when the power step raises (its outcome then stands for
     * both).
     */
    method ResetLimits(gpu: int) returns (power: Outcome<Error>, thermal: Outcome<Error>)
      requires Valid()
      modifies `initialized, `fns, `gpuCount, driver
      ensures Valid()
      ensures Raises(power) ==> thermal == power
      ensures var hr := old(HandleNow(gpu));
        var env, n := EnvOf(hr), old(|driver.log|) + |hr.calls|;
        var c2 := PowerResetEffect(env, n, hr.h);
        var c3 := ThermalResetEffect(env, n + |c2.calls|, hr.h);
        hr.initialized ==>
          power == c2.result && thermal == c3.result && Left(hr)
          && driver.log == old(driver.log) + hr.calls + c2.calls + c3.calls
    {
      hide PowerResetEffect, ThermalResetEffect, HandleEffect;
      power := ResetPower(gpu);
      if Raises(power) {
        return power, power;
      }
      thermal := ResetThermal(gpu);
    }

    /**
     * The first four steps of `reset_all`, each with its own `_handle`:
     * the names of the steps that failed with an NvApiError, or the other
     * exception that escaped one of them.
     */
    method ResetSettings(gpu: int) returns (errors: seq<string>, raised: Option<Error>)
      requires Valid()
      modifies `initialized, `fns, `gpuCount, driver
      ensures Valid()
      ensures var hr := old(HandleNow(gpu));
        var r := ResetSettingsEffect(EnvOf(hr), old(|driver.log|) + |hr.calls|, hr.h);
        hr.initialized ==>
          errors == r.errors && raised == r.raised && Left(hr)
          && driver.log == old(driver.log) + hr.calls + r.calls
    {
      hide ResetSettingsEffect, ClockOffsetEffect, PowerResetEffect, ThermalResetEffect, SetEffect,
        Failed, ClockCall, ClockRequest, HandleEffect;
      ghost var hr, log0 := HandleNow(gpu), driver.log;
      ghost var env, n := EnvOf(hr), |log0| + |hr.calls|;
      errors, raised := [], None;
      var core, mem := ResetClocks(gpu);
      if Raises(core) || Raises(mem) {
        raised := Some(if Raises(core) then core.error else mem.error);
        return;
      }
      ghost var c0 := ClockOffsetEffect(env, n, hr.h, 0, 0);
      ghost var c1 := ClockOffsetEffect(env, n + |c0.calls|, hr.h, 4, 0);
      var power, thermal := ResetLimits(gpu);
      if Raises(power) || Raises(thermal) {
        raised := Some(if Raises(power) then power.error else thermal.error);
        return;
      }
      errors := Failed(RESET_STEPS, [core, mem, power, thermal]);
      if hr.initialized {
        ghost var c2 := PowerResetEffect(env, n + |c0.calls| + |c1.calls|, hr.h);
        ghost var c3 := ThermalResetEffect(env, n + |c0.calls| + |c1.calls| + |c2.calls|, hr.h);
        ResetSettingsUnrolled(env, n, hr.h);
        Regroup4(log0 + hr.calls, c0.calls, c1.calls, c2.calls, c3.calls);
      }
    }

    /**
     * `reset_all(gpu)`: the four settings steps, then `set_fan_auto`. An
     * exception other than NvApiError propagates; otherwise
     * `NvApiError("reset_all", -1)` is raised when any of the five steps
     * failed, after all of them have been attempted.
     */
    method ResetAll(gpu: int) returns (out: Outcome<Error>)
      requires Valid()
      modifies `initialized, `fns, `gpuCount, `sessionFanApi, `deviceCache, driver
      ensures Valid()
      ensures Cache() == old(Cache())
      ensures old(deviceCache) != null ==> deviceCache == old(deviceCache)
      ensures old(deviceCache) == null && deviceCache != null ==> fresh(deviceCache)
      ensures forall g :: g != gpu ==> Get(sessionFanApi, g) == Get(old(sessionFanApi), g)
      ensures var hr := old(HandleNow(gpu));
        var rs := ResetSettingsEffect(EnvOf(hr), old(|driver.log|) + |hr.calls|, hr.h);
        hr.initialized && rs.raised.Some? ==>
          out == Fail(rs.raised.value) && driver.log == old(driver.log) + hr.calls && Left(hr)
          && sessionFanApi == old(sessionFanApi)
      ensures var hr := old(HandleNow(gpu));
        var env, n := EnvOf(hr), old(|driver.log|) + |hr.calls|;
        var rs := ResetSettingsEffect(env, n, hr.h);
        var c := CachedFanApi(env, n + |rs.calls|, hr.h, old(sessionFanApi), old(Cache()), driverVersion, gpu);
        var f := FanSelectEffect(env, n + |rs.calls| + |c.calls|, hr.h, c.result, 0, true);
        hr.initialized && rs.raised.None? ==>
          out == ResetOutcome(rs.errors, None, f.out) && Left(hr)
          && driver.log == old(driver.log) + hr.calls + rs.calls + c.calls + f.calls
          && sessionFanApi == Noted(Noted(old(sessionFanApi), gpu, c.result), gpu, f.note)
    {
      hide ResetSettingsEffect, CachedFanApi, FanSelectEffect, ResetOutcome, HandleEffect, LoadedEntries;
      var errors, raised := ResetSettings(gpu);
      if raised.Some? {
        return Fail(raised.value);
      }
      var fan := SetFanAuto(gpu);
      out := ResetOutcome(errors, None, fan);
    }
  }
}

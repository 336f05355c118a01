/**
 * What each NVAPI wrapper asks of the driver and what it makes of the
 * answers, as functions of the resolved function table, the driver's
 * replies and the position of the first call in the driver's call
 * sequence. `NvApi` and `NvSession.Session` run the same steps against a
 * `Driver`, and their methods are specified by these functions.
 */
module NvCalls {
  import opened Wrappers
  import opened NvStruct
  import opened NvProbe
  import opened Native
  import opened Retry

  // ---------------------------------------------------------------------
  // QueryInterface ids and the function table
  // ---------------------------------------------------------------------

  /**
   * `_resolve` for a function the wrappers know: `_QI` gives its id
   * (`Fn.Id`), and QueryInterface returns a function address exactly when the driver
   * exports that id.
   */
  function ResolveFn(exports: set<nat>, f: Fn): (r: Option<nat>)
    ensures r.Some? <==> f.Id() in exports
    ensures r.Some? ==> r.value == f.Id()
  {
    if f.Id() in exports then Some(f.Id()) else None
  }

  /**
   * The functions `_init` resolves into `_fn`: every function the wrappers
   * know except Initialize, Unload and the fan GetStatus call.
   */
  predicate InInitList(f: Fn) {
    !(f.Initialize? || f.Unload? || f.FanGetStatus?)
  }

  /** The entries of `_fn` that are not None after `_init`. */
  function ResolvedTable(exports: set<nat>): (t: set<Fn>)
    ensures forall f :: f in t <==> InInitList(f) && f.Id() in exports
  {
    set f: Fn | InInitList(f) && ResolveFn(exports, f).Some?
  }

  /**
   * `Initialize`, `Unload` and the fan GetStatus call are never put in
   * `_fn`, so a wrapper looking them up there always finds None.
   */
  lemma NeverInTable(exports: set<nat>)
    ensures Initialize !in ResolvedTable(exports)
    ensures Unload !in ResolvedTable(exports)
    ensures FanGetStatus !in ResolvedTable(exports)
  {
  }

  // ---------------------------------------------------------------------
  // Handles
  // ---------------------------------------------------------------------

  const MAX_GPUS: int := 64

  /**
   * `_handle(gpu)` once `_init` has run: -5 at or past the enumerated
   * count; otherwise the slot of the 64-entry handle array that Python's
   * indexing picks (a negative index counts from the end), or IndexError
   * outside the array.
   */
  function HandleSlot(count: nat, gpu: int): (r: Result<nat, Error>)
    ensures gpu >= count ==> r == Failure(NvApiError("GPU_GetHandle", -5))
    ensures r.Success? <==> -MAX_GPUS <= gpu < count && gpu < MAX_GPUS
    ensures r.Success? ==> r.value < MAX_GPUS && (r.value == gpu || r.value == gpu + MAX_GPUS)
    ensures r.Failure? && gpu < count ==> r.error == IndexError
  {
    if gpu >= count then Failure(NvApiError("GPU_GetHandle", -5))
    else if -MAX_GPUS <= gpu < MAX_GPUS then Success(if gpu < 0 then gpu + MAX_GPUS else gpu)
    else Failure(IndexError)
  }

  // ---------------------------------------------------------------------
  // Initialisation
  // ---------------------------------------------------------------------

  /** How `_init` ended, its native calls, and the table and count it leaves. */
  datatype InitRun = InitRun(out: Outcome<Error>, calls: seq<NativeCall>, fns: set<Fn>, count: nat)

  const INIT_CALL: NativeCall := NativeCall(Initialize, 0, 0, [])

  /** EnumPhysicalGPUs is handed the count word as it stands. */
  function EnumCall(count0: nat): NativeCall
    requires count0 < WORD
  {
    NativeCall(EnumPhysicalGpus, 0, 0, Le32(count0))
  }

  /**
   * Steps 2 and 3 of `_init`, once Initialize has returned 0: the table is
   * resolved, and if EnumPhysicalGPUs is in it the count is what the
   * driver writes into the count word, checked afterwards.
   */
  function ResolveEffect(exports: set<nat>, respond: (nat, NativeCall) -> Reply, n: nat, count0: nat)
    : (r: InitRun)
    requires count0 < WORD
    ensures r.count < WORD
    ensures r.fns == ResolvedTable(exports)
    ensures EnumPhysicalGpus !in r.fns ==> r.out == Pass && r.calls == [] && r.count == count0
    ensures EnumPhysicalGpus in r.fns ==> r.calls == [EnumCall(count0)]
    ensures r.out.Fail? ==> r.out.error.NvApiError?
  {
    var fns := ResolvedTable(exports);
    if EnumPhysicalGpus !in fns then InitRun(Pass, [], fns, count0)
    else
      var reply := respond(n, EnumCall(count0));
      var count := U32(Filled(Le32(count0), reply), 0);
      var out := if reply.status != 0 then Fail(NvApiError("EnumPhysicalGPUs", reply.status)) else Pass;
      InitRun(out, [EnumCall(count0)], fns, count)
  }

  /**
   * `_init` on a first call (or after a failed one): Initialize must
   * resolve (-3 otherwise) and succeed before the rest runs.
   */
  function InitEffect(exports: set<nat>, respond: (nat, NativeCall) -> Reply, n: nat, fns0: set<Fn>, count0: nat)
    : (r: InitRun)
    requires count0 < WORD
    ensures r.count < WORD
    ensures ResolveFn(exports, Initialize).None? ==> r == InitRun(Fail(NvApiError("Initialize", -3)), [], fns0, count0)
    ensures r.out.Pass? ==> r.fns == ResolvedTable(exports)
    ensures r.out.Pass? && EnumPhysicalGpus !in r.fns ==> r.count == count0
    ensures r.out.Fail? ==> r.out.error.NvApiError?
    ensures r.calls == [] || r.calls == [INIT_CALL] || r.calls == [INIT_CALL, EnumCall(count0)]
  {
    if ResolveFn(exports, Initialize).None? then InitRun(Fail(NvApiError("Initialize", -3)), [], fns0, count0)
    else
      var status := respond(n, INIT_CALL).status;
      if status != 0 then InitRun(Fail(NvApiError("Initialize", status)), [INIT_CALL], fns0, count0)
      else
        var s := ResolveEffect(exports, respond, n + 1, count0);
        InitRun(s.out, [INIT_CALL] + s.calls, s.fns, s.count)
  }

  /**
   * Without EnumPhysicalGPUs the count is never written: starting from 0,
   * every non-negative index is refused with -5.
   */
  lemma NoEnumNoGpus(exports: set<nat>, respond: (nat, NativeCall) -> Reply, n: nat, fns0: set<Fn>, gpu: int)
    requires ResolveFn(exports, EnumPhysicalGpus).None? && gpu >= 0
    ensures var r := InitEffect(exports, respond, n, fns0, 0);
      r.out.Pass? ==> HandleSlot(r.count, gpu) == Failure(NvApiError("GPU_GetHandle", -5))
  {
    assert EnumPhysicalGpus !in ResolvedTable(exports);
  }

  /** What `_handle` returned, its native calls, and the initialisation state it leaves. */
  datatype HandleRun = HandleRun(h: Result<nat, Error>, calls: seq<NativeCall>, initialized: bool, fns: set<Fn>, count: nat)

  /**
   * `_handle(gpu)`: `_init()` unless already initialised (its failure
   * propagates and leaves the flag clear), then the slot for `gpu`.
   */
  function HandleEffect(exports: set<nat>, respond: (nat, NativeCall) -> Reply, n: nat,
                        initialized: bool, fns: set<Fn>, count: nat, gpu: int): (r: HandleRun)
    requires count < WORD
    ensures r.count < WORD
    ensures initialized ==> r == HandleRun(HandleSlot(count, gpu), [], true, fns, count)
    ensures r.initialized <==> initialized || InitEffect(exports, respond, n, fns, count).out.Pass?
    ensures r.initialized ==> r.h == HandleSlot(r.count, gpu)
    ensures !r.initialized ==> r.h.Failure? && r.h.error.NvApiError?
  {
    if initialized then HandleRun(HandleSlot(count, gpu), [], true, fns, count)
    else
      var i := InitEffect(exports, respond, n, fns, count);
      if i.out.Fail? then HandleRun(Failure(i.out.error), i.calls, false, i.fns, i.count)
      else HandleRun(HandleSlot(i.count, gpu), i.calls, true, i.fns, i.count)
  }

  /**
   * Once `_init` has succeeded it is never run again: a second `_handle`
   * makes no call and leaves the table and the count as the first left them.
   */
  lemma InitRunsOnce(exports: set<nat>, respond: (nat, NativeCall) -> Reply, n: nat,
                     initialized: bool, fns: set<Fn>, count: nat, gpu: int, m: nat, gpu2: int)
    requires count < WORD
    ensures var r1 := HandleEffect(exports, respond, n, initialized, fns, count, gpu);
      var r2 := HandleEffect(exports, respond, m, r1.initialized, r1.fns, r1.count, gpu2);
      r1.initialized ==> r2.calls == [] && r2.fns == r1.fns && r2.count == r1.count && r2.h == HandleSlot(r1.count, gpu2)
  {
  }

  // ---------------------------------------------------------------------
  // Native Get and Set calls
  // ---------------------------------------------------------------------

  /** What the wrappers consult: the resolved function table and the driver's replies. */
  datatype Env = Env(fns: set<Fn>, respond: (nat, NativeCall) -> Reply)

  /** What an operation returned, and the native calls it made in order. */
  datatype Effect<R> = Effect(result: R, calls: seq<NativeCall>)

  /** Logs grow at the end: a run's calls can be grouped either way. */
  lemma Regroup(log: seq<NativeCall>, a: seq<NativeCall>, b: seq<NativeCall>)
    ensures log + (a + b) == log + a + b
  {
  }

  /** An effect preceded by earlier calls. */
  function After<R>(calls: seq<NativeCall>, e: Effect<R>): Effect<R> {
    Effect(e.result, calls + e.calls)
  }

  /**
   * `fn = _fn.get(name)`, -3 when it is None, then
   * `_check(name, fn(h, buf))`: the buffer as the driver left it.
   */
  function GetEffect(env: Env, n: nat, f: Fn, slot: nat, buf: seq<Byte>): (e: Effect<Result<seq<Byte>, Error>>)
    ensures e.calls == if f in env.fns then [NativeCall(f, slot, 0, buf)] else []
    ensures e.result.Success? ==> |e.result.value| == |buf|
    ensures e.result.Failure? ==> e.result.error.NvApiError? && e.result.error.func == f.Name()
    ensures e.result.Success? <==> f in env.fns && env.respond(n, NativeCall(f, slot, 0, buf)).status == 0
  {
    var c := NativeCall(f, slot, 0, buf);
    if f !in env.fns then Effect(Failure(NvApiError(f.Name(), -3)), [])
    else
      var reply := env.respond(n, c);
      if reply.status != 0 then Effect(Failure(NvApiError(f.Name(), reply.status)), [c])
      else Effect(Success(Filled(buf, reply)), [c])
  }

  /**
   * `fn = _fn.get(name)`, -3 without a call when it is None, then
   * `_check_set(name, fn, …)`: the retried call.
   */
  function SetEffect(env: Env, n: nat, c: NativeCall): (e: Effect<Outcome<Error>>)
    ensures c.op !in env.fns ==> e == Effect(Fail(NvApiError(c.op.Name(), -3)), [])
    ensures c.op in env.fns ==> 1 <= |e.calls| <= DEFAULT_MAX_RETRIES && e.calls[0] == c
    ensures forall i :: 0 <= i < |e.calls| ==> e.calls[i] == c
    ensures e.result.Fail? ==> e.result.error.NvApiError? && e.result.error.func == c.op.Name()
  {
    if c.op !in env.fns then Effect(Fail(NvApiError(c.op.Name(), -3)), [])
    else
      var st := Statuses(env.respond, n, c);
      var r := Run(st, DEFAULT_MAX_RETRIES);
      RunCharacterised(st, DEFAULT_MAX_RETRIES);
      RepeatElems(c, r.calls);
      Effect(if r.Succeeded? then Pass else Fail(NvApiError(c.op.Name(), r.status)), Repeat(c, r.calls))
  }

  /** A Set call the driver accepts at once is made exactly once. */
  lemma SetFirstSuccess(env: Env, n: nat, c: NativeCall)
    requires c.op in env.fns && env.respond(n, c).status == 0
    ensures SetEffect(env, n, c) == Effect(Pass, [c])
  {
    var st := Statuses(env.respond, n, c);
    assert st(0) == 0;
    FirstSuccessOneCall(st, DEFAULT_MAX_RETRIES);
    assert Repeat(c, 1) == [c];
  }

  // ---------------------------------------------------------------------
  // Getters
  // ---------------------------------------------------------------------

  /** The bytes of a C string up to its first NUL, one character per byte. */
  function CString(b: seq<Byte>): (r: string)
    ensures |r| <= |b|
    ensures forall i :: 0 <= i < |r| ==> r[i] as int == b[i] && b[i] != 0
    ensures |r| < |b| ==> b[|r|] == 0
  {
    if b == [] || b[0] == 0 then []
    else
      var rest := CString(b[1..]);
      assert forall i :: 1 <= i <= |rest| ==> b[i] == b[1..][i - 1];
      [b[0] as char] + rest
  }

  const NAME_BUFFER_SIZE: nat := 64
  const UNKNOWN_GPU: string := "Unknown GPU"

  /**
   * `_get_gpu_name`: handle errors propagate; a missing function or a
   * failing call gives "Unknown GPU"; otherwise the name up to its NUL.
   */
  function NameEffect(env: Env, n: nat, h: Result<nat, Error>): (e: Effect<Result<string, Error>>)
    ensures e.result.Failure? <==> h.Failure?
  {
    if h.Failure? then Effect(Failure(h.error), [])
    else
      var g := GetEffect(env, n, GetFullName, h.value, Zeroes(NAME_BUFFER_SIZE));
      Effect(Success(if g.result.Success? then CString(g.result.value) else UNKNOWN_GPU), g.calls)
  }

  /** `_get_bus_id`: handle errors propagate; 0 when the bus id cannot be read. */
  function BusEffect(env: Env, n: nat, h: Result<nat, Error>): (e: Effect<Result<nat, Error>>)
    ensures e.result.Failure? <==> h.Failure?
  {
    if h.Failure? then Effect(Failure(h.error), [])
    else
      var g := GetEffect(env, n, GetBusId, h.value, Zeroes(4));
      Effect(Success(if g.result.Success? then U32(g.result.value, 0) else 0), g.calls)
  }

  /** `_get_pstates20`: the filled V1 buffer. */
  function PstatesEffect(env: Env, n: nat, h: Result<nat, Error>): (e: Effect<Result<seq<Byte>, Error>>)
    ensures e.result.Success? ==> IsPstatesBuffer(e.result.value)
  {
    if h.Failure? then Effect(Failure(h.error), [])
    else GetEffect(env, n, GetPstates20, h.value, Blank(PSTATES20_V1_SIZE, 1))
  }

  /** `_get_power_status`: the current target in PCM. */
  function PowerStatusEffect(env: Env, n: nat, h: Result<nat, Error>): (e: Effect<Result<nat, Error>>)
    ensures h.Failure? ==> e == Effect(Failure(h.error), [])
    ensures h.Success? && e.result.Failure? ==> e.result.error.NvApiError?
  {
    if h.Failure? then Effect(Failure(h.error), [])
    else
      var g := GetEffect(env, n, PowerGetStatus, h.value, Blank(POWER_STATUS_SIZE, 1));
      Effect(if g.result.Success? then Success(PowerStatusOf(g.result.value)) else Failure(g.result.error), g.calls)
  }

  /** `_get_power_info`: (min, default, max) in PCM, by the primary offsets or the scan. */
  function PowerInfoEffect(env: Env, n: nat, h: Result<nat, Error>): (e: Effect<Result<(nat, nat, nat), Error>>)
    ensures h.Failure? ==> e == Effect(Failure(h.error), [])
    ensures h.Success? && e.result.Failure? ==> e.result.error.NvApiError?
  {
    if h.Failure? then Effect(Failure(h.error), [])
    else
      var g := GetEffect(env, n, PowerGetInfo, h.value, Blank(POWER_INFO_SIZE, 1));
      Effect(if g.result.Success? then Success(PowerInfoOf(g.result.value)) else Failure(g.result.error), g.calls)
  }

  /** `_get_thermal_limit`: the current limit in degrees. */
  function ThermalLimitEffect(env: Env, n: nat, h: Result<nat, Error>): (e: Effect<Result<nat, Error>>)
    ensures h.Failure? ==> e == Effect(Failure(h.error), [])
    ensures h.Success? && e.result.Failure? ==> e.result.error.NvApiError?
  {
    if h.Failure? then Effect(Failure(h.error), [])
    else
      var g := GetEffect(env, n, ThermalGetLimit, h.value, Blank(THERMAL_LIMIT_SIZE, 2));
      Effect(if g.result.Success? then Success(ThermalLimitOf(g.result.value)) else Failure(g.result.error), g.calls)
  }

  /** `_get_thermal_info`: (min, default, max) in degrees, with shift detection and the scan. */
  function ThermalInfoEffect(env: Env, n: nat, h: Result<nat, Error>): (e: Effect<Result<(nat, nat, nat), Error>>)
    ensures h.Failure? ==> e == Effect(Failure(h.error), [])
    ensures h.Success? && e.result.Failure? ==> e.result.error.NvApiError?
  {
    if h.Failure? then Effect(Failure(h.error), [])
    else
      var g := GetEffect(env, n, ThermalGetInfo, h.value, Blank(THERMAL_INFO_SIZE, 1));
      Effect(if g.result.Success? then Success(ThermalInfoOf(g.result.value)) else Failure(g.result.error), g.calls)
  }

  // ---------------------------------------------------------------------
  // Setters
  // ---------------------------------------------------------------------

  function ClockCall(slot: nat, domain: int, offsetKhz: int): NativeCall
    requires IsI32(offsetKhz)
  {
    NativeCall(SetPstates20, slot, 0, ClockRequest(domain, offsetKhz))
  }

  function PowerCall(slot: nat, pcm: int): NativeCall {
    NativeCall(PowerSetStatus, slot, 0, PowerRequest(pcm))
  }

  function ThermalCall(slot: nat, tempC: int, priority: bool): NativeCall {
    NativeCall(ThermalSetLimit, slot, 0, ThermalRequest(tempC, priority))
  }

  /** SetCoolerLevels always targets cooler index 0. */
  function CoolerCall(slot: nat, buf: seq<Byte>): NativeCall {
    NativeCall(SetCoolerLevels, slot, 0, buf)
  }

  /**
   * `_set_clock_offset`: handle errors propagate; an offset outside int32
   * makes `struct.pack` raise before the table is consulted.
   */
  function ClockOffsetEffect(env: Env, n: nat, h: Result<nat, Error>, domain: int, offsetKhz: int)
    : (e: Effect<Outcome<Error>>)
    ensures h.Failure? ==> e == Effect(Fail(h.error), [])
    ensures h.Success? && !IsI32(offsetKhz) ==> e == Effect(Fail(StructError), [])
    ensures h.Success? && IsI32(offsetKhz) ==> e == SetEffect(env, n, ClockCall(h.value, domain, offsetKhz))
  {
    if h.Failure? then Effect(Fail(h.error), [])
    else if !IsI32(offsetKhz) then Effect(Fail(StructError), [])
    else SetEffect(env, n, ClockCall(h.value, domain, offsetKhz))
  }

  function PowerSetEffect(env: Env, n: nat, h: Result<nat, Error>, pcm: int): (e: Effect<Outcome<Error>>)
    ensures h.Failure? ==> e == Effect(Fail(h.error), [])
    ensures h.Success? && e.result.Fail? ==> e.result.error.NvApiError?
  {
    if h.Failure? then Effect(Fail(h.error), []) else SetEffect(env, n, PowerCall(h.value, pcm))
  }

  function ThermalSetEffect(env: Env, n: nat, h: Result<nat, Error>, tempC: int, priority: bool)
    : (e: Effect<Outcome<Error>>)
    ensures h.Failure? ==> e == Effect(Fail(h.error), [])
    ensures h.Success? && e.result.Fail? ==> e.result.error.NvApiError?
  {
    if h.Failure? then Effect(Fail(h.error), []) else SetEffect(env, n, ThermalCall(h.value, tempC, priority))
  }

  function CoolerLevelEffect(env: Env, n: nat, h: Result<nat, Error>, speedPct: int): (e: Effect<Outcome<Error>>)
    ensures h.Failure? ==> e == Effect(Fail(h.error), [])
    ensures h.Success? && e.result.Fail? ==> e.result.error.NvApiError?
  {
    if h.Failure? then Effect(Fail(h.error), []) else SetEffect(env, n, CoolerCall(h.value, CoolerManual(speedPct)))
  }

  function CoolerAutoEffect(env: Env, n: nat, h: Result<nat, Error>): (e: Effect<Outcome<Error>>)
    ensures h.Failure? ==> e == Effect(Fail(h.error), [])
    ensures h.Success? && e.result.Fail? ==> e.result.error.NvApiError?
  {
    if h.Failure? then Effect(Fail(h.error), []) else SetEffect(env, n, CoolerCall(h.value, CoolerAuto()))
  }

  /** The SetControl buffer: GetControl's, with level and mode written into every entry. */
  function FanControlBuffer(s: seq<Byte>, layout: FanLayout, speedPct: int, manual: bool): (r: seq<Byte>)
    requires layout.Entries?
    ensures |r| == |s|
  {
    FanWritten(s, layout.entrySize, Clamp(speedPct, 0, 100), if manual then 1 else 0, layout.count)
  }

  /**
   * `_set_fan_new_api` after GetControl: the legacy level call when
   * GetControl failed (`got` None) or the fan count gives no usable
   * layout; otherwise SetControl with GetControl's buffer modified.
   */
  function FanAfterGet(env: Env, n: nat, slot: nat, got: Option<seq<Byte>>, speedPct: int, manual: bool)
    : (e: Effect<Outcome<Error>>)
    requires got.Some? ==> |got.value| == FAN_CONTROL_SIZE
  {
    var layout := if got.Some? then FanLayoutOf(got.value) else Unusable;
    if layout.Unusable? then CoolerLevelEffect(env, n, Success(slot), speedPct)
    else SetEffect(env, n, NativeCall(FanSetControl, slot, 0, FanControlBuffer(got.value, layout, speedPct, manual)))
  }

  /**
   * `_set_fan_new_api`: get-modify-set over the new fan API, falling back
   * to `_set_cooler_level(speed)` when either function is missing, when
   * GetControl fails, or when the fan count gives no usable layout.
   */
  function FanNewApiEffect(env: Env, n: nat, h: Result<nat, Error>, speedPct: int, manual: bool)
    : (e: Effect<Outcome<Error>>)
  {
    if h.Failure? then Effect(Fail(h.error), [])
    else if FanGetControl !in env.fns || FanSetControl !in env.fns then CoolerLevelEffect(env, n, h, speedPct)
    else
      var g := GetEffect(env, n, FanGetControl, h.value, Blank(FAN_CONTROL_SIZE, 1));
      var got := if g.result.Success? then Some(g.result.value) else None;
      After(g.calls, FanAfterGet(env, n + |g.calls|, h.value, got, speedPct, manual))
  }

  /** The legacy call `set_fan_speed` (a level) or `set_fan_auto` (the auto policy) falls back to. */
  function LegacyEffect(env: Env, n: nat, h: Result<nat, Error>, speedPct: int, auto: bool): Effect<Outcome<Error>> {
    if auto then CoolerAutoEffect(env, n, h) else CoolerLevelEffect(env, n, h, speedPct)
  }

  /** How a fan request ended after the memo lookup, its calls, and the API it notes. */
  datatype FanRun = FanRun(out: Outcome<Error>, calls: seq<NativeCall>, note: Option<string>)

  /**
   * `set_fan_speed(speed)` (`auto` false) and `set_fan_auto()` (`auto`
   * true) once the cached preference is known: "old" goes straight to the
   * legacy call and notes nothing; otherwise the new API is tried and
   * "new" is noted when it returns; an NvApiError from it leads to the
   * legacy call, and "old" is noted when that returns.
   */
  function FanSelectEffect(env: Env, n: nat, h: Result<nat, Error>, cached: Option<string>, speedPct: int, auto: bool)
    : (r: FanRun)
  {
    if cached == Some("old") then
      var lg := LegacyEffect(env, n, h, speedPct, auto);
      FanRun(lg.result, lg.calls, None)
    else
      var nw := FanNewApiEffect(env, n, h, if auto then 0 else speedPct, !auto);
      if nw.result.Pass? then FanRun(Pass, nw.calls, Some("new"))
      else if !nw.result.error.NvApiError? then FanRun(nw.result, nw.calls, None)
      else
        var lg := LegacyEffect(env, n + |nw.calls|, h, speedPct, auto);
        FanRun(lg.result, nw.calls + lg.calls, if lg.result.Pass? then Some("old") else None)
  }

  // ---------------------------------------------------------------------
  // Properties of the setters
  // ---------------------------------------------------------------------

  /**
   * The clock request `_set_clock_offset` sends reads back, through
   * `_read_clock_delta`, as exactly the offset with a zero range.
   */
  lemma ClockCallReadsBack(slot: nat, domain: nat, offsetKhz: int)
    requires domain < WORD && IsI32(offsetKhz)
    ensures ClockCall(slot, domain, offsetKhz).payload == ClockRequest(domain, offsetKhz)
    ensures ClockDelta(ClockCall(slot, domain, offsetKhz).payload, domain) == (offsetKhz, 0, 0)
  {
    ClockRequestReadsBack(domain, offsetKhz);
  }

  /** The GetControl request `_set_fan_new_api` issues first. */
  function GetControlCall(slot: nat): NativeCall {
    NativeCall(FanGetControl, slot, 0, Blank(FAN_CONTROL_SIZE, 1))
  }

  /**
   * Whether `_set_fan_new_api` reaches SetControl: both functions are
   * resolved, GetControl succeeds, and its buffer reports 6 to 16 fans.
   */
  predicate NewPath(env: Env, n: nat, slot: nat) {
    var reply := env.respond(n, GetControlCall(slot));
    FanGetControl in env.fns && FanSetControl in env.fns && reply.status == 0
    && 6 <= FanCount(Filled(GetControlCall(slot).payload, reply)) <= 16
  }

  /**
   * On the new path the calls are GetControl followed by the retried
   * SetControl call (the buffer of `FanControlBuffer`), and nothing else.
   */
  lemma FanNewPathCalls(env: Env, n: nat, slot: nat, speedPct: int, manual: bool)
    requires NewPath(env, n, slot)
    ensures var e := FanNewApiEffect(env, n, Success(slot), speedPct, manual);
      && e.calls[0] == GetControlCall(slot) && |e.calls| >= 2
      && forall i :: 1 <= i < |e.calls| ==> e.calls[i].op == FanSetControl
  {
    var g := GetEffect(env, n, FanGetControl, slot, GetControlCall(slot).payload);
    FanLayoutUsableIff(g.result.value);
  }

  /**
   * Off the new path no SetControl call is made: every call is the
   * GetControl request or the legacy manual request for the speed.
   */
  lemma FanLegacyPathCalls(env: Env, n: nat, slot: nat, speedPct: int, manual: bool)
    requires !NewPath(env, n, slot)
    ensures var e := FanNewApiEffect(env, n, Success(slot), speedPct, manual);
      forall i :: 0 <= i < |e.calls| ==>
        e.calls[i] == GetControlCall(slot) || e.calls[i] == CoolerCall(slot, CoolerManual(speedPct))
  {
    if FanGetControl in env.fns && FanSetControl in env.fns {
      var g := GetEffect(env, n, FanGetControl, slot, GetControlCall(slot).payload);
      if g.result.Success? {
        FanLayoutUsableIff(g.result.value);
      }
    }
  }

  /**
   * On the new path the SetControl buffer is GetControl's with the
   * clamped level and the mode written into each of the `count` entries,
   * and every other byte kept.
   */
  lemma FanControlBufferWrites(s: seq<Byte>, speedPct: int, manual: bool, i: nat, k: nat)
    requires |s| == FAN_CONTROL_SIZE && FanLayoutOf(s).Entries?
    requires i < FanLayoutOf(s).count && k < |s|
    requires forall j :: 0 <= j < FanLayoutOf(s).count ==>
      !(LevelOff(j, FanLayoutOf(s).entrySize) <= k < LevelOff(j, FanLayoutOf(s).entrySize) + 8)
    ensures var l := FanLayoutOf(s); var r := FanControlBuffer(s, l, speedPct, manual);
      && LevelOff(i, l.entrySize) + 8 <= |s|
      && U32(r, LevelOff(i, l.entrySize)) == Clamp(speedPct, 0, 100)
      && U32(r, LevelOff(i, l.entrySize) + 4) == (if manual then 1 else 0)
      && r[k] == s[k]
  {
    var l := FanLayoutOf(s);
    FanLayoutUsableIff(s);
    var last := LevelOff(l.count - 1, l.entrySize);
    assert last + 8 <= |s| by {
      assert (l.count - 1) * l.entrySize + l.entrySize == l.count * l.entrySize;
    }
    FanWrittenSets(s, l.entrySize, Clamp(speedPct, 0, 100), if manual then 1 else 0, l.count, i);
    FanWrittenPreserves(s, l.entrySize, Clamp(speedPct, 0, 100), if manual then 1 else 0, l.count, k);
  }

  /**
   * `set_fan_auto` calls the new-API path with speed 0 and manual off, so
   * when that path falls back its legacy request is a MANUAL 0% request,
   * not the auto policy.
   */
  lemma AutoFallbackIsManualZero(env: Env, n: nat, slot: nat)
    requires FanGetControl !in env.fns && SetCoolerLevels in env.fns
    ensures var e := FanNewApiEffect(env, n, Success(slot), 0, false);
      e.calls[0].payload == CoolerManual(0)
      && U32(e.calls[0].payload, 4) == 0 && U32(e.calls[0].payload, 8) == FAN_POLICY_MANUAL
  {
  }

  /**
   * "new" is noted whenever the new-API path returns, even when it went
   * to the legacy call internally: with GetControl failing and the legacy
   * call succeeding, no SetControl call is made and "new" is noted.
   */
  lemma NewNotedAfterInternalFallback(env: Env, n: nat, slot: nat, speedPct: int)
    requires FanGetControl in env.fns && FanSetControl in env.fns && SetCoolerLevels in env.fns
    requires env.respond(n, GetControlCall(slot)).status != 0
    requires env.respond(n + 1, CoolerCall(slot, CoolerManual(speedPct))).status == 0
    ensures var r := FanSelectEffect(env, n, Success(slot), None, speedPct, false);
      r.out == Pass && r.note == Some("new")
      && r.calls == [GetControlCall(slot), CoolerCall(slot, CoolerManual(speedPct))]
  {
    InternalFallback(env, n, slot, speedPct);
  }

  /** GetControl failing and the legacy call succeeding: the new-API path returns after those two calls. */
  lemma InternalFallback(env: Env, n: nat, slot: nat, speedPct: int)
    requires FanGetControl in env.fns && FanSetControl in env.fns && SetCoolerLevels in env.fns
    requires env.respond(n, GetControlCall(slot)).status != 0
    requires env.respond(n + 1, CoolerCall(slot, CoolerManual(speedPct))).status == 0
    ensures FanNewApiEffect(env, n, Success(slot), speedPct, true)
      == Effect(Pass, [GetControlCall(slot), CoolerCall(slot, CoolerManual(speedPct))])
  {
    var legacy := CoolerCall(slot, CoolerManual(speedPct));
    SetFirstSuccess(env, n + 1, legacy);
    var g := GetEffect(env, n, FanGetControl, slot, GetControlCall(slot).payload);
    assert g.result.Failure? && g.calls == [GetControlCall(slot)];
    assert CoolerLevelEffect(env, n + 1, Success(slot), speedPct) == Effect(Pass, [legacy]);
  }

  /** A cached "old" preference makes only the legacy call and notes nothing. */
  lemma CachedOldOnlyLegacy(env: Env, n: nat, h: Result<nat, Error>, speedPct: int, auto: bool)
    ensures var r := FanSelectEffect(env, n, h, Some("old"), speedPct, auto);
      r.note == None && forall i :: 0 <= i < |r.calls| ==> r.calls[i].op == SetCoolerLevels
  {
  }

  // ---------------------------------------------------------------------
  // get_oc_status
  // ---------------------------------------------------------------------

  /** `OcStatus` in integer units: kHz for clocks, PCM for power, degrees for temperature. */
  datatype OcStatus = OcStatus(
    gpuName: string,
    busId: nat,
    coreOffsetKhz: int,
    coreRangeKhz: (int, int),
    memOffsetKhz: int,
    memRangeKhz: (int, int),
    powerPcm: nat,
    powerRangePcm: (nat, nat),
    thermalC: nat,
    thermalRangeC: (nat, nat),
    fanPct: Option<nat>)

  /** The dataclass defaults: 100% power in 50..150%, 83 degrees in 65..90. */
  const DEFAULT_STATUS: OcStatus :=
    OcStatus("", 0, 0, (0, 0), 0, (0, 0), 100000, (50000, 150000), 83, (65, 90), None)

  /** The clock fields a PStates20 read gives: core (domain 0) and memory (domain 4) deltas. */
  function WithClocks(s: OcStatus, ps: Result<seq<Byte>, Error>): OcStatus
    requires ps.Success? ==> IsPstatesBuffer(ps.value)
  {
    if ps.Failure? then s
    else
      var core := ClockDelta(ps.value, 0);
      var mem := ClockDelta(ps.value, 4);
      s.(coreOffsetKhz := core.0, coreRangeKhz := (core.1, core.2),
         memOffsetKhz := mem.0, memRangeKhz := (mem.1, mem.2))
  }

  /** The clock block: both deltas when PStates20 reads. */
  function ClocksRead(env: Env, n: nat, slot: nat, s: OcStatus): Effect<OcStatus> {
    var g := PstatesEffect(env, n, Success(slot));
    Effect(WithClocks(s, g.result), g.calls)
  }

  /** The power fields: both reads must succeed, and the default must be positive. */
  function WithPower(s: OcStatus, st: Result<nat, Error>, info: Result<(nat, nat, nat), Error>): OcStatus {
    if st.Success? && info.Success? && info.value.1 > 0 then
      s.(powerPcm := st.value, powerRangePcm := (info.value.0, info.value.2))
    else s
  }

  /** The power block: status, then info when the status read. */
  function PowerRead(env: Env, n: nat, slot: nat, s: OcStatus): Effect<OcStatus> {
    var st := PowerStatusEffect(env, n, Success(slot));
    if st.result.Failure? then Effect(s, st.calls)
    else
      var info := PowerInfoEffect(env, n + |st.calls|, Success(slot));
      Effect(WithPower(s, st.result, info.result), st.calls + info.calls)
  }

  /** The thermal-limit field. */
  function WithThermalLimit(s: OcStatus, g: Result<nat, Error>): OcStatus {
    if g.Success? then s.(thermalC := g.value) else s
  }

  /** The thermal-limit block. */
  function ThermalLimitRead(env: Env, n: nat, slot: nat, s: OcStatus): Effect<OcStatus> {
    var g := ThermalLimitEffect(env, n, Success(slot));
    Effect(WithThermalLimit(s, g.result), g.calls)
  }

  /** The thermal-range field: the minimum and the maximum. */
  function WithThermalRange(s: OcStatus, g: Result<(nat, nat, nat), Error>): OcStatus {
    if g.Success? then s.(thermalRangeC := (g.value.0, g.value.2)) else s
  }

  /** The thermal-range block. */
  function ThermalRangeRead(env: Env, n: nat, slot: nat, s: OcStatus): Effect<OcStatus> {
    var g := ThermalInfoEffect(env, n, Success(slot));
    Effect(WithThermalRange(s, g.result), g.calls)
  }

  /** The two thermal blocks in order. */
  function ThermalReads(env: Env, n: nat, slot: nat, s: OcStatus): Effect<OcStatus> {
    var t := ThermalLimitRead(env, n, slot, s);
    After(t.calls, ThermalRangeRead(env, n + |t.calls|, slot, t.result))
  }

  /** The power block, then the thermal blocks. */
  function PowerOnward(env: Env, n: nat, slot: nat, s: OcStatus): Effect<OcStatus> {
    var p := PowerRead(env, n, slot, s);
    After(p.calls, ThermalReads(env, n + |p.calls|, slot, p.result))
  }

  /** The four blocks in order, each keeping the previous fields when its reads fail. */
  function OcReadings(env: Env, n: nat, slot: nat, s: OcStatus): Effect<OcStatus> {
    var c := ClocksRead(env, n, slot, s);
    After(c.calls, PowerOnward(env, n + |c.calls|, slot, c.result))
  }

  /**
   * `get_oc_status` without the cache save: name and bus id (whose handle
   * errors propagate), then the four blocks over the defaults.
   */
  function OcStatusEffect(env: Env, n: nat, h: Result<nat, Error>): (e: Effect<Result<OcStatus, Error>>)
    ensures e.result.Failure? <==> h.Failure?
    ensures h.Failure? ==> e == Effect(Failure(h.error), [])
  {
    if h.Failure? then Effect(Failure(h.error), [])
    else
      var name := NameEffect(env, n, h);
      var bus := BusEffect(env, n + |name.calls|, h);
      var base := DEFAULT_STATUS.(gpuName := name.result.value, busId := bus.result.value);
      var r := OcReadings(env, n + |name.calls| + |bus.calls|, h.value, base);
      Effect(Success(r.result), name.calls + bus.calls + r.calls)
  }

  /** The `def_pcm > 0` guard never refuses a power reading: the default is always plausible. */
  lemma PowerGuardHolds(env: Env, n: nat, slot: nat)
    ensures var e := PowerInfoEffect(env, n, Success(slot));
      e.result.Success? ==> 30000 <= e.result.value.1 <= 200000
  {
    var e := PowerInfoEffect(env, n, Success(slot));
    if e.result.Success? {
      var g := GetEffect(env, n, PowerGetInfo, slot, Blank(POWER_INFO_SIZE, 1));
      PowerDefaultPlausible(g.result.value);
    }
  }

  /**
   * Each block keeps the defaults when its functions are all missing:
   * with nothing but the name and bus id resolved, the status is the
   * default one carrying the name and the bus id, and only those two
   * calls are made.
   */
  lemma OcStatusAllMissing(env: Env, n: nat, slot: nat)
    requires env.fns <= {GetFullName, GetBusId}
    ensures var e := OcStatusEffect(env, n, Success(slot));
      e.result.Success?
      && e.result.value == DEFAULT_STATUS.(gpuName := e.result.value.gpuName, busId := e.result.value.busId)
      && |e.calls| <= 2
  {
    var h: Result<nat, Error> := Success(slot);
    var name := NameEffect(env, n, h);
    var bus := BusEffect(env, n + |name.calls|, h);
    var base := DEFAULT_STATUS.(gpuName := name.result.value, busId := bus.result.value);
    ReadingsKeep(env, n + |name.calls| + |bus.calls|, slot, base);
  }

  /** With none of the read functions resolved, the four blocks make no call and change nothing. */
  lemma ReadingsKeep(env: Env, n: nat, slot: nat, s: OcStatus)
    requires GetPstates20 !in env.fns && PowerGetStatus !in env.fns
    requires ThermalGetLimit !in env.fns && ThermalGetInfo !in env.fns
    ensures OcReadings(env, n, slot, s) == Effect(s, [])
  {
    assert ClocksRead(env, n, slot, s) == Effect(s, []);
    assert PowerRead(env, n, slot, s) == Effect(s, []);
    assert ThermalLimitRead(env, n, slot, s) == Effect(s, []);
    assert ThermalRangeRead(env, n, slot, s) == Effect(s, []);
  }

  /** A failing clock read leaves the other blocks' fields untouched, and vice versa. */
  lemma BlocksIndependent(env: Env, n: nat, slot: nat, s: OcStatus)
    ensures var c := ClocksRead(env, n, slot, s).result;
      c.powerPcm == s.powerPcm && c.powerRangePcm == s.powerRangePcm
      && c.thermalC == s.thermalC && c.thermalRangeC == s.thermalRangeC
    ensures var p := PowerRead(env, n, slot, s).result;
      p.coreOffsetKhz == s.coreOffsetKhz && p.memOffsetKhz == s.memOffsetKhz
      && p.thermalC == s.thermalC && p.thermalRangeC == s.thermalRangeC
    ensures var t := ThermalLimitRead(env, n, slot, s).result;
      t.coreOffsetKhz == s.coreOffsetKhz && t.powerPcm == s.powerPcm && t.thermalRangeC == s.thermalRangeC
    ensures var t := ThermalRangeRead(env, n, slot, s).result;
      t.coreOffsetKhz == s.coreOffsetKhz && t.powerPcm == s.powerPcm && t.thermalC == s.thermalC
  {
  }

  // ---------------------------------------------------------------------
  // reset_all
  // ---------------------------------------------------------------------

  /** `reset_all`'s power step: set the read default; on an NvApiError, set 100000 instead. */
  function PowerResetEffect(env: Env, n: nat, h: Result<nat, Error>): (e: Effect<Outcome<Error>>)
    ensures h.Failure? ==> e.result == Fail(h.error) && e.calls == []
    ensures h.Success? && e.result.Fail? ==> e.result.error.NvApiError?
  {
    var info := PowerInfoEffect(env, n, h);
    var first :=
      if info.result.Failure? then Effect(Fail(info.result.error), info.calls)
      else After(info.calls, PowerSetEffect(env, n + |info.calls|, h, info.result.value.1));
    if first.result.Pass? || !first.result.error.NvApiError? then first
    else After(first.calls, PowerSetEffect(env, n + |first.calls|, h, 100000))
  }

  /** `reset_all`'s thermal step: set the read default, without priority. */
  function ThermalResetEffect(env: Env, n: nat, h: Result<nat, Error>): (e: Effect<Outcome<Error>>)
    ensures h.Failure? ==> e == Effect(Fail(h.error), [])
    ensures h.Success? && e.result.Fail? ==> e.result.error.NvApiError?
  {
    var info := ThermalInfoEffect(env, n, h);
    if info.result.Failure? then Effect(Fail(info.result.error), info.calls)
    else After(info.calls, ThermalSetEffect(env, n + |info.calls|, h, info.result.value.1, false))
  }

  /** The names of the failed steps, the calls made, and an exception other than NvApiError that escaped. */
  datatype ResetRun = ResetRun(errors: seq<string>, calls: seq<NativeCall>, raised: Option<Error>)

  /** The names `reset_all` records failed steps under, in order. */
  const RESET_STEPS: seq<string> := ["core", "memory", "power", "thermal"]

  /**
   * The first four steps of `reset_all` (core 0, memory 0, power default,
   * thermal default), each attempted whatever came before.
   */
  function ResetSteps(env: Env, n: nat, h: Result<nat, Error>): (s: seq<Effect<Outcome<Error>>>)
    ensures |s| == |RESET_STEPS|
    ensures h.Failure? ==> forall i :: 0 <= i < |s| ==> s[i] == Effect(Fail(h.error), [])
  {
    var core := ClockOffsetEffect(env, n, h, 0, 0);
    var mem := ClockOffsetEffect(env, n + |core.calls|, h, 4, 0);
    var power := PowerResetEffect(env, n + |core.calls| + |mem.calls|, h);
    var thermal := ThermalResetEffect(env, n + |core.calls| + |mem.calls| + |power.calls|, h);
    [core, mem, power, thermal]
  }

  /** The names of the steps that failed, in order. */
  function Failed(names: seq<string>, outs: seq<Outcome<Error>>): (r: seq<string>)
    requires |names| == |outs|
    ensures |r| <= |names|
    ensures forall x :: x in r ==> x in names
  {
    if outs == [] then []
    else (if outs[0].Fail? then [names[0]] else []) + Failed(names[1..], outs[1..])
  }

  /** How each step ended. */
  function Outcomes(steps: seq<Effect<Outcome<Error>>>): (r: seq<Outcome<Error>>)
    ensures |r| == |steps|
    ensures forall i :: 0 <= i < |steps| ==> r[i] == steps[i].result
  {
    seq(|steps|, i requires 0 <= i < |steps| => steps[i].result)
  }

  /** Every call the steps made, in order. */
  function AllCalls(steps: seq<Effect<Outcome<Error>>>): seq<NativeCall> {
    if steps == [] then [] else steps[0].calls + AllCalls(steps[1..])
  }

  /**
   * The first four steps of `reset_all`. A handle error that is not an
   * NvApiError (an IndexError) escapes from the first step before any
   * call.
   */
  function ResetSettingsEffect(env: Env, n: nat, h: Result<nat, Error>): (r: ResetRun)
    ensures r.raised.None? <==> h.Success? || h.error.NvApiError?
    ensures r.raised.Some? ==> r == ResetRun([], [], Some(h.error))
    ensures r.raised.None? ==> |r.errors| <= |RESET_STEPS|
  {
    if h.Failure? && !h.error.NvApiError? then ResetRun([], [], Some(h.error))
    else
      var steps := ResetSteps(env, n, h);
      ResetRun(Failed(RESET_STEPS, Outcomes(steps)), AllCalls(steps), None)
  }

  /** Four steps, written out: their outcomes and their calls in order. */
  lemma FourSteps(steps: seq<Effect<Outcome<Error>>>)
    requires |steps| == 4
    ensures Outcomes(steps) == [steps[0].result, steps[1].result, steps[2].result, steps[3].result]
    ensures AllCalls(steps) == steps[0].calls + steps[1].calls + steps[2].calls + steps[3].calls
  {
    assert AllCalls(steps[3..]) == steps[3].calls + AllCalls(steps[4..]);
    assert AllCalls(steps[2..]) == steps[2].calls + AllCalls(steps[3..]);
    assert AllCalls(steps[1..]) == steps[1].calls + AllCalls(steps[2..]);
  }

  /**
   * `reset_all`'s four steps when none of them raises, each from the call
   * count the ones before it left.
   */
  lemma ResetSettingsUnrolled(env: Env, n: nat, h: Result<nat, Error>)
    requires h.Success? || h.error.NvApiError?
    ensures var c0 := ClockOffsetEffect(env, n, h, 0, 0);
      var c1 := ClockOffsetEffect(env, n + |c0.calls|, h, 4, 0);
      var c2 := PowerResetEffect(env, n + |c0.calls| + |c1.calls|, h);
      var c3 := ThermalResetEffect(env, n + |c0.calls| + |c1.calls| + |c2.calls|, h);
      ResetSettingsEffect(env, n, h) ==
        ResetRun(Failed(RESET_STEPS, [c0.result, c1.result, c2.result, c3.result]),
                 c0.calls + c1.calls + c2.calls + c3.calls, None)
  {
    hide ClockOffsetEffect, PowerResetEffect, ThermalResetEffect, SetEffect, ClockCall, ClockRequest,
      Failed, Outcomes, AllCalls;
    FourSteps(ResetSteps(env, n, h));
  }

  /** A log extended four times is the log extended once by the four parts together. */
  lemma Regroup4(log: seq<NativeCall>, a: seq<NativeCall>, b: seq<NativeCall>, c: seq<NativeCall>, d: seq<NativeCall>)
    ensures log + (a + b + c + d) == log + a + b + c + d
  {
  }

  /** Each step's calls appear in the combined calls. */
  lemma {:induction false} AllCallsHas(steps: seq<Effect<Outcome<Error>>>, i: nat, j: nat)
    requires i < |steps| && j < |steps[i].calls|
    ensures steps[i].calls[j] in AllCalls(steps)
  {
    if i > 0 {
      AllCallsHas(steps[1..], i - 1, j);
    }
  }

  /** With distinct names, a step's name is listed exactly when that step failed. */
  lemma {:induction false} FailedIff(names: seq<string>, outs: seq<Outcome<Error>>, i: nat)
    requires |names| == |outs| && i < |names|
    requires forall a, b :: 0 <= a < b < |names| ==> names[a] != names[b]
    ensures names[i] in Failed(names, outs) <==> outs[i].Fail?
  {
    if i == 0 {
      assert names[0] !in names[1..];
    } else {
      FailedIff(names[1..], outs[1..], i - 1);
    }
  }

  /** Some name is listed exactly when some step failed. */
  lemma {:induction false} FailedNonEmpty(names: seq<string>, outs: seq<Outcome<Error>>)
    requires |names| == |outs|
    ensures Failed(names, outs) != [] <==> exists i :: 0 <= i < |outs| && outs[i].Fail?
  {
    if outs != [] {
      FailedNonEmpty(names[1..], outs[1..]);
      if outs[0].Fail? {
        assert Failed(names, outs)[0] == names[0];
      } else {
        forall i | 1 <= i < |outs| && outs[i].Fail? ensures outs[1..][i - 1].Fail? { }
        forall i | 0 <= i < |outs| - 1 && outs[1..][i].Fail? ensures outs[i + 1].Fail? { }
      }
    }
  }

  /**
   * `reset_all` raises exactly when some step failed: a step's name is
   * among the errors if and only if that step's outcome is a failure.
   */
  lemma ResetErrorsIff(env: Env, n: nat, h: Result<nat, Error>, i: nat)
    requires h.Success? || h.error.NvApiError?
    requires i < |RESET_STEPS|
    ensures RESET_STEPS[i] in ResetSettingsEffect(env, n, h).errors <==> ResetSteps(env, n, h)[i].result.Fail?
  {
    ResetStepsDistinct();
    FailedIff(RESET_STEPS, Outcomes(ResetSteps(env, n, h)), i);
  }

  /** The step names are pairwise distinct (their lengths are). */
  lemma ResetStepsDistinct()
    ensures forall a, b :: 0 <= a < b < |RESET_STEPS| ==> RESET_STEPS[a] != RESET_STEPS[b]
  {
    var lengths := [4, 6, 5, 7];
    assert forall a :: 0 <= a < |RESET_STEPS| ==> |RESET_STEPS[a]| == lengths[a];
  }

  /**
   * With a valid handle, both clock resets are sent whatever their
   * outcome, so a failed core reset does not stop the memory reset.
   */
  lemma ResetSendsBothClockResets(env: Env, n: nat, slot: nat)
    requires SetPstates20 in env.fns
    ensures var r := ResetSettingsEffect(env, n, Success(slot));
      r.raised.None? && ClockCall(slot, 0, 0) in r.calls && ClockCall(slot, 4, 0) in r.calls
  {
    var s := ResetSteps(env, n, Success(slot));
    assert s[0].calls[0] == ClockCall(slot, 0, 0);
    assert s[1].calls[0] == ClockCall(slot, 4, 0);
    AllCallsHas(s, 0, 0);
    AllCallsHas(s, 1, 0);
  }

  /**
   * With a handle error that is an NvApiError (an index at or past the
   * count), every step records an error and no native call is made.
   */
  lemma ResetWithBadIndex(env: Env, n: nat, count: nat, gpu: int)
    requires gpu >= count
    ensures ResetSettingsEffect(env, n, HandleSlot(count, gpu)) == ResetRun(RESET_STEPS, [], None)
  {
    HandleErrorFailsEveryStep(env, n, HandleSlot(count, gpu));
  }

  /** A handle error that is an NvApiError fails every step without a call. */
  lemma HandleErrorFailsEveryStep(env: Env, n: nat, h: Result<nat, Error>)
    requires h.Failure? && h.error.NvApiError?
    ensures ResetSettingsEffect(env, n, h) == ResetRun(RESET_STEPS, [], None)
  {
    var steps := ResetSteps(env, n, h);
    AllFail(RESET_STEPS, Outcomes(steps));
    NoCalls(steps);
  }

  /** Steps that all fail: every name is listed. */
  lemma {:induction false} AllFail(names: seq<string>, outs: seq<Outcome<Error>>)
    requires |names| == |outs|
    requires forall i :: 0 <= i < |outs| ==> outs[i].Fail?
    ensures Failed(names, outs) == names
  {
    if outs != [] {
      AllFail(names[1..], outs[1..]);
      assert names == [names[0]] + names[1..];
    }
  }

  /** Steps that make no call make no call between them. */
  lemma {:induction false} NoCalls(steps: seq<Effect<Outcome<Error>>>)
    requires forall i :: 0 <= i < |steps| ==> steps[i].calls == []
    ensures AllCalls(steps) == []
  {
    if steps != [] {
      NoCalls(steps[1..]);
    }
  }

  /**
   * The power step counts as failed only when the fall-back 100000 set
   * fails too: when the default cannot be read but 100000 can be set, no
   * power error is recorded.
   */
  lemma PowerFallbackRescues(env: Env, n: nat, slot: nat)
    requires PowerGetInfo in env.fns && PowerSetStatus in env.fns
    requires env.respond(n, NativeCall(PowerGetInfo, slot, 0, Blank(POWER_INFO_SIZE, 1))).status != 0
    requires env.respond(n + 1, PowerCall(slot, 100000)).status == 0
    ensures var e := PowerResetEffect(env, n, Success(slot));
      e.result == Pass && e.calls == [NativeCall(PowerGetInfo, slot, 0, Blank(POWER_INFO_SIZE, 1)), PowerCall(slot, 100000)]
  {
    var get := NativeCall(PowerGetInfo, slot, 0, Blank(POWER_INFO_SIZE, 1));
    var info := PowerInfoEffect(env, n, Success(slot));
    assert info.result.Failure? && info.result.error.NvApiError? && info.calls == [get];
    SetFirstSuccess(env, n + 1, PowerCall(slot, 100000));
    assert PowerSetEffect(env, n + 1, Success(slot), 100000) == Effect(Pass, [PowerCall(slot, 100000)]);
  }
}

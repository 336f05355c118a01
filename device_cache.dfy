/**
 * The per-GPU device cache: probe results remembered across sessions,
 * keyed by GPU name, bus id and driver version. The JSON file is an
 * abstract value (`CacheFile`): missing, unreadable, not valid UTF-8, or
 * a parsed JSON document; the file system itself is not modelled.
 */
module DeviceCache {
  import opened Wrappers
  import opened Text

  /** A parsed JSON value; numbers are integers here. */
  datatype Json =
    | JNull
    | JBool(b: bool)
    | JNum(n: int)
    | JStr(s: string)
    | JArray(items: seq<Json>)
    | JObject(fields: map<string, Json>)

  /** The cache file as `load_cache` finds it. */
  datatype CacheFile =
    | Missing               // the file does not exist
    | Unreadable            // an OS error, a JSON decode error or a type error while reading
    | Undecodable           // bytes that are not UTF-8: `read_text` raises UnicodeDecodeError
    | Parsed(doc: Json)     // the document json.loads returned

  /** The exception `load_cache` lets escape: its except clause does not name UnicodeDecodeError. */
  datatype LoadError = UnicodeDecodeError

  /** `GpuCacheEntry`: probe hints for one GPU + driver version. */
  datatype GpuCacheEntry = GpuCacheEntry(
    gpuName: string,
    busId: int,
    driverVersion: string,
    powerPrimaryOk: Option<bool>,
    scannedPowerOffsets: Option<seq<int>>,
    thermalShifted: Option<bool>,
    fanApi: Option<string>,
    fanEntrySize: Option<int>,
    fanCount: Option<int>,
    cachedAt: string,
    probeTimeMs: int)

  /** The dataclass defaults. */
  function DefaultEntry(): GpuCacheEntry {
    GpuCacheEntry("", 0, "", None, None, None, None, None, None, "", 0)
  }

  // ---------------------------------------------------------------------
  // The cache key
  // ---------------------------------------------------------------------

  /** `_cache_key`: "<name> [Bus <bus>] @ <driver>". */
  function CacheKey(gpuName: string, busId: int, driverVersion: string): (key: string)
    ensures StartsWith(key, gpuName) && EndsWith(key, driverVersion)
  {
    gpuName + " [Bus " + FormatInt(busId) + "] @ " + driverVersion
  }

  function EntryKey(e: GpuCacheEntry): string {
    CacheKey(e.gpuName, e.busId, e.driverVersion)
  }

  /**
   * The driver version is part of the key: for the same GPU, two driver
   * versions give two keys, so a driver update misses the old entry.
   */
  lemma DriverChangeChangesKey(gpuName: string, busId: int, d1: string, d2: string)
    requires d1 != d2
    ensures CacheKey(gpuName, busId, d1) != CacheKey(gpuName, busId, d2)
  {
    var prefix := gpuName + " [Bus " + FormatInt(busId) + "] @ ";
    assert CacheKey(gpuName, busId, d1) == prefix + d1;
    assert CacheKey(gpuName, busId, d2) == prefix + d2;
    assert (prefix + d1)[|prefix|..] == d1;
    assert (prefix + d2)[|prefix|..] == d2;
  }

  // ---------------------------------------------------------------------
  // Entries as JSON objects
  // ---------------------------------------------------------------------

  /**
   * `data.get(key, default)` for a text field, when the stored value is
   * text or absent. Any other stored value reads as the default here, where
   * Python would keep that value whatever its type.
   */
  function GetStr(o: map<string, Json>, key: string, default: string): string {
    if key in o && o[key].JStr? then o[key].s else default
  }

  /** `data.get(key, default)` for an integer field; a stored value that is not a number reads as the default. */
  function GetInt(o: map<string, Json>, key: string, default: int): int {
    if key in o && o[key].JNum? then o[key].n else default
  }

  /** `data.get(key)` for an optional flag; a stored value that is not a boolean reads as None. */
  function GetOptBool(o: map<string, Json>, key: string): Option<bool> {
    if key in o && o[key].JBool? then Some(o[key].b) else None
  }

  /** `data.get(key)` for an optional integer; a stored value that is not a number reads as None. */
  function GetOptInt(o: map<string, Json>, key: string): Option<int> {
    if key in o && o[key].JNum? then Some(o[key].n) else None
  }

  /** `data.get(key)` for an optional text; a stored value that is not text reads as None. */
  function GetOptStr(o: map<string, Json>, key: string): Option<string> {
    if key in o && o[key].JStr? then Some(o[key].s) else None
  }

  /** The integers of a JSON array, if every item is a number. */
  function IntsOf(items: seq<Json>): (r: Option<seq<int>>)
    ensures r.Some? ==> |r.value| == |items|
  {
    if items == [] then Some([])
    else if !items[0].JNum? then None
    else match IntsOf(items[1..])
      case None => None
      case Some(rest) => Some([items[0].n] + rest)
  }

  /** `data.get(key)` for an optional list of integers. */
  function GetOptInts(o: map<string, Json>, key: string): Option<seq<int>> {
    if key in o && o[key].JArray? then IntsOf(o[key].items) else None
  }

  /** The entry `load_cache` builds from one stored JSON object. */
  function EntryOf(o: map<string, Json>): GpuCacheEntry {
    GpuCacheEntry(
      GetStr(o, "gpu_name", ""),
      GetInt(o, "bus_id", 0),
      GetStr(o, "driver_version", ""),
      GetOptBool(o, "power_primary_ok"),
      GetOptInts(o, "scanned_power_offsets"),
      GetOptBool(o, "thermal_shifted"),
      GetOptStr(o, "fan_api"),
      GetOptInt(o, "fan_entry_size"),
      GetOptInt(o, "fan_count"),
      GetStr(o, "cached_at", ""),
      GetInt(o, "probe_time_ms", 0))
  }

  /**
   * A stored object whose five required fields are absent, and whose other
   * keys hold only null, reads as the dataclass defaults: an absent field
   * takes its `get` default, a null optional hint is None.
   */
  lemma MissingFieldsDefault(o: map<string, Json>)
    requires "gpu_name" !in o && "bus_id" !in o && "driver_version" !in o
    requires "cached_at" !in o && "probe_time_ms" !in o
    requires forall k :: k in o ==> o[k].JNull?
    ensures EntryOf(o) == DefaultEntry()
  {
    assert forall k :: k in o ==> !o[k].JStr? && !o[k].JNum? && !o[k].JBool? && !o[k].JArray?;
  }

  function IntsJson(xs: seq<int>): (r: seq<Json>)
    ensures |r| == |xs|
  {
    if xs == [] then [] else [JNum(xs[0])] + IntsJson(xs[1..])
  }

  function OptBoolJson(v: Option<bool>): Json {
    if v.Some? then JBool(v.value) else JNull
  }

  function OptIntJson(v: Option<int>): Json {
    if v.Some? then JNum(v.value) else JNull
  }

  function OptStrJson(v: Option<string>): Json {
    if v.Some? then JStr(v.value) else JNull
  }

  /** `asdict(entry)`: every field under its own name, None as null. */
  function ToJson(e: GpuCacheEntry): map<string, Json> {
    map[
      "gpu_name" := JStr(e.gpuName),
      "bus_id" := JNum(e.busId),
      "driver_version" := JStr(e.driverVersion),
      "power_primary_ok" := OptBoolJson(e.powerPrimaryOk),
      "scanned_power_offsets" := if e.scannedPowerOffsets.Some? then JArray(IntsJson(e.scannedPowerOffsets.value)) else JNull,
      "thermal_shifted" := OptBoolJson(e.thermalShifted),
      "fan_api" := OptStrJson(e.fanApi),
      "fan_entry_size" := OptIntJson(e.fanEntrySize),
      "fan_count" := OptIntJson(e.fanCount),
      "cached_at" := JStr(e.cachedAt),
      "probe_time_ms" := JNum(e.probeTimeMs)
    ]
  }

  lemma {:induction false} IntsRoundTrip(xs: seq<int>)
    ensures IntsOf(IntsJson(xs)) == Some(xs)
  {
    if xs != [] {
      IntsRoundTrip(xs[1..]);
      assert IntsJson(xs)[1..] == IntsJson(xs[1..]);
      assert [xs[0]] + xs[1..] == xs;
    }
  }

  /** The identity fields of `asdict(e)`, each under its own name. */
  lemma ToJsonIdentity(e: GpuCacheEntry)
    ensures var o := ToJson(e);
      && o["gpu_name"] == JStr(e.gpuName)
      && o["bus_id"] == JNum(e.busId)
      && o["driver_version"] == JStr(e.driverVersion)
      && o["cached_at"] == JStr(e.cachedAt)
      && o["probe_time_ms"] == JNum(e.probeTimeMs)
  {
  }

  /** The optional probe hints of `asdict(e)`, None written as null. */
  lemma ToJsonHints(e: GpuCacheEntry)
    ensures var o := ToJson(e);
      && o["power_primary_ok"] == OptBoolJson(e.powerPrimaryOk)
      && o["scanned_power_offsets"]
         == (if e.scannedPowerOffsets.Some? then JArray(IntsJson(e.scannedPowerOffsets.value)) else JNull)
      && o["thermal_shifted"] == OptBoolJson(e.thermalShifted)
      && o["fan_api"] == OptStrJson(e.fanApi)
      && o["fan_entry_size"] == OptIntJson(e.fanEntrySize)
      && o["fan_count"] == OptIntJson(e.fanCount)
  {
  }

  /** An entry written by `asdict` reads back field for field, None included. */
  lemma EntryRoundTrip(e: GpuCacheEntry)
    ensures EntryOf(ToJson(e)) == e
  {
    ToJsonIdentity(e);
    ToJsonHints(e);
    if e.scannedPowerOffsets.Some? {
      IntsRoundTrip(e.scannedPowerOffsets.value);
    }
  }

  // ---------------------------------------------------------------------
  // Loading and saving
  // ---------------------------------------------------------------------

  /** The entries of a stored top-level object: every value that is an object. */
  function EntriesOf(raw: map<string, Json>): (m: map<string, GpuCacheEntry>)
    ensures m.Keys <= raw.Keys
  {
    map k | k in raw && raw[k].JObject? :: EntryOf(raw[k].fields)
  }

  /** What `load_cache` returns for a given file; None where it raises. */
  function LoadedEntries(file: CacheFile): Option<map<string, GpuCacheEntry>> {
    if file.Undecodable? then None
    else if file.Parsed? && file.doc.JObject? then Some(EntriesOf(file.doc.fields))
    else Some(map[])
  }

  /**
   * `load_cache` raises only on a file that is not UTF-8. A missing or
   * unreadable file, or a document that is not an object, loads as the
   * empty cache; in an object, values that are not objects are skipped
   * and every object value is loaded.
   */
  lemma LoadIsForgiving(file: CacheFile)
    ensures LoadedEntries(file).None? <==> file.Undecodable?
    ensures !file.Undecodable? && !(file.Parsed? && file.doc.JObject?) ==> LoadedEntries(file) == Some(map[])
    ensures file.Parsed? && file.doc.JObject? ==>
      forall k :: k in file.doc.fields ==>
        (k in LoadedEntries(file).value <==> file.doc.fields[k].JObject?)
  {
  }

  /** The document `save_cache` writes: `{key: asdict(entry)}`. */
  function Serialize(entries: map<string, GpuCacheEntry>): Json {
    JObject(map k | k in entries :: JObject(ToJson(entries[k])))
  }

  /** Saving and loading again gives back the same cache. */
  lemma SaveLoadRoundTrip(entries: map<string, GpuCacheEntry>)
    ensures LoadedEntries(Parsed(Serialize(entries))) == Some(entries)
  {
    var raw := map k | k in entries :: JObject(ToJson(entries[k]));
    assert Serialize(entries) == JObject(raw);
    LoadSerialized(entries, raw);
  }

  /** The step of the round trip after the document is built: each object loads back as its entry. */
  lemma LoadSerialized(entries: map<string, GpuCacheEntry>, raw: map<string, Json>)
    requires raw == map k | k in entries :: JObject(ToJson(entries[k]))
    ensures EntriesOf(raw) == entries
  {
    var loaded := EntriesOf(raw);
    assert loaded.Keys == entries.Keys;
    forall k | k in entries
      ensures loaded[k] == entries[k]
    {
      EntryRoundTrip(entries[k]);
    }
  }

  /** A dict of entries, updated in place by `put_entry`. */
  class GpuCache {
    var entries: map<string, GpuCacheEntry>

    constructor (entries: map<string, GpuCacheEntry>)
      ensures this.entries == entries
    {
      this.entries := entries;
    }
  }

  /** The cache file on disk; `writable` is false where mkdir or write_text fails. */
  class CacheDisk {
    var file: CacheFile
    const writable: bool

    constructor (file: CacheFile, writable: bool)
      ensures this.file == file && this.writable == writable
    {
      this.file := file;
      this.writable := writable;
    }
  }

  /** The loop of `load_cache` over the stored object's items. */
  method DecodeEntries(raw: map<string, Json>) returns (cache: map<string, GpuCacheEntry>)
    ensures cache == EntriesOf(raw)
  {
    cache := map[];
    var todo := raw.Keys;
    while todo != {}
      invariant todo <= raw.Keys
      invariant cache == map k | k in raw.Keys - todo && raw[k].JObject? :: EntryOf(raw[k].fields)
      decreases todo
    {
      var key :| key in todo;
      if raw[key].JObject? {
        cache := cache[key := EntryOf(raw[key].fields)];
      }
      todo := todo - {key};
    }
  }

  /** `load_cache()`: a new dict, empty on the failures it catches; a file that is not UTF-8 raises. */
  method LoadCache(disk: CacheDisk) returns (r: Result<GpuCache, LoadError>)
    ensures r.Failure? <==> disk.file.Undecodable?
    ensures r.Success? ==> fresh(r.value) && Some(r.value.entries) == LoadedEntries(disk.file)
  {
    if disk.file.Undecodable? {
      return Failure(UnicodeDecodeError);
    }
    var entries := map[];
    if disk.file.Parsed? && disk.file.doc.JObject? {
      entries := DecodeEntries(disk.file.doc.fields);
    }
    var cache := new GpuCache(entries);
    r := Success(cache);
  }

  /** `save_cache(cache)`: writes every entry, or reports False on a write failure. */
  method SaveCache(disk: CacheDisk, cache: GpuCache) returns (ok: bool)
    modifies disk
    ensures ok == disk.writable
    ensures disk.file == if ok then Parsed(Serialize(cache.entries)) else old(disk.file)
  {
    if !disk.writable {
      return false;
    }
    disk.file := Parsed(Serialize(cache.entries));
    return true;
  }

  /**
   * `get_entry(name, bus, driver, cache)`: the entry stored under the key,
   * None on a miss; with no cache given, the one on disk, whose load may raise.
   */
  method GetEntry(disk: CacheDisk, gpuName: string, busId: int, driverVersion: string, cache: GpuCache?)
    returns (r: Result<Option<GpuCacheEntry>, LoadError>)
    ensures var c := if cache == null then LoadedEntries(disk.file) else Some(cache.entries);
      r == if c.None? then Failure(UnicodeDecodeError)
           else Success(Get(c.value, CacheKey(gpuName, busId, driverVersion)))
  {
    var c := cache;
    if c == null {
      var loaded := LoadCache(disk);
      if loaded.Failure? {
        return Failure(UnicodeDecodeError);
      }
      c := loaded.value;
    }
    var key := CacheKey(gpuName, busId, driverVersion);
    r := Success(if key in c.entries then Some(c.entries[key]) else None);
  }

  /**
   * `put_entry(entry, cache)`: stores the entry under its own key in the
   * given dict (or a freshly loaded one), saves, ignores the save's result
   * and returns that same dict. A load that raises happens before anything
   * is stored or written.
   */
  method PutEntry(disk: CacheDisk, entry: GpuCacheEntry, cache: GpuCache?) returns (r: Result<GpuCache, LoadError>)
    modifies disk, cache
    ensures r.Failure? <==> cache == null && old(disk.file).Undecodable?
    ensures r.Failure? ==> disk.file == old(disk.file)
    ensures r.Success? && cache != null ==> r.value == cache
    ensures r.Success? && cache == null ==> fresh(r.value)
    ensures r.Success? ==>
      r.value.entries == (if cache == null then LoadedEntries(old(disk.file)).value else old(cache.entries))[EntryKey(entry) := entry]
      && disk.file == if disk.writable then Parsed(Serialize(r.value.entries)) else old(disk.file)
  {
    var c := cache;
    if c == null {
      var loaded := LoadCache(disk);
      if loaded.Failure? {
        return Failure(UnicodeDecodeError);
      }
      c := loaded.value;
    }
    c.entries := c.entries[EntryKey(entry) := entry];
    var _ := SaveCache(disk, c);
    r := Success(c);
  }

  /** `get_entry` right after `put_entry(e)` with e's identity returns e. */
  lemma GetAfterPut(entries: map<string, GpuCacheEntry>, e: GpuCacheEntry)
    ensures Get(entries[EntryKey(e) := e], CacheKey(e.gpuName, e.busId, e.driverVersion)) == Some(e)
  {
  }

  /** `put_entry` leaves every other key's lookup as it was. */
  lemma PutKeepsOthers(entries: map<string, GpuCacheEntry>, e: GpuCacheEntry, key: string)
    requires key != EntryKey(e)
    ensures Get(entries[EntryKey(e) := e], key) == Get(entries, key)
  {
  }

  /**
   * After a driver update, a cache holding only the old driver's probe
   * misses: the same GPU under the new version finds nothing.
   */
  lemma DriverUpdateMisses(e: GpuCacheEntry, newDriver: string)
    requires newDriver != e.driverVersion
    ensures Get(map[EntryKey(e) := e], CacheKey(e.gpuName, e.busId, newDriver)) == None
  {
    DriverChangeChangesKey(e.gpuName, e.busId, e.driverVersion, newDriver);
  }

  /** A saved cache is found again on the next load: put, then get from disk. */
  lemma PersistedEntryFound(entries: map<string, GpuCacheEntry>, e: GpuCacheEntry)
    ensures Get(LoadedEntries(Parsed(Serialize(entries[EntryKey(e) := e]))).value, EntryKey(e)) == Some(e)
  {
    SaveLoadRoundTrip(entries[EntryKey(e) := e]);
  }
}

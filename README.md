# KingAi GPU overclocker — a verified Dafny model of its NVAPI core

This project models the part of KingAi GPU that talks to NVIDIA's
undocumented overclocking interface (NVAPI), reached through `nvapi64.dll`.
It covers four pieces:

* **The NVAPI wrappers** (`kingai_gpu/lib/nvapi.py`):
  * lazy initialisation and resolution of the function table, and GPU handles;
  * the retry policy for Set calls;
  * the raw little-endian struct buffers and their version tags;
  * PStates20 clock offsets, power and thermal policies;
  * both fan APIs, with the per-session memo of which fan API works;
  * the status read, and the reset of every setting.
* **The per-GPU device cache** (`kingai_gpu/lib/device_cache.py`): cache key,
  JSON load and save, get and put.
* **The MSI Afterburner profile importer**
  (`kingai_gpu/cli/import_msi_profile_single.py`): INI section splitting,
  key lookup, field mapping, profile extraction and the section listing.
* **The throttle-reason decoder** (`kingai_gpu/lib/nvml.py`). The mask is NVML's unsigned 64-bit value
  (`bv64`), the only kind of input its caller passes.

How NVAPI itself is modelled:

* The DLL is an oracle. A `Native.Driver` answers the n-th native call with
  a status and, for Get calls, the bytes it writes into the caller's buffer.
* Every call the wrappers make is appended to the driver's `log`. Contracts
  can therefore say exactly which native calls an operation issues, with
  which buffer contents, and in which order.

How the model is organised:

* **Shared helpers.** `Wrappers` holds Option, Result and Outcome. `Text`
  holds the pieces of Python's `str` behaviour the importer, the cache key
  and the decoder rely on: `strip`, `splitlines`, `int()`, `+d` and `08x`.
* **Buffers and parsing.** `NvStruct` covers buffers, words and request
  layouts, as sequences of bytes and as in-place writes to arrays. `NvProbe`
  covers the parsing and fallback heuristics of the Get calls.
* **Effects.** `Retry` models the retry loop. `NvCalls` gives each wrapper
  as a pure "effect" function: the result plus the native calls made,
  starting from the n-th call.
* **Imperative code.** `NvApi` holds the imperative methods that build and
  send buffers, each proved equal to its effect function. `NvSession.Session`
  is the module state of `nvapi.py` as a class: `_initialized`, `_fn`,
  `_gpu_count`, `_session_fan_api` and `_device_cache`. Each public function
  is a method whose contract ties the call log, the result and the new state
  to the effect functions.

Behaviour of the code as written that the proofs make explicit:

* `_check_set` sleeps 100 ms and then 200 ms. Its docstring also names a
  300 ms sleep, which never happens with three attempts:
  `Retry.DefaultScheduleSleeps`.
* The new fan API path gives up on any fan count from 1 to 5. For those
  counts the computed entry size is above 256 bytes, so only counts 6 to 16
  reach `SetControl`: `NvProbe.FanLayoutUsableIff`.
* `set_fan_speed` notes "new" even when `_set_fan_new_api` fell back to the
  legacy call internally and made no `SetControl` call:
  `NvCalls.NewNotedAfterInternalFallback`.
* `set_fan_auto` falls back inside `_set_fan_new_api` through
  `_set_cooler_level(0)`, which is manual policy at 0%, not
  `_set_cooler_auto`: `NvCalls.AutoFallbackIsManualZero`.
* `_handle` accepts negative indices from -64 to -1, as Python indexing of
  the handle array does. An index from 64 up to the GPU count raises
  IndexError instead of NvApiError: `NvCalls.HandleSlot`.
* `load_cache`'s docstring promises an empty dict on any failure, but a
  cache file that is not valid UTF-8 raises `UnicodeDecodeError`, which its
  `except` clause does not name. `_get_cached_fan_api` and
  `_save_probe_to_cache` swallow it, so the lookup gives None and the save
  writes nothing: `DeviceCache.LoadIsForgiving`,
  `NvSession.Session.GetCachedFanApi`, `NvSession.Session.SaveProbeToCache`.

## Model

| member | source | states |
|---|---|---|
| Wrappers.Get | kingai_gpu/lib/device_cache.py:155 | `dict.get` (the cache lookup, and the session's fan-API memo at nvapi.py line 1036): present iff the key is stored, and then its value |
| Text.Strip | kingai_gpu/cli/import_msi_profile_single.py:117 | `str.strip()`: the result has no whitespace at either end and is no longer than the input; StripTrimsSpace states that only whitespace is removed |
| Text.LStrip | kingai_gpu/cli/import_msi_profile_single.py:117 | `s.lstrip()`: the result has no whitespace in front and is no longer than the input; LStripTrimsSpace states that only whitespace is removed |
| Text.LStripTrimsSpace | kingai_gpu/cli/import_msi_profile_single.py:117 | `lstrip` removes whitespace only: its result is a suffix of the input and everything cut off in front of it is whitespace |
| Text.RStrip | kingai_gpu/cli/import_msi_profile_single.py:117 | `s.rstrip()`: the result is a prefix of the input with no whitespace at its end; RStripTrimsSpace states that only whitespace is removed |
| Text.RStripTrimsSpace | kingai_gpu/cli/import_msi_profile_single.py:117 | `rstrip` removes whitespace only: everything cut off after the prefix it keeps is whitespace |
| Text.StripTrimsSpace | kingai_gpu/cli/import_msi_profile_single.py:117 | `line.strip()` removes whitespace only: its result is a slice of the line with nothing but whitespace before and after it |
| Text.StripNoEdgeSpace | kingai_gpu/cli/import_msi_profile_single.py:117 | stripping a string that has no edge whitespace leaves it unchanged |
| Text.Join | kingai_gpu/cli/import_msi_profile_single.py:120 | defines `"\n".join(lines)`: the parts in order with the separator between neighbours |
| Text.SplitLines | kingai_gpu/cli/import_msi_profile_single.py:116 | defines `text.splitlines()`: the lines without their terminators, "\r\n" as one terminator, no empty line after a final terminator; SplitLinesHaveNoBreaks states that no line holds a break |
| Text.LineEnd | kingai_gpu/cli/import_msi_profile_single.py:116 | the first line boundary: no character before it is a line break, and the character at it is one |
| Text.FirstLineNoBreaks | kingai_gpu/cli/import_msi_profile_single.py:116 | the first line `splitlines` cuts off holds no line break |
| Text.SplitLinesHaveNoBreaks | kingai_gpu/cli/import_msi_profile_single.py:116 | no line produced by `splitlines()` contains any of Python's line-break characters |
| Text.SplitJoin | kingai_gpu/cli/import_msi_profile_single.py:116-126 | `splitlines()` undoes the `"\n".join` that rebuilds a section body, for lines without boundaries whose last line is not empty |
| Text.Zeros | kingai_gpu/lib/nvml.py:91 | a run of exactly k '0' characters (the padding of `08x`) |
| Text.Decimal | kingai_gpu/lib/device_cache.py:86 | the decimal rendering of a natural number is never empty |
| Text.Hex | kingai_gpu/lib/nvml.py:91 | the hex rendering of a natural number is never empty |
| Text.FormatInt | kingai_gpu/lib/device_cache.py:86 | defines `f"{bus_id}"`: `-` before the decimal digits of a negative integer, the digits alone otherwise; ParseFormatInt checks it against ParseInt |
| Text.FormatSigned | kingai_gpu/cli/import_msi_profile_single.py:242-243 | the `+d` format always starts with an explicit sign |
| Text.DecimalDigits | kingai_gpu/lib/device_cache.py:86 | the decimal rendering of n is a valid digit string whose value is n |
| Text.ParseInt | kingai_gpu/cli/import_msi_profile_single.py:146-150 | defines `int(v)` on text: surrounding whitespace ignored, one optional sign, then decimal digits with single underscores between them; None for the ValueError on any other text |
| Text.ParseFormatInt | kingai_gpu/lib/device_cache.py:86 | `int()` reads the decimal rendering `str(n)` back as n for every integer: a check of FormatInt against ParseInt |
| Text.ParseFormatSigned | kingai_gpu/cli/import_msi_profile_single.py:242-243 | `int()` accepts the `:+d` rendering of every integer and gives back n: a check of FormatSigned against ParseInt |
| Text.HexDigits | kingai_gpu/lib/nvml.py:91 | the hex rendering of n holds only hex digits and its value is n |
| Text.LeadingZerosValue | kingai_gpu/lib/nvml.py:91 | zero padding in front of hex digits does not change their value |
| Text.ZerosValue | kingai_gpu/lib/nvml.py:91 | a run of zeros has value 0 |
| Text.Hex08 | kingai_gpu/lib/nvml.py:91 | defines `f"{mask:08x}"`: the lower-case hex digits zero-padded to eight; Hex08Value states that they read back as the number |
| Text.Hex08Value | kingai_gpu/lib/nvml.py:91 | `format(n, "08x")` has at least 8 hex digits and denotes n |
| Throttle.RowNames | kingai_gpu/lib/nvml.py:70-80 | the reason names of the table, one per row, in table order |
| Throttle.FlagNames | kingai_gpu/lib/nvml.py:88-90 | the names collected by the loop: at most one per table row |
| Throttle.FlagNamesStep | kingai_gpu/lib/nvml.py:88-90 | one more row of the loop appends that row's name exactly when its flag is set |
| Throttle.Decoded | kingai_gpu/lib/nvml.py:83-91 | the decoded list is never empty |
| Throttle.DecodeThrottleReasons | kingai_gpu/lib/nvml.py:83-91 | the loop over the table returns exactly the decoded list |
| Throttle.ListedFromTable | kingai_gpu/lib/nvml.py:88-90 | every reported name is a name from the table |
| Throttle.ListedIffSet | kingai_gpu/lib/nvml.py:88-90 | with distinct names, a row's name is reported if and only if its flag bit is set in the mask |
| Throttle.ZeroIsNone | kingai_gpu/lib/nvml.py:85-86 | mask 0 decodes to `["NONE"]` |
| Throttle.NoFlagNoNames | kingai_gpu/lib/nvml.py:87-90 | a mask with none of the nine known bits matches no row |
| Throttle.NoKnownBitNoRow | kingai_gpu/lib/nvml.py:70-80 | no table flag is set in a mask with none of the known bits |
| Throttle.KnownBitHasRow | kingai_gpu/lib/nvml.py:70-80 | a mask with a known bit set has a table row whose flag is set |
| Throttle.ReasonsMatchBits | kingai_gpu/lib/nvml.py:83-91 | for a mask with a known bit, each reason appears in the result if and only if its bit is set |
| Throttle.UnknownBitsOnly | kingai_gpu/lib/nvml.py:91 | a non-zero mask with only unknown bits decodes to the single `UNKNOWN(0x........)` entry |
| Throttle.Unknown | kingai_gpu/lib/nvml.py:91 | defines the `UNKNOWN(0x…)` name returned when no known reason is set; UnknownSpellsMask states that it spells out the mask |
| Throttle.UnknownSpellsMask | kingai_gpu/lib/nvml.py:91 | the UNKNOWN entry carries at least eight hex digits whose value is the whole mask |
| Retry.RunFrom | kingai_gpu/lib/nvapi.py:84-96 | the retry loop makes more calls than it had made and never more than `max_retries` |
| Retry.Run | kingai_gpu/lib/nvapi.py:74-96 | defines the outcome of `_check_set` over the statuses the calls return: the value or the NvApiError, the number of calls and the sleeps between them; RunCharacterised states it |
| Retry.RunFromCharacterised | kingai_gpu/lib/nvapi.py:84-96 | from any attempt: every earlier failure was transient, success is a 0 status, and a raise carries the last status, which is permanent or the last attempt's |
| Retry.RunCharacterised | kingai_gpu/lib/nvapi.py:74-96 | `_check_set` makes 1..max calls; all but the last returned a transient error; it succeeds iff the last status is 0; it raises the last status, either permanent or after exhausting the attempts |
| Retry.PermanentNotRetried | kingai_gpu/lib/nvapi.py:88-93 | a non-transient error raises after a single call |
| Retry.FirstSuccessOneCall | kingai_gpu/lib/nvapi.py:86-89 | an immediate success makes exactly one call |
| Retry.AlwaysTransientExhausts | kingai_gpu/lib/nvapi.py:84-96 | if every attempt is transient, all `max_retries` calls are made and the last status is raised |
| Retry.Sleeps | kingai_gpu/lib/nvapi.py:91-92 | one sleep for every call that is retried |
| Retry.Schedule | kingai_gpu/lib/nvapi.py:91-92 | the sleep schedule has one entry per retry |
| Retry.ScheduleValues | kingai_gpu/lib/nvapi.py:91-92 | the i-th sleep is 100·(i+1) ms |
| Retry.DefaultScheduleSleeps | kingai_gpu/lib/nvapi.py:81-92 | with the default three attempts, at most two sleeps of 100 and 200 ms: the documented 300 ms never happens |
| Retry.CheckSet | kingai_gpu/lib/nvapi.py:74-96 | the method issues the same call once per attempt of the retry run, passes iff it succeeded, raises `NvApiError(name, last status)` otherwise, and sleeps the schedule |
| NvStruct.MakeVersion | kingai_gpu/lib/nvapi.py:225-236 | the low 16 bits of the tag are the struct size and the bits above are the version |
| NvStruct.U32 | kingai_gpu/lib/nvapi.py:303-305 | an unsigned little-endian word is below 2^32 |
| NvStruct.I32 | kingai_gpu/lib/nvapi.py:308-310 | a signed word is in int32 range and agrees with the unsigned reading modulo 2^32 |
| NvStruct.Le32 | kingai_gpu/lib/nvapi.py:313-315 | `struct.pack("<I")`: a 32-bit value takes exactly 4 bytes |
| NvStruct.Le32Value | kingai_gpu/lib/nvapi.py:303-305 | encoding a word in 4 little-endian bytes reads back as the word |
| NvStruct.WriteU32 | kingai_gpu/lib/nvapi.py:313-315 | `_w32` changes only the 4 addressed bytes, which then read back as the value masked to 32 bits |
| NvStruct.WriteI32 | kingai_gpu/lib/nvapi.py:318-320 | `_wi32` changes only the 4 addressed bytes, which read back as the signed value |
| NvStruct.Zeroes | kingai_gpu/lib/nvapi.py:293 | a zero-filled buffer of the requested size |
| NvStruct.Blank | kingai_gpu/lib/nvapi.py:286-295 | `_buf`: the requested size, the version tag at offset 0 (its low half the size), zeros everywhere else |
| NvStruct.VersionKeepsSize | kingai_gpu/lib/nvapi.py:225-236 | the tag stored in 32 bits still carries the struct size |
| NvStruct.NewBuffer | kingai_gpu/lib/nvapi.py:286-295 | the fresh array holds exactly the blank buffer |
| NvStruct.W32 | kingai_gpu/lib/nvapi.py:313-315 | the in-place write leaves the array equal to the pure word write |
| NvStruct.WI32 | kingai_gpu/lib/nvapi.py:318-320 | the in-place signed write leaves the array equal to the pure signed write |
| NvStruct.ReadPastWrite | kingai_gpu/lib/nvapi.py:313-315 | a write does not disturb a word it does not overlap |
| NvStruct.WritesCommute | kingai_gpu/lib/nvapi.py:313-315 | writes to disjoint words commute |
| NvStruct.PstatesFillV1 | kingai_gpu/lib/nvapi.py:250-256 | a pstate is 456 bytes; 16 pstates after the 20-byte header fill the 7316-byte V1 struct exactly; V2 is 100 bytes longer |
| NvStruct.ClockEntryInPstate | kingai_gpu/lib/nvapi.py:342-354 | each clock entry lies inside its pstate, before the voltage entries, and inside the V1 struct |
| NvStruct.ClockEntriesDisjoint | kingai_gpu/lib/nvapi.py:347-349 | distinct (pstate, clock) entries never overlap |
| NvStruct.ClockRequest | kingai_gpu/lib/nvapi.py:557-569 | the SetPstates20 request is the 7416-byte V2 struct |
| NvStruct.ClockRequestWords | kingai_gpu/lib/nvapi.py:557-569 | the request carries the V2 tag, one pstate, one clock, pstate id 0, the domain, single-frequency type and the signed offset at the delta field |
| NvStruct.ClockRequestZeroes | kingai_gpu/lib/nvapi.py:557-569 | every other byte of the request is zero |
| NvStruct.PowerRequest | kingai_gpu/lib/nvapi.py:684-686 | the power request is the 72-byte status struct |
| NvStruct.PowerRequestLayout | kingai_gpu/lib/nvapi.py:684-686 | tag (72, 1), count 1, the PCM value at offset 12, zeros elsewhere |
| NvStruct.PowerRequestReadsBack | kingai_gpu/lib/nvapi.py:616-624 | `_get_power_status` reading the request gives back the PCM value set |
| NvStruct.PowerStatusOf | kingai_gpu/lib/nvapi.py:616-624 | defines `_get_power_status`: entry 0's power word of a GetStatus buffer; PowerRequestReadsBack reads a request back through it |
| NvStruct.ThermalRequest | kingai_gpu/lib/nvapi.py:804-808 | the thermal request is the 40-byte V2 struct |
| NvStruct.ThermalRequestLayout | kingai_gpu/lib/nvapi.py:804-808 | tag (40, 2), count 1, controller 1, `temp << 8` at offset 12 and the priority flag at 16, zeros after |
| NvStruct.ThermalRequestReadsBack | kingai_gpu/lib/nvapi.py:727-737 | `_get_thermal_limit` undoes the `<< 8`: it reads back the degrees set |
| NvStruct.ThermalLimitOf | kingai_gpu/lib/nvapi.py:727-737 | defines `_get_thermal_limit`: the value word shifted right by 8; ThermalRequestReadsBack reads a request back through it |
| NvStruct.Clamp | kingai_gpu/lib/nvapi.py:852 | `max(lo, min(hi, v))` lies in range and leaves in-range values unchanged |
| NvStruct.CoolerRequest | kingai_gpu/lib/nvapi.py:850-853 | the cooler request is the 28-byte struct |
| NvStruct.CoolerRequestLayout | kingai_gpu/lib/nvapi.py:850-853 | tag (28, 1), cooler 0's level and policy, zeros after |
| NvStruct.CoolerManual | kingai_gpu/lib/nvapi.py:850-853 | `_set_cooler_level`'s buffer is the 28-byte struct |
| NvStruct.CoolerManualLevel | kingai_gpu/lib/nvapi.py:850-853 | the manual request's level is at most 100, equals the requested speed when in 0..100, and its policy is manual (1) |
| NvStruct.CoolerAuto | kingai_gpu/lib/nvapi.py:863-866 | `_set_cooler_auto`'s buffer is the 28-byte struct |
| NvStruct.CoolerAutoLevel | kingai_gpu/lib/nvapi.py:863-866 | the auto request writes level 30 and policy auto (32) |
| NvProbe.ClocksScanned | kingai_gpu/lib/nvapi.py:517-518 | the clock scan looks at no more than 8 entries |
| NvProbe.PstatesScanned | kingai_gpu/lib/nvapi.py:532-533 | the pstate scan looks at no more than 16 pstates |
| NvProbe.FirstClockFrom | kingai_gpu/lib/nvapi.py:509-521 | the index found is the first scanned clock whose domain matches; None means no scanned clock matches |
| NvProbe.FindClockInPstates | kingai_gpu/lib/nvapi.py:509-521 | the loop returns the first matching clock index of the pstate |
| NvProbe.FirstMatchFrom | kingai_gpu/lib/nvapi.py:532-535 | the first scanned pstate that has a matching clock, with that clock's index; None if no scanned pstate has one |
| NvProbe.ClockDelta | kingai_gpu/lib/nvapi.py:524-540 | defines `_read_clock_delta`: the (value, min, max) delta of the first P-state that holds the domain, (0, 0, 0) when none does; ReadClockDelta computes it |
| NvProbe.ReadClockDelta | kingai_gpu/lib/nvapi.py:524-540 | the loop returns the delta, min and max of the first match, or (0, 0, 0) |
| NvProbe.ClockRequestReadsBack | kingai_gpu/lib/nvapi.py:547-582 | reading the clock delta back from a `_set_clock_offset` request gives the offset set, with range (0, 0) |
| NvProbe.PcmCandidates | kingai_gpu/lib/nvapi.py:653-657 | every scanned candidate is a plausible PCM value (30000..200000) |
| NvProbe.ProbePowerInfo | kingai_gpu/lib/nvapi.py:627-671 | the method returns the power triple `_get_power_info` computes from the buffer |
| NvProbe.PowerInfoOf | kingai_gpu/lib/nvapi.py:627-671 | defines `_get_power_info`'s result for a filled GetInfo buffer; ProbePowerInfo computes it and PowerDefaultPlausible states its default |
| NvProbe.ScanPcm | kingai_gpu/lib/nvapi.py:653-657 | the scan loop collects exactly the plausible words from offset 4 on |
| NvProbe.PickAround | kingai_gpu/lib/nvapi.py:661-671 | the loop picks exactly what the neighbour-of-100000 heuristic picks |
| NvProbe.PickAroundDefault | kingai_gpu/lib/nvapi.py:661-671 | defines the choice around the first 100000 candidate: its neighbours or 50000 and 116000 in their place, and (50000, 100000, 116000) when there is none; PickAroundFirst and PickAroundNone state it |
| NvProbe.PickAroundDefaultIs100000 | kingai_gpu/lib/nvapi.py:661-671 | the fallback heuristic always reports default 100000 |
| NvProbe.PowerDefaultPlausible | kingai_gpu/lib/nvapi.py:645-671 | the reported default is always plausible: the primary word when that is plausible, 100000 otherwise |
| NvProbe.PickAroundFirst | kingai_gpu/lib/nvapi.py:661-667 | at the first 100000 candidate, min and max are its neighbours, or 50000 and 116000 at the ends |
| NvProbe.PickAroundNone | kingai_gpu/lib/nvapi.py:669-671 | without a 100000 candidate the result is (50000, 100000, 116000) |
| NvProbe.TempCandidates | kingai_gpu/lib/nvapi.py:770-776 | every thermal candidate is in 60..100 |
| NvProbe.SeqMin | kingai_gpu/lib/nvapi.py:778 | `min` of the candidates: one of them, and no larger than any |
| NvProbe.SeqMax | kingai_gpu/lib/nvapi.py:779 | `max` of the candidates: one of them, and no smaller than any |
| NvProbe.ScanTemps | kingai_gpu/lib/nvapi.py:770-776 | the scan loop collects exactly the thermal candidates from offset 8 on |
| NvProbe.TempCandidatesStep | kingai_gpu/lib/nvapi.py:770-776 | one word of the scan adds its candidate exactly when it is in range |
| NvProbe.ProbeThermalInfo | kingai_gpu/lib/nvapi.py:740-786 | the method returns the thermal triple `_get_thermal_info` computes from the buffer |
| NvProbe.ThermalInfoOf | kingai_gpu/lib/nvapi.py:740-786 | defines `_get_thermal_info`'s result for a filled GetInfo buffer; ProbeThermalInfo computes it and ThermalDefaultPlausible states its default |
| NvProbe.TempRange | kingai_gpu/lib/nvapi.py:777-784 | min, max and their midpoint, or (65, 83, 90) without candidates |
| NvProbe.ThermalDefaultPlausible | kingai_gpu/lib/nvapi.py:758-784 | the reported default is always in 30..120 °C, and a fallback result lies within its own min..max |
| NvProbe.ThermalShiftDetected | kingai_gpu/lib/nvapi.py:758-762 | a word above 200 with a plausible shifted default makes all three values shifted right by 8 |
| NvProbe.EntrySizeBounds | kingai_gpu/lib/nvapi.py:931-939 | for 1..16 fans the entry size is at least 12, at most 256 exactly from 6 fans up, and the entries fit the buffer |
| NvProbe.FanLayoutOf | kingai_gpu/lib/nvapi.py:908-939 | defines the fan layout `_set_fan_new_api` accepts on a filled GetControl buffer, or none; FanLayoutUsableIff states that there is one exactly when the fan count is 6 to 16 |
| NvProbe.FanLayoutUsableIff | kingai_gpu/lib/nvapi.py:908-939 | the new fan API's layout is usable if and only if the fan count read is in 6..16 |
| NvProbe.WriteEntry | kingai_gpu/lib/nvapi.py:943-949 | writing one fan entry keeps the buffer's length |
| NvProbe.EntryWords | kingai_gpu/lib/nvapi.py:943-949 | an entry write puts the level at +8 and the mode at +12 |
| NvProbe.EntryKeeps | kingai_gpu/lib/nvapi.py:943-949 | an entry write leaves every word outside it unchanged |
| NvProbe.FanWritten | kingai_gpu/lib/nvapi.py:941-949 | the modify loop keeps the buffer's length |
| NvProbe.FanWrittenPreserves | kingai_gpu/lib/nvapi.py:941-949 | Get-Modify-Set preserves every byte outside the written level/mode words |
| NvProbe.FanWrittenSets | kingai_gpu/lib/nvapi.py:941-949 | after the loop every fan entry holds the requested level and mode |
| DeviceCache.CacheKey | kingai_gpu/lib/device_cache.py:80-86 | the key starts with the GPU name and ends with the driver version |
| DeviceCache.EntryKey | kingai_gpu/lib/device_cache.py:169 | defines the key `put_entry` files an entry under: `_cache_key` of the entry's own name, bus id and driver version |
| DeviceCache.DriverChangeChangesKey | kingai_gpu/lib/device_cache.py:80-86 | a different driver version gives a different key (the cache invalidates on update) |
| DeviceCache.IntsOf | kingai_gpu/lib/device_cache.py:106 | a decoded offset list has one integer per JSON item |
| DeviceCache.EntryOf | kingai_gpu/lib/device_cache.py:103-116 | defines the entry `load_cache` builds from one stored object, each field read with its default; MissingFieldsDefault and EntryRoundTrip state it |
| DeviceCache.MissingFieldsDefault | kingai_gpu/lib/device_cache.py:103-116 | an object lacking the five required fields, whose other keys hold only null, loads as the dataclass defaults: each absent field takes its `get` default and each null optional hint is None |
| DeviceCache.IntsJson | kingai_gpu/lib/device_cache.py:131 | an offset list encodes as one JSON item per integer |
| DeviceCache.IntsRoundTrip | kingai_gpu/lib/device_cache.py:131 | decoding an encoded offset list gives it back |
| DeviceCache.ToJson | kingai_gpu/lib/device_cache.py:131 | defines `asdict(entry)`: every field under its own name, None as null; ToJsonIdentity and ToJsonHints state it |
| DeviceCache.ToJsonIdentity | kingai_gpu/lib/device_cache.py:131 | `asdict` stores the identity fields, the timestamp and the probe time under their JSON names |
| DeviceCache.ToJsonHints | kingai_gpu/lib/device_cache.py:131 | `asdict` stores every optional hint as its value or null |
| DeviceCache.EntryRoundTrip | kingai_gpu/lib/device_cache.py:103-116 | loading a saved entry gives back the same entry |
| DeviceCache.EntriesOf | kingai_gpu/lib/device_cache.py:99-118 | loading keeps no key the file does not have |
| DeviceCache.LoadedEntries | kingai_gpu/lib/device_cache.py:89-120 | defines what `load_cache` gives: None where a file that is not UTF-8 makes it raise `UnicodeDecodeError`, empty for a missing, unreadable or non-object file, otherwise the decoded object-valued entries; LoadIsForgiving and SaveLoadRoundTrip state it |
| DeviceCache.LoadIsForgiving | kingai_gpu/lib/device_cache.py:89-120 | loading fails exactly for a file that is not UTF-8; a missing, unreadable or non-object file loads as empty; otherwise exactly the object-valued keys load |
| DeviceCache.Serialize | kingai_gpu/lib/device_cache.py:131-133 | defines the document `save_cache` writes, `{key: asdict(entry)}`; SaveLoadRoundTrip states that loading it gives the cache back |
| DeviceCache.SaveLoadRoundTrip | kingai_gpu/lib/device_cache.py:89-138 | loading what `save_cache` wrote gives back the same cache |
| DeviceCache.LoadSerialized | kingai_gpu/lib/device_cache.py:98-118 | decoding the serialized entries gives back the entries |
| DeviceCache.GpuCache.constructor | kingai_gpu/lib/device_cache.py:89-120 | the in-memory cache holds exactly the given entries |
| DeviceCache.CacheDisk.constructor | kingai_gpu/lib/device_cache.py:36-41 | the cache file as it stands, and whether it can be written |
| DeviceCache.DecodeEntries | kingai_gpu/lib/device_cache.py:101-117 | the decoding loop keeps exactly the object-valued keys, each decoded field by field (for well-typed stored fields, as `load_cache` does) |
| DeviceCache.LoadCache | kingai_gpu/lib/device_cache.py:89-120 | fails with `UnicodeDecodeError` iff the file is not UTF-8; otherwise the fresh cache is empty for a missing, unreadable or non-object file and holds the decoded object-valued entries of an object |
| DeviceCache.SaveCache | kingai_gpu/lib/device_cache.py:123-138 | it returns True iff the write succeeds, and the file then holds the serialized cache; otherwise the file is unchanged |
| DeviceCache.GetEntry | kingai_gpu/lib/device_cache.py:141-155 | the entry under the GPU's key, in the given cache or the one loaded from disk; `UnicodeDecodeError` when no cache is given and the file is not UTF-8 |
| DeviceCache.PutEntry | kingai_gpu/lib/device_cache.py:158-172 | the cache (given, or freshly loaded) gains the entry under its key, and is written out; with no cache given and a file that is not UTF-8 it fails and the file is unchanged |
| DeviceCache.GetAfterPut | kingai_gpu/lib/device_cache.py:141-172 | getting an entry right after putting it returns it |
| DeviceCache.PutKeepsOthers | kingai_gpu/lib/device_cache.py:158-172 | putting an entry changes no other key's lookup |
| DeviceCache.DriverUpdateMisses | kingai_gpu/lib/device_cache.py:141-155 | after a driver update the old entry is not found |
| DeviceCache.PersistedEntryFound | kingai_gpu/lib/device_cache.py:123-172 | an entry put and saved is found after loading the file again |
| MsiProfile.Keys | kingai_gpu/cli/import_msi_profile_single.py:111-127 | the keys of an insertion-ordered dict (the sections, or an imported profile), one per entry, in insertion order |
| MsiProfile.LookupFindsNames | kingai_gpu/cli/import_msi_profile_single.py:111-127 | a section is found iff its name is listed |
| MsiProfile.Assign | kingai_gpu/cli/import_msi_profile_single.py:119-126 | `sections[name] = body`: the name now maps to the body, other names keep theirs, and a new name goes last |
| MsiProfile.AssignKeepsDistinct | kingai_gpu/cli/import_msi_profile_single.py:119-126 | assignment keeps the section names distinct |
| MsiProfile.FeedBody | kingai_gpu/cli/import_msi_profile_single.py:123-124 | lines that are not headers are gathered into the current body |
| MsiProfile.FeedKeepsDistinct | kingai_gpu/cli/import_msi_profile_single.py:116-124 | the split loop keeps the section names distinct |
| MsiProfile.SectionNamesDistinct | kingai_gpu/cli/import_msi_profile_single.py:111-127 | the parsed dict never lists a section twice |
| MsiProfile.NoHeaderNoSections | kingai_gpu/cli/import_msi_profile_single.py:111-127 | text without a `[header]` yields no sections |
| MsiProfile.HeaderThenBody | kingai_gpu/cli/import_msi_profile_single.py:111-127 | a header followed by non-header lines defines that section with those lines joined by newlines |
| MsiProfile.ParseSections | kingai_gpu/cli/import_msi_profile_single.py:111-127 | the loop returns exactly the sections of the text |
| MsiProfile.SectionsOf | kingai_gpu/cli/import_msi_profile_single.py:111-127 | defines `_parse_sections(text)` as the ordered (name, body) pairs found over `text.splitlines()`; ParseSections and the lemmas before it state its properties |
| MsiProfile.AfterEq | kingai_gpu/cli/import_msi_profile_single.py:133 | the text after the first `=` is no longer than the line |
| MsiProfile.ValueIn | kingai_gpu/cli/import_msi_profile_single.py:133-134 | a value is returned only when non-empty, and it is stripped |
| MsiProfile.FirstValue | kingai_gpu/cli/import_msi_profile_single.py:132-136 | the value found is non-empty and stripped |
| MsiProfile.FirstKeyLineDecides | kingai_gpu/cli/import_msi_profile_single.py:132-136 | the first line starting with `key=` decides the value, even when it is empty |
| MsiProfile.NoKeyLineNone | kingai_gpu/cli/import_msi_profile_single.py:136 | without a `key=` line the value is None |
| MsiProfile.GetValue | kingai_gpu/cli/import_msi_profile_single.py:130-136 | the loop returns exactly the block's value for the key |
| MsiProfile.ValueOf | kingai_gpu/cli/import_msi_profile_single.py:130-136 | defines `_get_value(block, key)`: the stripped text after the first `=` on the first line whose stripped form starts with `key=`, None when that text is empty or no line matches; FirstKeyLineDecides and NoKeyLineNone state it |
| MsiProfile.Convert | kingai_gpu/cli/import_msi_profile_single.py:144-151 | a conversion succeeds iff `int()` accepts the text; clock values are kHz floor-divided to MHz, the others are kept |
| MsiProfile.MappedOne | kingai_gpu/cli/import_msi_profile_single.py:194-200 | one rule adds at most one integer field, under its profile key |
| MsiProfile.Header | kingai_gpu/cli/import_msi_profile_single.py:186-192 | every profile starts with the five header keys |
| MsiProfile.Pop | kingai_gpu/cli/import_msi_profile_single.py:206 | `dict.pop` never lengthens the profile |
| MsiProfile.PopKeys | kingai_gpu/cli/import_msi_profile_single.py:206 | after the pop the key is gone and every other key is still present |
| MsiProfile.Offered | kingai_gpu/cli/import_msi_profile_single.py:177 | the sections offered are those other than Defaults and Settings |
| MsiProfile.MappedKeys | kingai_gpu/cli/import_msi_profile_single.py:194-200 | every mapped key is the target of some field-map rule |
| MsiProfile.Mapped | kingai_gpu/cli/import_msi_profile_single.py:194-200 | defines the fields the `_FIELD_MAP` loop adds, in the map's order, skipping keys that are absent or whose value `int()` rejects; MappedOne and MappedKeys state it |
| MsiProfile.FieldTargetsListed | kingai_gpu/cli/import_msi_profile_single.py:144-151 | every field-map target is among the profile keys |
| MsiProfile.MappedProfileKeys | kingai_gpu/cli/import_msi_profile_single.py:186-200 | header plus mapped fields is a well-shaped profile |
| MsiProfile.PopFanShape | kingai_gpu/cli/import_msi_profile_single.py:206 | popping `fan_pct` keeps the profile well shaped |
| MsiProfile.FanAdjustedShape | kingai_gpu/cli/import_msi_profile_single.py:202-207 | the fan-mode adjustment keeps the profile well shaped |
| MsiProfile.FanAdjusted | kingai_gpu/cli/import_msi_profile_single.py:202-207 | defines the fan mode step: with `FanMode=0`, `fan_pct` is dropped and `fan_auto` is set; FanAdjustedShape and FanAutoProfile state it |
| MsiProfile.WithVoltageExtends | kingai_gpu/cli/import_msi_profile_single.py:209-213 | the voltage step only appends, and only the two voltage keys |
| MsiProfile.WithVoltageShape | kingai_gpu/cli/import_msi_profile_single.py:209-213 | the voltage step keeps the profile well shaped |
| MsiProfile.WithVoltage | kingai_gpu/cli/import_msi_profile_single.py:209-213 | defines the voltage boost step: a non-zero `CoreVoltageBoost` adds the boost and the note, a non-integer one raises ValueError; WithVoltageExtends and BadVoltageRaises state it |
| MsiProfile.ProfileShape | kingai_gpu/cli/import_msi_profile_single.py:154-215 | an imported profile starts with the five header keys and holds only known keys |
| MsiProfile.ProfileOf | kingai_gpu/cli/import_msi_profile_single.py:183-215 | defines the profile built from one section body: the header fields, then the mapped fields, the fan mode step and the voltage step; ProfileShape states it |
| MsiProfile.PopPrefix | kingai_gpu/cli/import_msi_profile_single.py:206 | entries in front of the first occurrence of the key pass through the pop unchanged |
| MsiProfile.PopSplit | kingai_gpu/cli/import_msi_profile_single.py:206 | popping splits at any prefix that lacks the key |
| MsiProfile.FanAutoProfile | kingai_gpu/cli/import_msi_profile_single.py:202-207 | with `FanMode=0` the profile has no `fan_pct` and records `fan_auto = True` |
| MsiProfile.MissingSectionRaises | kingai_gpu/cli/import_msi_profile_single.py:168-181 | a missing section raises the KeyError that lists the sections on offer |
| MsiProfile.BadVoltageRaises | kingai_gpu/cli/import_msi_profile_single.py:210-211 | a non-integer voltage boost raises ValueError (it is not silently skipped as the mapped fields are) |
| MsiProfile.Extract | kingai_gpu/cli/import_msi_profile_single.py:154-215 | defines `extract_profile`'s result: FileNotFoundError for a missing file, KeyError for a missing section, otherwise ProfileOf of the section's body; ExtractProfile computes it and MissingSectionRaises states the error case |
| MsiProfile.ApplyRule | kingai_gpu/cli/import_msi_profile_single.py:194-200 | the loop body adds exactly the rule's field |
| MsiProfile.ApplyFieldMap | kingai_gpu/cli/import_msi_profile_single.py:194-200 | the loop appends exactly the mapped fields |
| MsiProfile.ExtractProfile | kingai_gpu/cli/import_msi_profile_single.py:154-215 | the method returns exactly the extraction's result, errors included |
| MsiProfile.MhzLabel | kingai_gpu/cli/import_msi_profile_single.py:242-243 | the label is "N/A" exactly when the value is missing |
| MsiProfile.RowOf | kingai_gpu/cli/import_msi_profile_single.py:235-253 | defines the summary `list_sections` appends for one section, and the ValueError its `int()` raises on a clock boost that is not an integer; SummaryRow computes it |
| MsiProfile.RowsFollowSections | kingai_gpu/cli/import_msi_profile_single.py:228-253 | one summary row per offered section, in file order |
| MsiProfile.RowLabels | kingai_gpu/cli/import_msi_profile_single.py:231-253 | each row names its section; core and mem are "N/A" iff missing; the fan shows "auto" iff `FanMode` is not "1" |
| MsiProfile.SummaryRow | kingai_gpu/cli/import_msi_profile_single.py:231-253 | the method builds exactly the section's row |
| MsiProfile.ListOf | kingai_gpu/cli/import_msi_profile_single.py:218-254 | defines `list_sections`'s result: FileNotFoundError for a missing file, otherwise one row per section other than Defaults and Settings, in file order; RowsFollowSections states it and ListSections computes it |
| MsiProfile.ListSections | kingai_gpu/cli/import_msi_profile_single.py:218-254 | the loop returns exactly the rows of the offered sections, or the first error |
| Native.Filled | kingai_gpu/lib/nvapi.py:505 | a buffer after a native Get keeps its length and holds what the driver wrote |
| Native.Driver.constructor | kingai_gpu/lib/nvapi.py:129-188 | a driver with its exported functions and an empty call log |
| Native.Driver.Invoke | kingai_gpu/lib/nvapi.py:87 | a native call is logged and returns the driver's status for it |
| Native.Driver.Query | kingai_gpu/lib/nvapi.py:505 | a native Get is logged with the buffer as sent, returns the status, and fills the buffer |
| NvCalls.ResolveFn | kingai_gpu/lib/nvapi.py:195-208 | `_resolve` gives a function iff its interface id is exported |
| NvCalls.ResolvedTable | kingai_gpu/lib/nvapi.py:407-426 | the table holds exactly the listed functions the driver exports |
| NvCalls.NeverInTable | kingai_gpu/lib/nvapi.py:407-426 | Initialize, Unload and FanCoolersGetStatus are never in the table |
| NvCalls.HandleSlot | kingai_gpu/lib/nvapi.py:445-454 | an index at or above the count raises `GPU_GetHandle -5`; indices -64..count-1 below 64 give a handle slot (negative ones from the end); other indices raise IndexError |
| NvCalls.ResolveEffect | kingai_gpu/lib/nvapi.py:407-440 | resolution sets the table; enumeration runs, with one call, iff the driver exports it, and otherwise the count is kept |
| NvCalls.InitEffect | kingai_gpu/lib/nvapi.py:385-442 | without Initialize `_init` raises -3 with no call; on success the table is resolved; it makes at most Initialize and enumeration calls |
| NvCalls.NoEnumNoGpus | kingai_gpu/lib/nvapi.py:432-440 | without EnumPhysicalGPUs every GPU index raises `-5` |
| NvCalls.HandleEffect | kingai_gpu/lib/nvapi.py:445-454 | once initialised `_handle` makes no call; otherwise it initialises first and, if that fails, propagates the NvApiError |
| NvCalls.InitRunsOnce | kingai_gpu/lib/nvapi.py:397-398 | after a successful `_handle`, later ones make no call and keep the table and count |
| NvCalls.GetEffect | kingai_gpu/lib/nvapi.py:62-65 | a Get makes one call iff resolved, succeeds iff that call returns 0, and its error names the function |
| NvCalls.SetEffect | kingai_gpu/lib/nvapi.py:74-96 | an unresolved Set raises -3 with no call; otherwise 1..3 identical calls, errors naming the function |
| NvCalls.SetFirstSuccess | kingai_gpu/lib/nvapi.py:86-89 | a Set whose first call succeeds makes exactly that call |
| NvCalls.CString | kingai_gpu/lib/nvapi.py:469 | `c_char.value` is the bytes before the first NUL |
| NvCalls.NameEffect | kingai_gpu/lib/nvapi.py:461-472 | the name read fails iff the handle fails (other errors give "Unknown GPU") |
| NvCalls.BusEffect | kingai_gpu/lib/nvapi.py:475-486 | the bus id read fails iff the handle fails (other errors give 0) |
| NvCalls.PstatesEffect | kingai_gpu/lib/nvapi.py:493-506 | a successful PStates20 read is a full V1 buffer |
| NvCalls.PowerStatusEffect | kingai_gpu/lib/nvapi.py:616-624 | a handle error propagates with no call; any other failure is an NvApiError |
| NvCalls.PowerInfoEffect | kingai_gpu/lib/nvapi.py:627-671 | a handle error propagates with no call; any other failure is an NvApiError |
| NvCalls.ThermalLimitEffect | kingai_gpu/lib/nvapi.py:727-737 | a handle error propagates with no call; any other failure is an NvApiError |
| NvCalls.ThermalInfoEffect | kingai_gpu/lib/nvapi.py:740-786 | a handle error propagates with no call; any other failure is an NvApiError |
| NvCalls.ClockOffsetEffect | kingai_gpu/lib/nvapi.py:547-582 | a handle error propagates; an offset outside int32 raises the struct error; otherwise the clock request is sent through the retry loop |
| NvCalls.PowerSetEffect | kingai_gpu/lib/nvapi.py:674-692 | a handle error propagates with no call; any other failure is an NvApiError |
| NvCalls.ThermalSetEffect | kingai_gpu/lib/nvapi.py:789-813 | a handle error propagates with no call; any other failure is an NvApiError |
| NvCalls.CoolerLevelEffect | kingai_gpu/lib/nvapi.py:838-858 | a handle error propagates with no call; any other failure is an NvApiError |
| NvCalls.CoolerAutoEffect | kingai_gpu/lib/nvapi.py:861-871 | a handle error propagates with no call; any other failure is an NvApiError |
| NvCalls.FanControlBuffer | kingai_gpu/lib/nvapi.py:941-949 | the modified control buffer keeps its length |
| NvCalls.FanAfterGet | kingai_gpu/lib/nvapi.py:899-951 | defines the calls `_set_fan_new_api` makes after GetControl: SetControl with the modified buffer, or the fallback to `_set_cooler_level` when GetControl failed or the layout is unusable; FanNewPathCalls and FanLegacyPathCalls state it |
| NvCalls.FanNewApiEffect | kingai_gpu/lib/nvapi.py:874-951 | defines `_set_fan_new_api` as a sequence of calls and an outcome; FanNewPathCalls and FanControlBufferWrites state it |
| NvCalls.LegacyEffect | kingai_gpu/lib/nvapi.py:1174-1211 | defines the legacy call `set_fan_speed` (a cooler level) and `set_fan_auto` (the auto policy) fall back to; FanLegacyPathCalls states it |
| NvCalls.ClockCallReadsBack | kingai_gpu/lib/nvapi.py:547-582 | the clock call carries the clock request, which reads back as the offset set |
| NvCalls.FanNewPathCalls | kingai_gpu/lib/nvapi.py:891-951 | with a usable layout the new API makes GetControl and then only SetControl calls |
| NvCalls.FanLegacyPathCalls | kingai_gpu/lib/nvapi.py:894-939 | otherwise it makes only GetControl and the manual legacy call |
| NvCalls.FanControlBufferWrites | kingai_gpu/lib/nvapi.py:941-949 | every fan entry gets the clamped speed and the mode (1 manual, 0 auto); every other byte is kept |
| NvCalls.AutoFallbackIsManualZero | kingai_gpu/lib/nvapi.py:894-896 | `set_fan_auto` falling back inside the new path sends manual 0%, not the auto policy |
| NvCalls.NewNotedAfterInternalFallback | kingai_gpu/lib/nvapi.py:1191-1193 | with GetControl failing and the legacy call working, "new" is noted after only those two calls |
| NvCalls.InternalFallback | kingai_gpu/lib/nvapi.py:899-906 | a failing GetControl falls back to the legacy call inside the new path |
| NvCalls.CachedOldOnlyLegacy | kingai_gpu/lib/nvapi.py:1186-1189 | a cached "old" makes only legacy calls and notes nothing |
| NvCalls.FanSelectEffect | kingai_gpu/lib/nvapi.py:1174-1211 | defines the choice between the new and the legacy fan API by the cached `fan_api` hint, with the hint noted afterwards; CachedOldOnlyLegacy and NewNotedAfterInternalFallback state it |
| NvCalls.OcStatusEffect | kingai_gpu/lib/nvapi.py:1100-1150 | the status read fails iff the handle fails, and then with no call |
| NvCalls.PowerGuardHolds | kingai_gpu/lib/nvapi.py:1127 | a successful power info always has a plausible default, so the `def_pcm > 0` guard always passes |
| NvCalls.OcStatusAllMissing | kingai_gpu/lib/nvapi.py:1100-1150 | with only name and bus id resolved, the status is the defaults with those two, after at most two calls |
| NvCalls.ReadingsKeep | kingai_gpu/lib/nvapi.py:1111-1144 | without any Get function the readings leave the status unchanged and make no call |
| NvCalls.OcReadings | kingai_gpu/lib/nvapi.py:1111-1144 | defines the four reading blocks of `get_oc_status` in order, each keeping the earlier fields when its reads fail; ReadingsKeep and BlocksIndependent state it |
| NvCalls.BlocksIndependent | kingai_gpu/lib/nvapi.py:1111-1144 | each try-block changes only its own fields of the status |
| NvCalls.PowerResetEffect | kingai_gpu/lib/nvapi.py:1236-1244 | the power reset propagates a handle error with no call; its other failures are NvApiErrors |
| NvCalls.ThermalResetEffect | kingai_gpu/lib/nvapi.py:1246-1251 | the thermal reset propagates a handle error with no call; its other failures are NvApiErrors |
| NvCalls.ResetSteps | kingai_gpu/lib/nvapi.py:1222-1251 | four steps; a handle error fails each one without a call |
| NvCalls.Failed | kingai_gpu/lib/nvapi.py:1222-1251 | the recorded errors are step names, at most one per step |
| NvCalls.Outcomes | kingai_gpu/lib/nvapi.py:1222-1251 | the outcome of each step, in order |
| NvCalls.ResetSettingsEffect | kingai_gpu/lib/nvapi.py:1214-1251 | the four settings resets escape only with an error other than NvApiError, and then with no call |
| NvCalls.FourSteps | kingai_gpu/lib/nvapi.py:1222-1251 | the outcomes and calls of four steps, unrolled |
| NvCalls.ResetSettingsUnrolled | kingai_gpu/lib/nvapi.py:1222-1251 | core, memory, power and thermal run in that order, each from where the previous one left the call count |
| NvCalls.FailedIff | kingai_gpu/lib/nvapi.py:1222-1251 | a step is recorded if and only if it failed |
| NvCalls.FailedNonEmpty | kingai_gpu/lib/nvapi.py:1259-1261 | some error is recorded iff some step failed |
| NvCalls.ResetErrorsIff | kingai_gpu/lib/nvapi.py:1222-1251 | "core", "memory", "power" or "thermal" is recorded iff that step failed |
| NvCalls.ResetStepsDistinct | kingai_gpu/lib/nvapi.py:1224-1251 | the four step names are distinct |
| NvCalls.ResetSendsBothClockResets | kingai_gpu/lib/nvapi.py:1224-1234 | with SetPstates20 resolved, both zero-offset clock requests are sent |
| NvCalls.ResetWithBadIndex | kingai_gpu/lib/nvapi.py:1214-1251 | an index at or above the GPU count fails all four steps without a call |
| NvCalls.HandleErrorFailsEveryStep | kingai_gpu/lib/nvapi.py:1214-1251 | any NvApiError from `_handle` fails all four steps without a call |
| NvCalls.AllFail | kingai_gpu/lib/nvapi.py:1222-1251 | if every step fails, every step name is recorded |
| NvCalls.NoCalls | kingai_gpu/lib/nvapi.py:1222-1251 | steps without calls make no calls in total |
| NvCalls.PowerFallbackRescues | kingai_gpu/lib/nvapi.py:1236-1244 | a failing power-info read is rescued by setting 100000, which records no error |
| NvApi.ProbeEntry | kingai_gpu/lib/nvapi.py:1022-1038 | the saved entry is keyed by name, bus id and driver; it records a power verdict, no thermal shift, and the memo's fan API |
| NvApi.StoredFanApi | kingai_gpu/lib/nvapi.py:1058-1073 | a stored preference is found only with a name and a driver, under their key, and is never empty |
| NvApi.NotedFanApiPersists | kingai_gpu/lib/nvapi.py:1009-1077 | the fan API noted in one session is found by the next session's lookup for the same GPU and driver |
| NvApi.DefaultPowerNotPrimary | kingai_gpu/lib/nvapi.py:1032 | power is recorded as primary-ok iff the status is not the default 100% in 50..150% |
| NvApi.PowerPrimaryOk | kingai_gpu/lib/nvapi.py:1032 | defines `power_primary_ok`: the power reading differs from the `OcStatus` defaults in its value or its range; DefaultPowerNotPrimary states the default case |
| NvApi.FanApiLookup | kingai_gpu/lib/nvapi.py:1058-1077 | a handle error is swallowed, giving None with no call; a preference found is never empty |
| NvApi.ResetOutcome | kingai_gpu/lib/nvapi.py:1253-1261 | an escaped non-NvApi error propagates; `reset_all` passes only with no step failed and the fan reset passing |
| NvApi.ResetOutcomeIff | kingai_gpu/lib/nvapi.py:1253-1261 | `reset_all` raises `NvApiError("reset_all", -1)` iff some step failed, and passes iff none did |
| NvApi.EnumerateGpus | kingai_gpu/lib/nvapi.py:432-440 | one enumeration call, its status, and the count the driver writes |
| NvApi.ZeroBuffer | kingai_gpu/lib/nvapi.py:293 | a fresh zero-filled array |
| NvApi.BuildClockRequest | kingai_gpu/lib/nvapi.py:557-569 | the array built in place equals the clock request |
| NvApi.BuildPowerRequest | kingai_gpu/lib/nvapi.py:684-686 | the array built in place equals the power request |
| NvApi.BuildThermalRequest | kingai_gpu/lib/nvapi.py:804-808 | the array built in place equals the thermal request |
| NvApi.BuildCoolerRequest | kingai_gpu/lib/nvapi.py:850-853 | the array built in place equals the cooler request |
| NvApi.WriteFanEntries | kingai_gpu/lib/nvapi.py:941-949 | the in-place loop leaves the buffer equal to the pure entry writes |
| NvApi.WriteFanEntry | kingai_gpu/lib/nvapi.py:943-949 | one pass of the loop: entry i gets the level and the mode when both words fit the buffer, and the buffer is left as it was otherwise |
| NvApi.WriteEntryAt | kingai_gpu/lib/nvapi.py:943-949 | one in-place entry write equals the pure one |
| NvApi.CallGet | kingai_gpu/lib/nvapi.py:62-65 | the native Get and its check: the calls and the outcome are those of the Get effect |
| NvApi.CallSet | kingai_gpu/lib/nvapi.py:74-96 | the native Set through the retry loop: the calls and the outcome are those of the Set effect |
| NvApi.ReadGpuName | kingai_gpu/lib/nvapi.py:461-472 | the name read and its calls are those of the name effect |
| NvApi.ReadBusId | kingai_gpu/lib/nvapi.py:475-486 | the bus id read and its calls are those of the bus effect |
| NvApi.ReadStoredFanApi | kingai_gpu/lib/nvapi.py:1058-1077 | the stored-preference lookup makes the name and bus calls and returns the stored API |
| NvApi.ReadPstates | kingai_gpu/lib/nvapi.py:493-506 | the PStates20 read and its calls are those of the pstates effect |
| NvApi.ReadPowerStatus | kingai_gpu/lib/nvapi.py:616-624 | the power status read matches its effect |
| NvApi.ReadPowerInfo | kingai_gpu/lib/nvapi.py:627-671 | the power info read, with its scan, matches its effect |
| NvApi.ReadThermalLimit | kingai_gpu/lib/nvapi.py:727-737 | the thermal limit read matches its effect |
| NvApi.ReadThermalInfo | kingai_gpu/lib/nvapi.py:740-786 | the thermal info read, with shift detection and scan, matches its effect |
| NvApi.WriteClockOffset | kingai_gpu/lib/nvapi.py:547-582 | the clock offset write matches its effect |
| NvApi.WritePowerStatus | kingai_gpu/lib/nvapi.py:674-692 | the power write matches its effect |
| NvApi.WriteThermalLimit | kingai_gpu/lib/nvapi.py:789-813 | the thermal write matches its effect |
| NvApi.WriteCoolerLevel | kingai_gpu/lib/nvapi.py:838-858 | the legacy manual fan write matches its effect |
| NvApi.WriteCoolerAuto | kingai_gpu/lib/nvapi.py:861-871 | the legacy auto fan write matches its effect |
| NvApi.WriteFanNewApi | kingai_gpu/lib/nvapi.py:874-951 | the new fan API, with all its fallbacks, matches its effect |
| NvApi.FanGetModifySet | kingai_gpu/lib/nvapi.py:891-951 | Get-Modify-Set with both functions resolved matches the effect |
| NvApi.FanModifyOrFallBack | kingai_gpu/lib/nvapi.py:899-951 | after the Get: the layout check, then the fallback or the modify-and-set |
| NvApi.FanModifySet | kingai_gpu/lib/nvapi.py:941-951 | the modified buffer is sent through the retry loop |
| NvApi.ReadClocksBlock | kingai_gpu/lib/nvapi.py:1111-1121 | the clocks try-block matches its effect |
| NvApi.ReadPowerBlock | kingai_gpu/lib/nvapi.py:1123-1131 | the power try-block matches its effect |
| NvApi.ReadThermalLimitBlock | kingai_gpu/lib/nvapi.py:1133-1137 | the thermal limit try-block matches its effect |
| NvApi.ReadThermalRangeBlock | kingai_gpu/lib/nvapi.py:1139-1144 | the thermal range try-block matches its effect |
| NvApi.ReadThermalBlocks | kingai_gpu/lib/nvapi.py:1133-1144 | both thermal blocks, in order |
| NvApi.ReadPowerOnward | kingai_gpu/lib/nvapi.py:1123-1144 | the power and thermal blocks, in order |
| NvApi.ReadBlocks | kingai_gpu/lib/nvapi.py:1111-1144 | all four try-blocks, in order |
| NvApi.ReadOcStatus | kingai_gpu/lib/nvapi.py:1100-1146 | the status read and all its calls are those of the status effect |
| NvSession.Noted | kingai_gpu/lib/nvapi.py:1080-1082 | noting an API records it for the GPU and leaves every other GPU's entry unchanged |
| NvSession.CachedFanApi | kingai_gpu/lib/nvapi.py:1047-1077 | a memoised GPU is answered with no call; a handle error, or a cache whose load raises, gives None with no call |
| NvSession.Session.constructor | kingai_gpu/lib/nvapi.py:375-378 | the import-time state: not initialised, empty table, no GPUs, empty memo, no cache loaded |
| NvSession.Session.Init | kingai_gpu/lib/nvapi.py:385-442 | a no-op once initialised; otherwise the init effect, with initialisation recorded only on success |
| NvSession.Session.ResolveFunctions | kingai_gpu/lib/nvapi.py:407-440 | the table and count become those of the resolve effect |
| NvSession.Session.Handle | kingai_gpu/lib/nvapi.py:445-454 | the handle, calls and state are those of the handle effect |
| NvSession.Session.EnableOc | kingai_gpu/lib/nvapi.py:1089-1097 | passes iff `_handle` succeeds, with the handle effect's calls and state |
| NvSession.Session.GetGpuName | kingai_gpu/lib/nvapi.py:461-472 | `_handle` and then the name effect, calls in order |
| NvSession.Session.GetBusId | kingai_gpu/lib/nvapi.py:475-486 | `_handle` and then the bus effect |
| NvSession.Session.GetPstates20 | kingai_gpu/lib/nvapi.py:493-506 | `_handle` and then the pstates effect |
| NvSession.Session.GetPowerStatus | kingai_gpu/lib/nvapi.py:616-624 | `_handle` and then the power status effect |
| NvSession.Session.GetPowerInfo | kingai_gpu/lib/nvapi.py:627-671 | `_handle` and then the power info effect |
| NvSession.Session.GetThermalLimit | kingai_gpu/lib/nvapi.py:727-737 | `_handle` and then the thermal limit effect |
| NvSession.Session.GetThermalInfo | kingai_gpu/lib/nvapi.py:740-786 | `_handle` and then the thermal info effect |
| NvSession.Session.SetClockOffset | kingai_gpu/lib/nvapi.py:547-582 | `_handle` and then the clock offset effect |
| NvSession.Session.SetCoreOffset | kingai_gpu/lib/nvapi.py:1153-1155 | the graphics domain (0) at `mhz * 1000` kHz |
| NvSession.Session.SetMemOffset | kingai_gpu/lib/nvapi.py:1158-1160 | the memory domain (4) at `mhz * 1000` kHz |
| NvSession.Session.SetPowerStatus | kingai_gpu/lib/nvapi.py:674-692 | `_handle` and then the power set effect |
| NvSession.Session.SetThermalLimit | kingai_gpu/lib/nvapi.py:789-813 | `_handle` and then the thermal set effect, with the priority flag |
| NvSession.Session.SetCoolerLevel | kingai_gpu/lib/nvapi.py:838-858 | `_handle` and then the legacy manual effect |
| NvSession.Session.SetCoolerAuto | kingai_gpu/lib/nvapi.py:861-871 | `_handle` and then the legacy auto effect |
| NvSession.Session.SetFanNewApi | kingai_gpu/lib/nvapi.py:874-951 | `_handle` and then the new fan API effect |
| NvSession.Session.NoteFanApi | kingai_gpu/lib/nvapi.py:1080-1082 | the memo gains the API for the GPU |
| NvSession.Session.GetCachedFanApi | kingai_gpu/lib/nvapi.py:1047-1077 | a memo hit changes nothing; a cache whose load raises gives None with no call and leaves `_device_cache` None; otherwise the cache is loaded if needed, the stored preference is looked up and promoted into the memo; the cache contents do not change |
| NvSession.Session.LoadCacheIfNeeded | kingai_gpu/lib/nvapi.py:1062-1063 | the cache is loaded once and then kept; a load that raises leaves `_device_cache` None and reports it |
| NvSession.Session.StoredFanApiOf | kingai_gpu/lib/nvapi.py:1065-1077 | `_handle` and then the stored-preference lookup |
| NvSession.Session.SaveProbeToCache | kingai_gpu/lib/nvapi.py:1009-1044 | without a name or driver nothing changes; a cache whose load raises is swallowed, leaving `_device_cache` None and the file unchanged; otherwise the probe entry, carrying the memo's API, is put into the cache and written out |
| NvSession.Session.SetCoolerLegacy | kingai_gpu/lib/nvapi.py:1186-1211 | the legacy call of a fan request: auto or manual |
| NvSession.Session.SelectFanApi | kingai_gpu/lib/nvapi.py:1186-1196 | a cached "old" goes legacy; otherwise the new API, noting "new", with an NvApiError falling back to legacy and noting "old" |
| NvSession.Session.RequestFan | kingai_gpu/lib/nvapi.py:1174-1211 | a request that returns leaves a preference noted for the GPU, other GPUs untouched; once initialised the calls and outcome are the lookup (None when the cache load raises) then the selection |
| NvSession.Session.SetFanSpeed | kingai_gpu/lib/nvapi.py:1174-1196 | the manual fan request, with the same guarantees |
| NvSession.Session.SetFanAuto | kingai_gpu/lib/nvapi.py:1199-1211 | the automatic fan request, with the same guarantees |
| NvSession.Session.GetOcStatus | kingai_gpu/lib/nvapi.py:1100-1150 | the status and calls are the status effect's; on success with a name and driver the probe entry is saved, unless the cache load raises, in which case, as without a name or driver, the cache and the file are unchanged |
| NvSession.Session.ResetPower | kingai_gpu/lib/nvapi.py:1236-1244 | the power reset effect, including the 100000 fallback |
| NvSession.Session.ResetThermal | kingai_gpu/lib/nvapi.py:1246-1251 | the thermal reset effect |
| NvSession.Session.ResetClocks | kingai_gpu/lib/nvapi.py:1224-1234 | both clock resets in order; a non-NvApi error escapes from the first |
| NvSession.Session.ResetLimits | kingai_gpu/lib/nvapi.py:1236-1251 | the power and thermal resets in order |
| NvSession.Session.ResetSettings | kingai_gpu/lib/nvapi.py:1214-1251 | the recorded errors and any escaped error are those of the settings reset effect, with its calls |
| NvSession.Session.ResetAll | kingai_gpu/lib/nvapi.py:1214-1261 | an escaped error propagates after the settings calls; otherwise the outcome combines the recorded errors with the fan-auto request, whose lookup gives None when the cache load raises |

## Left out

- DLL loading, `QueryInterface` and ctypes: the driver is an oracle, and the interface ids are abstracted to one id per function.
- `time.sleep`: the sleeps are returned as a list of durations rather than slept.
- `_get_driver_version` reads NVML: it is a constant of the session (`driverVersion`); "" when NVML is unavailable.
- File I/O, JSON text and `datetime.now()`: the cache file is a `CacheFile` value (missing, unreadable, not UTF-8, or parsed), and the timestamps `cached_at` and `imported_at` are parameters.
- `probe_time_ms` is a float in the source; the model keeps it as an integer.
- DeviceCache.EntryOf: a stored field that is null or has the wrong JSON type reads as the field's default (or None for an optional hint), where Python's `data.get` keeps the stored value whatever its type, because the entry's fields are typed. So `{"gpu_name": null}` loads as "" rather than None. And a non-text `fan_api` such as 1 is ignored rather than promoted into the session memo.
- DeviceCache.DecodeEntries: agrees with `load_cache` only on stored objects whose present fields have their expected JSON types (text, number, boolean, list of numbers) or are null in an optional hint; see DeviceCache.EntryOf.
- DeviceCache.LoadCache: the same restriction as DeviceCache.DecodeEntries, since it decodes through it.
- Floating point: `OcStatus` keeps kHz and PCM integers rather than the `/ 1000.0` MHz and percent values; `set_power_limit` (`int(pct * 1000)` of a float) is left out, and `SetPowerStatus` takes the PCM value.
- `dump_buf` and `dump_pstates`: debug printing only.
- `clear_cache`, Afterburner profile discovery (`find_afterburner_profiles`, `_find_via_registry`), `cmd_import_msi` and `_print_profile_summary`: file-system, registry and CLI printing.
- The rest of `kingai_gpu/lib/nvml.py` (snapshots, polling): it only wraps NVML calls.
- Exceptions other than NvApiError from native code, such as ctypes argument errors, are not modelled; out-of-range indices and struct-packing overflows are modelled as `IndexError` and `StructError`.
- The text encodings (`ascii` with `errors="replace"`, UTF-8 of the GPU name): text is a sequence of characters, and a name byte is taken as its code point.
- NvSession.Session.RequestFan: the exact call log, outcome and memo are stated only when the first `_handle` leaves the library initialised. Python re-runs a failed `_init` at each later step, which the contract bounds only by the memo facts.
- NvSession.Session.SetFanSpeed: exact only when the first `_handle` leaves the library initialised, as for RequestFan.
- NvSession.Session.SetFanAuto: exact only when the first `_handle` leaves the library initialised, as for RequestFan.
- NvSession.Session.SelectFanApi: exact only when the library is initialised on entry.
- NvSession.Session.ResetAll: exact only when the first `_handle` leaves the library initialised.
- NvSession.Session.ResetSettings: exact only when the first `_handle` leaves the library initialised.
- NvSession.Session.ResetClocks: exact only when the first `_handle` leaves the library initialised.
- NvSession.Session.ResetLimits: exact only when the first `_handle` leaves the library initialised.
- NvSession.Session.ResetPower: exact only when the first `_handle` leaves the library initialised.
- NvSession.Session.ResetThermal: exact only when the first `_handle` leaves the library initialised.

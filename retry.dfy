/**
 * `_check_set`: a Set call retried while the driver reports one of the
 * transient lock statuses. The statuses a run sees are a stream indexed
 * by attempt; `Run` is the outcome of the loop over that stream, and
 * `CheckSet` is the loop itself against a `Driver`.
 */
module Retry {
  import opened Wrappers
  import opened Native

  /** INVALID_USER_PRIVILEGE and INCOMPATIBLE_STRUCT_VERSION: another tool holds the OC lock. */
  predicate IsTransient(status: int) { status == -104 || status == -9 }

  const DEFAULT_MAX_RETRIES: int := 3

  /** How a retried call ended, and how many times the function was called. */
  datatype RetryRun = Succeeded(calls: nat) | Raised(calls: nat, status: int)

  /** The loop from attempt `attempt` on. */
  function RunFrom(st: nat -> int, attempt: nat, maxRetries: int): (r: RetryRun)
    requires attempt < maxRetries
    ensures attempt < r.calls <= maxRetries
    decreases maxRetries - attempt
  {
    var status := st(attempt);
    if status == 0 then Succeeded(attempt + 1)
    else if IsTransient(status) && attempt < maxRetries - 1 then RunFrom(st, attempt + 1, maxRetries)
    else Raised(attempt + 1, status)
  }

  /**
   * The loop from `attempt` on retries only past transient statuses,
   * succeeds on a 0 and raises the last status, which is permanent or came
   * on the final attempt.
   */
  lemma {:induction false} RunFromCharacterised(st: nat -> int, attempt: nat, maxRetries: int)
    requires attempt < maxRetries
    ensures var r := RunFrom(st, attempt, maxRetries);
      && (forall a :: attempt <= a < r.calls - 1 ==> IsTransient(st(a)))
      && (r.Succeeded? ==> st(r.calls - 1) == 0)
      && (r.Raised? ==> r.status == st(r.calls - 1) && r.status != 0)
      && (r.Raised? ==> !IsTransient(r.status) || r.calls == maxRetries)
    decreases maxRetries - attempt
  {
    var status := st(attempt);
    if status != 0 && IsTransient(status) && attempt < maxRetries - 1 {
      RunFromCharacterised(st, attempt + 1, maxRetries);
    }
  }

  /**
   * The outcome of `_check_set` over the statuses `st(0), st(1), …`; with
   * no attempts allowed it raises with status 0 without calling.
   */
  function Run(st: nat -> int, maxRetries: int): RetryRun {
    if maxRetries <= 0 then Raised(0, 0) else RunFrom(st, 0, maxRetries)
  }

  /**
   * What a run promises: at least one and at most `maxRetries` calls;
   * every call but the last saw a transient status; it succeeds on the
   * first 0; it raises with the last status, which is permanent or came on
   * the final attempt.
   */
  lemma RunCharacterised(st: nat -> int, maxRetries: int)
    requires maxRetries > 0
    ensures var r := Run(st, maxRetries);
      && 1 <= r.calls <= maxRetries
      && (forall a :: 0 <= a < r.calls - 1 ==> IsTransient(st(a)))
      && (r.Succeeded? <==> st(r.calls - 1) == 0)
      && (r.Raised? ==> r.status == st(r.calls - 1) && (!IsTransient(r.status) || r.calls == maxRetries))
  {
    RunFromCharacterised(st, 0, maxRetries);
  }

  /** A permanent error is never retried: one call, raised with that status. */
  lemma PermanentNotRetried(st: nat -> int, maxRetries: int)
    requires maxRetries > 0 && st(0) != 0 && !IsTransient(st(0))
    ensures Run(st, maxRetries) == Raised(1, st(0))
  {
  }

  /** Success on the first call makes exactly one call. */
  lemma FirstSuccessOneCall(st: nat -> int, maxRetries: int)
    requires maxRetries > 0 && st(0) == 0
    ensures Run(st, maxRetries) == Succeeded(1)
  {
  }

  /**
   * A driver that keeps reporting transient statuses is called exactly
   * `maxRetries` times and the last transient status is raised.
   */
  lemma {:induction false} AlwaysTransientExhausts(st: nat -> int, attempt: nat, maxRetries: int)
    requires attempt < maxRetries
    requires forall a :: attempt <= a < maxRetries ==> IsTransient(st(a))
    ensures RunFrom(st, attempt, maxRetries) == Raised(maxRetries, st(maxRetries - 1))
    decreases maxRetries - attempt
  {
    if attempt < maxRetries - 1 {
      AlwaysTransientExhausts(st, attempt + 1, maxRetries);
    }
  }

  /**
   * The pauses of a run, in milliseconds: `0.1 * (attempt + 1)` seconds
   * after each attempt that is retried, that is before the 2nd, 3rd, …
   * call.
   */
  function Sleeps(r: RetryRun): (ms: seq<nat>)
    ensures |ms| == if r.calls == 0 then 0 else r.calls - 1
  {
    if r.calls == 0 then [] else Schedule(r.calls - 1)
  }

  /** The first `n` pauses: 100, 200, … ms. */
  function Schedule(n: nat): (ms: seq<nat>)
    ensures |ms| == n
  {
    if n == 0 then [] else Schedule(n - 1) + [100 * n]
  }

  /** The i-th pause is `100 * (i + 1)` ms. */
  lemma {:induction false} ScheduleValues(n: nat)
    ensures forall i :: 0 <= i < n ==> Schedule(n)[i] == 100 * (i + 1)
  {
    if n > 0 {
      ScheduleValues(n - 1);
    }
  }

  /**
   * With the default three attempts there are at most two pauses, of 100
   * and 200 ms: the 300 ms pause the schedule mentions never happens, and
   * the worst case waits 300 ms in all.
   */
  lemma DefaultScheduleSleeps(st: nat -> int)
    ensures var ms := Sleeps(Run(st, DEFAULT_MAX_RETRIES));
      |ms| <= 2 && (forall i :: 0 <= i < |ms| ==> ms[i] == 100 * (i + 1))
      && (forall i :: 0 <= i < |ms| ==> ms[i] != 300)
  {
    var r := Run(st, DEFAULT_MAX_RETRIES);
    RunCharacterised(st, DEFAULT_MAX_RETRIES);
    if r.calls > 0 {
      ScheduleValues(r.calls - 1);
    }
  }

  /** `n` copies of the same call. */
  function Repeat(c: NativeCall, n: nat): (r: seq<NativeCall>)
    ensures |r| == n
  {
    if n == 0 then [] else Repeat(c, n - 1) + [c]
  }

  /** Every element of `Repeat(c, n)` is `c`. */
  lemma {:induction false} RepeatElems(c: NativeCall, n: nat)
    ensures forall i :: 0 <= i < n ==> Repeat(c, n)[i] == c
  {
    if n > 0 {
      RepeatElems(c, n - 1);
    }
  }

  /** The statuses successive attempts of `c` get, starting at call number `n0`. */
  function Statuses(respond: (nat, NativeCall) -> Reply, n0: nat, c: NativeCall): nat -> int {
    (k: nat) => respond(n0 + k, c).status
  }

  /**
   * `_check_set(name, fn, …)`: issue `c` until it succeeds, fails
   * permanently, or `maxRetries` attempts are used up. The driver sees
   * exactly the calls of `Run`, and the outcome is `Run`'s, raised as
   * `NvApiError(name, status)`.
   */
  method CheckSet(driver: Driver, name: string, c: NativeCall, maxRetries: int)
    returns (out: Outcome<Error>, ghost slept: seq<nat>)
    modifies driver
    ensures var r := Run(Statuses(driver.respond, |old(driver.log)|, c), maxRetries);
      && driver.log == old(driver.log) + Repeat(c, r.calls)
      && out == (if r.Succeeded? then Pass else Fail(NvApiError(name, r.status)))
      && slept == Sleeps(r)
  {
    ghost var st := Statuses(driver.respond, |driver.log|, c);
    ghost var log0 := driver.log;
    ghost var run := Run(st, maxRetries);
    slept := [];
    var lastStatus := 0;
    var attempt := 0;
    while attempt < maxRetries
      invariant 0 <= attempt
      invariant maxRetries > 0 ==> attempt < maxRetries && run == RunFrom(st, attempt, maxRetries)
      invariant maxRetries <= 0 ==> attempt == 0 && lastStatus == 0
      invariant driver.log == log0 + Repeat(c, attempt)
      invariant slept == Schedule(attempt)
      decreases maxRetries - attempt
    {
      assert st(attempt) == driver.respond(|driver.log|, c).status;
      var status := driver.Invoke(c);
      if status == 0 {
        assert run == Succeeded(attempt + 1);
        assert driver.log == log0 + Repeat(c, attempt + 1);
        assert slept == Sleeps(Succeeded(attempt + 1));
        return Pass, slept;
      }
      lastStatus := status;
      if IsTransient(status) && attempt < maxRetries - 1 {
        slept := slept + [100 * (attempt + 1)];
        attempt := attempt + 1;
        continue;
      }
      assert run == Raised(attempt + 1, status);
      assert driver.log == log0 + Repeat(c, attempt + 1);
      assert slept == Sleeps(Raised(attempt + 1, status));
      return Fail(NvApiError(name, status)), slept;
    }
    return Fail(NvApiError(name, lastStatus)), slept;
  }
}

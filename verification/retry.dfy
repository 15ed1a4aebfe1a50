/**
 * The `with_retry` decorator: call the wrapped operation up to `maxAttempts` times, sleeping
 * between failed attempts with a geometrically growing delay, and re-raise the last error
 * once every attempt has failed.
 *
 * The wrapped operation is a script: `script(j)` is what the `j`-th call (counting from 0)
 * returns or raises. Sleeping is recorded as the sequence of completed sleeps; `time.sleep`
 * raises `ValueError` for a negative delay, and that error leaves the wrapper at once.
 */
module Retry {
  import opened Base
  import opened Text
  import opened Constants
  import opened Errors
  import opened LoggingUtils

  /** What one call of the wrapped operation does. */
  datatype CallOutcome<V> = Succeeded(value: V) | Raised(error: Exc)

  /**
   * What the decorated call does: return a value, re-raise, fall out of the loop with `None`,
   * or let the `ValueError` of `time.sleep(delay)` escape for a negative `delay`.
   */
  datatype RetryResult<V> = Returned(value: V) | Reraised(error: Exc) | NoneReturned | SleepRejected(delay: real)

  // ---------------------------------------------------------------------------
  // Specification
  // ---------------------------------------------------------------------------

  /** The index of the first successful call at or after `k`, or `maxAttempts` when there is none before it. */
  function FirstSuccess<V>(k: nat, maxAttempts: int, script: nat -> CallOutcome<V>): (f: nat)
    requires k <= maxAttempts
    ensures k <= f <= maxAttempts
    ensures forall j :: k <= j < f ==> script(j).Raised?
    ensures f < maxAttempts ==> script(f).Succeeded?
    decreases maxAttempts - k
  {
    if k == maxAttempts || script(k).Succeeded? then k else FirstSuccess(k + 1, maxAttempts, script)
  }

  /** How many times the decorated call invokes the operation. */
  function Calls<V>(maxAttempts: int, script: nat -> CallOutcome<V>): (n: nat)
    ensures maxAttempts <= 0 ==> n == 0
    ensures maxAttempts > 0 ==> 1 <= n <= maxAttempts
    ensures forall j :: 0 <= j < n - 1 ==> script(j).Raised?
    ensures 0 < n < maxAttempts ==> script(n - 1).Succeeded?
  {
    if maxAttempts <= 0 then 0
    else
      var f := FirstSuccess(0, maxAttempts, script);
      if f < maxAttempts then f + 1 else maxAttempts
  }

  /** What the decorated call ends with. */
  function Outcome<V>(maxAttempts: int, script: nat -> CallOutcome<V>): (r: RetryResult<V>)
    ensures r.NoneReturned? <==> maxAttempts <= 0
    ensures r.Returned? ==> script(Calls(maxAttempts, script) - 1) == Succeeded(r.value)
    ensures r.Reraised? ==> (Calls(maxAttempts, script) == maxAttempts
                          && script(maxAttempts - 1) == Raised(r.error))
  {
    if maxAttempts <= 0 then NoneReturned
    else
      var last := script(Calls(maxAttempts, script) - 1);
      match last
      case Succeeded(v) => Returned(v)
      case Raised(e) => Reraised(e)
  }

  /** The delay slept after the `i`-th failed attempt (from 0): `baseDelay`, then multiplied by `backoffFactor` each time. */
  function Delay(baseDelay: real, backoffFactor: real, i: nat): real {
    if i == 0 then baseDelay else Delay(baseDelay, backoffFactor, i - 1) * backoffFactor
  }

  /** The delays slept before attempts 2, 3, …, `n + 1`. */
  function Delays(n: nat, baseDelay: real, backoffFactor: real): (r: seq<real>)
    ensures |r| == n
  {
    if n == 0 then [] else Delays(n - 1, baseDelay, backoffFactor) + [Delay(baseDelay, backoffFactor, n - 1)]
  }

  /** The index of the first negative delay among the first `n`, or `n` when there is none. */
  function FirstNegativeDelay(n: nat, baseDelay: real, backoffFactor: real): (i: nat)
    ensures i <= n
    ensures forall j :: 0 <= j < i ==> Delay(baseDelay, backoffFactor, j) >= 0.0
    ensures i < n ==> Delay(baseDelay, backoffFactor, i) < 0.0
  {
    if n == 0 then 0
    else
      var k := FirstNegativeDelay(n - 1, baseDelay, backoffFactor);
      if k < n - 1 || Delay(baseDelay, backoffFactor, n - 1) < 0.0 then k else n
  }

  /** The sleeps the wrapper would take if every one of them returned: one after each failed, non-final call. */
  function SleepsWanted<V>(maxAttempts: int, script: nat -> CallOutcome<V>): (n: nat)
    ensures n == 0 || n == Calls(maxAttempts, script) - 1
    ensures forall j :: 0 <= j < n ==> script(j).Raised?
  {
    var c := Calls(maxAttempts, script);
    if c == 0 then 0 else c - 1
  }

  /** The index of the sleep that raises `ValueError`, or `SleepsWanted` when every sleep returns. */
  function SleepFailure<V>(maxAttempts: int, baseDelay: real, backoffFactor: real, script: nat -> CallOutcome<V>): (k: nat)
    ensures k <= SleepsWanted(maxAttempts, script)
    ensures forall j :: 0 <= j < k ==> Delay(baseDelay, backoffFactor, j) >= 0.0
    ensures k < SleepsWanted(maxAttempts, script) ==> Delay(baseDelay, backoffFactor, k) < 0.0
  {
    FirstNegativeDelay(SleepsWanted(maxAttempts, script), baseDelay, backoffFactor)
  }

  /** The `i`-th of the delays is the `i`-th delay. */
  lemma {:induction false} DelaysElements(n: nat, baseDelay: real, backoffFactor: real)
    ensures forall i :: 0 <= i < n ==> Delays(n, baseDelay, backoffFactor)[i] == Delay(baseDelay, backoffFactor, i)
  {
    if n > 0 {
      DelaysElements(n - 1, baseDelay, backoffFactor);
    }
  }

  /** The warning the wrapper logs when attempt `attempt` fails and another one follows. */
  function AttemptFailedRecord(attempt: nat, e: Exc): (r: LogRecord)
    ensures r.level == Warning
  {
    LogRecord(Warning, "Attempt " + NatToDecimal(attempt) + " failed: " + e.message, map[])
  }

  /** The error the wrapper logs when the last attempt fails. */
  function RetryFailedRecord(maxAttempts: int, e: Exc): (r: LogRecord)
    ensures r.level == Error
  {
    LogRecord(Error, "Retry failed after " + IntToDecimal(maxAttempts) + " attempts: " + e.message, map[])
  }

  /** One warning per failed attempt among the first `n`, in order. */
  function Warnings<V>(n: nat, script: nat -> CallOutcome<V>): (r: seq<LogRecord>)
    requires forall j :: 0 <= j < n ==> script(j).Raised?
    ensures |r| == n
  {
    if n == 0 then [] else Warnings(n - 1, script) + [AttemptFailedRecord(n, script(n - 1).error)]
  }

  /** The `j`-th warning reports attempt `j + 1` and its error. */
  lemma {:induction false} WarningsElements<V>(n: nat, script: nat -> CallOutcome<V>)
    requires forall j :: 0 <= j < n ==> script(j).Raised?
    ensures forall j :: 0 <= j < n ==> Warnings(n, script)[j] == AttemptFailedRecord(j + 1, script(j).error)
  {
    if n > 0 {
      WarningsElements(n - 1, script);
    }
  }

  // ---------------------------------------------------------------------------
  // The loop
  // ---------------------------------------------------------------------------

  /** What one decorated call leaves behind: its result, the calls made, the completed sleeps and the log. */
  datatype RetryRun<V> = RetryRun(result: RetryResult<V>, calls: nat, sleeps: seq<real>, log: seq<LogRecord>)

  /**
   * The decorated call, specified. When a sleep is asked for a negative delay, the wrapper stops
   * there: that attempt's warning is logged and the `ValueError` of `time.sleep` escapes.
   * Otherwise it makes `Calls` calls, ends with `Outcome`, sleeps once per failed non-final call,
   * logs one warning per such call, and logs a final error exactly when it re-raises.
   */
  function RetrySpec<V>(maxAttempts: int, baseDelay: real, backoffFactor: real,
                        script: nat -> CallOutcome<V>, log: seq<LogRecord>): (r: RetryRun<V>)
    ensures r.calls <= maxAttempts || r.calls == 0
    ensures r.calls == 0 <==> r.result.NoneReturned?
    ensures r.calls == 0 ==> r.sleeps == [] && r.log == log
    ensures r.calls > 0 ==> |r.sleeps| == r.calls - 1
    ensures log <= r.log
  {
    var k := SleepFailure(maxAttempts, baseDelay, backoffFactor, script);
    if k < SleepsWanted(maxAttempts, script) then
      RetryRun(SleepRejected(Delay(baseDelay, backoffFactor, k)), k + 1, Delays(k, baseDelay, backoffFactor),
               log + Warnings(k + 1, script))
    else
      var res := Outcome(maxAttempts, script);
      RetryRun(res, Calls(maxAttempts, script), Delays(k, baseDelay, backoffFactor),
               log + Warnings(k, script) + (if res.Reraised? then [RetryFailedRecord(maxAttempts, res.error)] else []))
  }

  /**
   * The rest of the decorated call from the state after `calls` failed calls, with `delay` the
   * next delay, `sleeps` the sleeps so far and `log` the records so far: one attempt per step.
   * It is the bridge between the loop of `WithRetry` and `RetrySpec` (see `LoopIsSpec`).
   */
  function RetryLoop<V>(maxAttempts: int, backoffFactor: real, script: nat -> CallOutcome<V>,
                        calls: nat, delay: real, sleeps: seq<real>, log: seq<LogRecord>): (r: RetryRun<V>)
    decreases maxAttempts - calls
  {
    if calls >= maxAttempts then RetryRun(NoneReturned, calls, sleeps, log)
    else
      match script(calls)
      case Succeeded(v) => RetryRun(Returned(v), calls + 1, sleeps, log)
      case Raised(e) =>
        if calls + 1 == maxAttempts then
          RetryRun(Reraised(e), calls + 1, sleeps, log + [RetryFailedRecord(maxAttempts, e)])
        else if delay < 0.0 then
          RetryRun(SleepRejected(delay), calls + 1, sleeps, log + [AttemptFailedRecord(calls + 1, e)])
        else
          RetryLoop(maxAttempts, backoffFactor, script, calls + 1, delay * backoffFactor, sleeps + [delay],
                    log + [AttemptFailedRecord(calls + 1, e)])
  }

  /**
   * The decorated call. Its result, the calls it makes, the sleeps it completes and the records
   * it logs are those of `RetrySpec`.
   */
  method WithRetry<V>(maxAttempts: int, baseDelay: real, backoffFactor: real,
                      script: nat -> CallOutcome<V>, log: seq<LogRecord>)
    returns (result: RetryResult<V>, calls: nat, sleeps: seq<real>, logOut: seq<LogRecord>)
    ensures RetryRun(result, calls, sleeps, logOut) == RetrySpec(maxAttempts, baseDelay, backoffFactor, script, log)
  {
    var attempt := 1;
    var delay := baseDelay;
    calls, sleeps, logOut := 0, [], log;
    assert Delays(0, baseDelay, backoffFactor) == [] && log + Warnings(0, script) == log;
    LoopIsSpec(maxAttempts, baseDelay, backoffFactor, script, log, 0);
    while attempt <= maxAttempts
      invariant attempt == calls + 1 && (calls == 0 || calls < maxAttempts)
      invariant RetryLoop(maxAttempts, backoffFactor, script, calls, delay, sleeps, logOut)
             == RetrySpec(maxAttempts, baseDelay, backoffFactor, script, log)
      decreases maxAttempts - attempt
    {
      var outcome := script(attempt - 1);
      calls := calls + 1;
      match outcome {
        case Succeeded(v) =>
          result := Returned(v);
          return;
        case Raised(e) =>
          if attempt == maxAttempts {
            result := Reraised(e);
            logOut := logOut + [RetryFailedRecord(maxAttempts, e)];
            return;
          }
          logOut := logOut + [AttemptFailedRecord(attempt, e)];
          if delay < 0.0 {
            result := SleepRejected(delay);
            return;
          }
          sleeps := sleeps + [delay];
          delay := delay * backoffFactor;
          attempt := attempt + 1;
      }
    }
    result := NoneReturned;
  }

  /** From any state the loop can reach, running it to the end gives `RetrySpec`. */
  lemma {:induction false} LoopIsSpec<V>(maxAttempts: int, baseDelay: real, backoffFactor: real,
                                         script: nat -> CallOutcome<V>, log: seq<LogRecord>, calls: nat)
    requires calls == 0 || calls < maxAttempts
    requires forall j :: 0 <= j < calls ==> script(j).Raised?
    requires FirstNegativeDelay(calls, baseDelay, backoffFactor) == calls
    ensures RetryLoop(maxAttempts, backoffFactor, script, calls, Delay(baseDelay, backoffFactor, calls),
                      Delays(calls, baseDelay, backoffFactor), log + Warnings(calls, script))
         == RetrySpec(maxAttempts, baseDelay, backoffFactor, script, log)
    decreases maxAttempts - calls, 1
  {
    if calls >= maxAttempts || script(calls).Succeeded? {
      LoopStops(maxAttempts, baseDelay, backoffFactor, script, log, calls);
    } else if calls + 1 == maxAttempts || Delay(baseDelay, backoffFactor, calls) < 0.0 {
      LoopFails(maxAttempts, baseDelay, backoffFactor, script, log, calls);
    } else {
      LoopContinues(maxAttempts, baseDelay, backoffFactor, script, log, calls);
    }
  }

  /** The loop goes on after the failed call `calls`: the sleep returns and the next call follows. */
  lemma {:induction false} LoopContinues<V>(maxAttempts: int, baseDelay: real, backoffFactor: real,
                                            script: nat -> CallOutcome<V>, log: seq<LogRecord>, calls: nat)
    requires calls + 1 < maxAttempts
    requires forall j :: 0 <= j <= calls ==> script(j).Raised?
    requires FirstNegativeDelay(calls, baseDelay, backoffFactor) == calls
    requires Delay(baseDelay, backoffFactor, calls) >= 0.0
    ensures RetryLoop(maxAttempts, backoffFactor, script, calls, Delay(baseDelay, backoffFactor, calls),
                      Delays(calls, baseDelay, backoffFactor), log + Warnings(calls, script))
         == RetrySpec(maxAttempts, baseDelay, backoffFactor, script, log)
    decreases maxAttempts - calls, 0
  {
    NonNegativeStep(calls, baseDelay, backoffFactor);
    LoopStep(maxAttempts, baseDelay, backoffFactor, script, log, calls);
    LoopIsSpec(maxAttempts, baseDelay, backoffFactor, script, log, calls + 1);
  }

  /** The loop ends without failing at call `calls`: no attempt is allowed, or the call succeeds. */
  lemma LoopStops<V>(maxAttempts: int, baseDelay: real, backoffFactor: real,
                     script: nat -> CallOutcome<V>, log: seq<LogRecord>, calls: nat)
    requires calls == 0 || calls < maxAttempts
    requires forall j :: 0 <= j < calls ==> script(j).Raised?
    requires FirstNegativeDelay(calls, baseDelay, backoffFactor) == calls
    requires calls >= maxAttempts || script(calls).Succeeded?
    ensures RetryLoop(maxAttempts, backoffFactor, script, calls, Delay(baseDelay, backoffFactor, calls),
                      Delays(calls, baseDelay, backoffFactor), log + Warnings(calls, script))
         == RetrySpec(maxAttempts, baseDelay, backoffFactor, script, log)
  {
    if calls >= maxAttempts {
      SpecWithoutAttempts(maxAttempts, baseDelay, backoffFactor, script, log);
    } else {
      SpecOnSuccess(maxAttempts, baseDelay, backoffFactor, script, log, calls);
    }
  }

  /** The loop ends at the failed call `calls`: it was the last one, or its sleep raises. */
  lemma LoopFails<V>(maxAttempts: int, baseDelay: real, backoffFactor: real,
                     script: nat -> CallOutcome<V>, log: seq<LogRecord>, calls: nat)
    requires calls < maxAttempts
    requires forall j :: 0 <= j <= calls ==> script(j).Raised?
    requires FirstNegativeDelay(calls, baseDelay, backoffFactor) == calls
    requires calls + 1 == maxAttempts || Delay(baseDelay, backoffFactor, calls) < 0.0
    ensures RetryLoop(maxAttempts, backoffFactor, script, calls, Delay(baseDelay, backoffFactor, calls),
                      Delays(calls, baseDelay, backoffFactor), log + Warnings(calls, script))
         == RetrySpec(maxAttempts, baseDelay, backoffFactor, script, log)
  {
    if calls + 1 == maxAttempts {
      SpecOnExhaustion(maxAttempts, baseDelay, backoffFactor, script, log, calls);
    } else {
      SpecOnNegativeSleep(maxAttempts, baseDelay, backoffFactor, script, log, calls);
    }
  }

  /** A failed call with calls to spare and a non-negative delay: the loop logs, sleeps and goes on. */
  lemma LoopSleeps<V>(maxAttempts: int, backoffFactor: real, script: nat -> CallOutcome<V>,
                      calls: nat, delay: real, sleeps: seq<real>, log: seq<LogRecord>)
    requires calls + 1 < maxAttempts && script(calls).Raised? && delay >= 0.0
    ensures RetryLoop(maxAttempts, backoffFactor, script, calls, delay, sleeps, log)
         == RetryLoop(maxAttempts, backoffFactor, script, calls + 1, delay * backoffFactor, sleeps + [delay],
                      log + [AttemptFailedRecord(calls + 1, script(calls).error)])
  {
  }

  /** The same step, on the state the loop is in after `calls` failed calls. */
  lemma LoopStep<V>(maxAttempts: int, baseDelay: real, backoffFactor: real,
                    script: nat -> CallOutcome<V>, log: seq<LogRecord>, calls: nat)
    requires calls + 1 < maxAttempts
    requires forall j :: 0 <= j <= calls ==> script(j).Raised?
    requires Delay(baseDelay, backoffFactor, calls) >= 0.0
    ensures RetryLoop(maxAttempts, backoffFactor, script, calls, Delay(baseDelay, backoffFactor, calls),
                      Delays(calls, baseDelay, backoffFactor), log + Warnings(calls, script))
         == RetryLoop(maxAttempts, backoffFactor, script, calls + 1, Delay(baseDelay, backoffFactor, calls + 1),
                      Delays(calls + 1, baseDelay, backoffFactor), log + Warnings(calls + 1, script))
  {
    var record := AttemptFailedRecord(calls + 1, script(calls).error);
    LoopSleeps(maxAttempts, backoffFactor, script, calls, Delay(baseDelay, backoffFactor, calls),
               Delays(calls, baseDelay, backoffFactor), log + Warnings(calls, script));
    assert Delay(baseDelay, backoffFactor, calls + 1) == Delay(baseDelay, backoffFactor, calls) * backoffFactor;
    assert Delays(calls + 1, baseDelay, backoffFactor)
        == Delays(calls, baseDelay, backoffFactor) + [Delay(baseDelay, backoffFactor, calls)];
    assert log + Warnings(calls + 1, script) == log + Warnings(calls, script) + [record];
  }

  /** `k` failures, each followed by a completed sleep, then a success. */
  lemma SpecOnSuccess<V>(maxAttempts: int, baseDelay: real, backoffFactor: real,
                         script: nat -> CallOutcome<V>, log: seq<LogRecord>, k: nat)
    requires k < maxAttempts && script(k).Succeeded?
    requires forall j :: 0 <= j < k ==> script(j).Raised?
    requires FirstNegativeDelay(k, baseDelay, backoffFactor) == k
    ensures RetrySpec(maxAttempts, baseDelay, backoffFactor, script, log)
         == RetryRun(Returned(script(k).value), k + 1, Delays(k, baseDelay, backoffFactor), log + Warnings(k, script))
    ensures RetryLoop(maxAttempts, backoffFactor, script, k, Delay(baseDelay, backoffFactor, k),
                      Delays(k, baseDelay, backoffFactor), log + Warnings(k, script))
         == RetryRun(Returned(script(k).value), k + 1, Delays(k, baseDelay, backoffFactor), log + Warnings(k, script))
  {
    SucceedsAfterFailures(maxAttempts, script, k);
  }

  /** Every call fails and every sleep before the last call, call `k`, completes. */
  lemma SpecOnExhaustion<V>(maxAttempts: int, baseDelay: real, backoffFactor: real,
                            script: nat -> CallOutcome<V>, log: seq<LogRecord>, k: nat)
    requires k + 1 == maxAttempts
    requires forall j :: 0 <= j <= k ==> script(j).Raised?
    requires FirstNegativeDelay(k, baseDelay, backoffFactor) == k
    ensures RetrySpec(maxAttempts, baseDelay, backoffFactor, script, log)
         == RetryRun(Reraised(script(k).error), maxAttempts, Delays(k, baseDelay, backoffFactor),
                     log + Warnings(k, script) + [RetryFailedRecord(maxAttempts, script(k).error)])
    ensures RetryLoop(maxAttempts, backoffFactor, script, k, Delay(baseDelay, backoffFactor, k),
                      Delays(k, baseDelay, backoffFactor), log + Warnings(k, script))
         == RetryRun(Reraised(script(k).error), maxAttempts, Delays(k, baseDelay, backoffFactor),
                     log + Warnings(k, script) + [RetryFailedRecord(maxAttempts, script(k).error)])
  {
    AllAttemptsFail(maxAttempts, script);
  }

  /** Call `k` fails with calls to spare, and its delay is negative: the sleep raises. */
  lemma SpecOnNegativeSleep<V>(maxAttempts: int, baseDelay: real, backoffFactor: real,
                               script: nat -> CallOutcome<V>, log: seq<LogRecord>, k: nat)
    requires k + 1 < maxAttempts
    requires forall j :: 0 <= j <= k ==> script(j).Raised?
    requires FirstNegativeDelay(k, baseDelay, backoffFactor) == k
    requires Delay(baseDelay, backoffFactor, k) < 0.0
    ensures RetrySpec(maxAttempts, baseDelay, backoffFactor, script, log)
         == RetryRun(SleepRejected(Delay(baseDelay, backoffFactor, k)), k + 1, Delays(k, baseDelay, backoffFactor),
                     log + Warnings(k + 1, script))
    ensures RetryLoop(maxAttempts, backoffFactor, script, k, Delay(baseDelay, backoffFactor, k),
                      Delays(k, baseDelay, backoffFactor), log + Warnings(k, script))
         == RetryRun(SleepRejected(Delay(baseDelay, backoffFactor, k)), k + 1, Delays(k, baseDelay, backoffFactor),
                     log + Warnings(k + 1, script))
  {
    MoreCallsWanted(maxAttempts, script, k + 1);
    NegativeDelayAt(SleepsWanted(maxAttempts, script), k, baseDelay, backoffFactor);
    var e := script(k).error;
    assert log + Warnings(k + 1, script) == log + Warnings(k, script) + [AttemptFailedRecord(k + 1, e)];
  }

  /** No attempt allowed: no call, no sleep, no record, and `None`. */
  lemma SpecWithoutAttempts<V>(maxAttempts: int, baseDelay: real, backoffFactor: real,
                               script: nat -> CallOutcome<V>, log: seq<LogRecord>)
    requires maxAttempts <= 0
    ensures RetrySpec(maxAttempts, baseDelay, backoffFactor, script, log) == RetryRun(NoneReturned, 0, [], log)
    ensures RetryLoop(maxAttempts, backoffFactor, script, 0, Delay(baseDelay, backoffFactor, 0),
                      Delays(0, baseDelay, backoffFactor), log + Warnings(0, script))
         == RetryRun(NoneReturned, 0, [], log)
  {
    NoAttemptsAllowed(maxAttempts, script);
    assert log + Warnings(0, script) == log;
  }

  // ---------------------------------------------------------------------------
  // Properties
  // ---------------------------------------------------------------------------

  /** When calls `0..k-1` fail and call `k` succeeds, the first success is `k`. */
  lemma FirstSuccessAt<V>(k: nat, maxAttempts: int, script: nat -> CallOutcome<V>)
    requires k < maxAttempts
    requires forall j :: 0 <= j < k ==> script(j).Raised?
    requires script(k).Succeeded?
    ensures FirstSuccess(0, maxAttempts, script) == k
  {
  }

  /** When every allowed call fails, there is no success. */
  lemma AllRaised<V>(maxAttempts: int, script: nat -> CallOutcome<V>)
    requires maxAttempts > 0
    requires forall j :: 0 <= j < maxAttempts ==> script(j).Raised?
    ensures FirstSuccess(0, maxAttempts, script) == maxAttempts
  {
  }

  /** A first call that succeeds is the only call, its value is returned and nothing is slept. */
  lemma FirstCallSucceeds<V>(maxAttempts: int, script: nat -> CallOutcome<V>)
    requires maxAttempts >= 1 && script(0).Succeeded?
    ensures Calls(maxAttempts, script) == 1
    ensures Outcome(maxAttempts, script) == Returned(script(0).value)
  {
    FirstSuccessAt(0, maxAttempts, script);
  }

  /** `k` failures followed by a success, within the budget: `k + 1` calls, the success's value returned. */
  lemma SucceedsAfterFailures<V>(maxAttempts: int, script: nat -> CallOutcome<V>, k: nat)
    requires k < maxAttempts
    requires forall j :: 0 <= j < k ==> script(j).Raised?
    requires script(k).Succeeded?
    ensures Calls(maxAttempts, script) == k + 1
    ensures Outcome(maxAttempts, script) == Returned(script(k).value)
  {
    FirstSuccessAt(k, maxAttempts, script);
  }

  /** When every call fails, the operation is called `maxAttempts` times and the last error is re-raised unchanged. */
  lemma AllAttemptsFail<V>(maxAttempts: int, script: nat -> CallOutcome<V>)
    requires maxAttempts >= 1
    requires forall j :: 0 <= j < maxAttempts ==> script(j).Raised?
    ensures Calls(maxAttempts, script) == maxAttempts
    ensures Outcome(maxAttempts, script) == Reraised(script(maxAttempts - 1).error)
  {
    AllRaised(maxAttempts, script);
  }

  /** When the first `n` calls fail and the budget allows more, the wrapper wants at least `n` sleeps. */
  lemma MoreCallsWanted<V>(maxAttempts: int, script: nat -> CallOutcome<V>, n: nat)
    requires 0 < n < maxAttempts
    requires forall j :: 0 <= j < n ==> script(j).Raised?
    ensures SleepsWanted(maxAttempts, script) >= n
  {
  }

  /** With the first `n` delays non-negative, none of the first `n` sleeps raises. */
  lemma NoNegativeDelay(n: nat, baseDelay: real, backoffFactor: real)
    requires forall j :: 0 <= j < n ==> Delay(baseDelay, backoffFactor, j) >= 0.0
    ensures FirstNegativeDelay(n, baseDelay, backoffFactor) == n
  {
  }

  /** One more non-negative delay extends the run of non-negative delays. */
  lemma NonNegativeStep(n: nat, baseDelay: real, backoffFactor: real)
    requires FirstNegativeDelay(n, baseDelay, backoffFactor) == n
    requires Delay(baseDelay, backoffFactor, n) >= 0.0
    ensures FirstNegativeDelay(n + 1, baseDelay, backoffFactor) == n + 1
  {
  }

  /** The first negative delay is at `i` when the earlier ones are non-negative. */
  lemma NegativeDelayAt(n: nat, i: nat, baseDelay: real, backoffFactor: real)
    requires i < n && Delay(baseDelay, backoffFactor, i) < 0.0
    requires forall j :: 0 <= j < i ==> Delay(baseDelay, backoffFactor, j) >= 0.0
    ensures FirstNegativeDelay(n, baseDelay, backoffFactor) == i
  {
  }

  /** With no attempts allowed the operation is never called and the call returns `None`. */
  lemma NoAttemptsAllowed<V>(maxAttempts: int, script: nat -> CallOutcome<V>)
    requires maxAttempts <= 0
    ensures Calls(maxAttempts, script) == 0 && Outcome(maxAttempts, script) == NoneReturned
  {
  }

  /** The `i`-th sleep is `baseDelay * backoffFactor^i`; in particular the first is `baseDelay`. */
  lemma {:induction false} DelayClosedForm(baseDelay: real, backoffFactor: real, i: nat)
    ensures Delay(baseDelay, backoffFactor, i) == baseDelay * PowReal(backoffFactor, i)
  {
    if i > 0 {
      DelayClosedForm(baseDelay, backoffFactor, i - 1);
      var p := PowReal(backoffFactor, i - 1);
      assert (baseDelay * p) * backoffFactor == baseDelay * (p * backoffFactor);
    }
  }

  /** The whole sequence of sleeps in closed form. */
  lemma {:induction false} DelaysClosedForm(n: nat, baseDelay: real, backoffFactor: real)
    ensures forall i :: 0 <= i < n ==> Delays(n, baseDelay, backoffFactor)[i] == baseDelay * PowReal(backoffFactor, i)
  {
    DelaysElements(n, baseDelay, backoffFactor);
    forall i | 0 <= i < n
      ensures Delays(n, baseDelay, backoffFactor)[i] == baseDelay * PowReal(backoffFactor, i)
    {
      DelayClosedForm(baseDelay, backoffFactor, i);
    }
  }

  /** With a non-negative base delay and backoff factor, every delay is non-negative. */
  lemma {:induction false} NonNegativeDelays(baseDelay: real, backoffFactor: real, i: nat)
    requires baseDelay >= 0.0 && backoffFactor >= 0.0
    ensures Delay(baseDelay, backoffFactor, i) >= 0.0
  {
    if i > 0 {
      NonNegativeDelays(baseDelay, backoffFactor, i - 1);
      ProductOfNonNegatives(Delay(baseDelay, backoffFactor, i - 1), backoffFactor);
    }
  }

  lemma ProductOfNonNegatives(x: real, y: real)
    requires x >= 0.0 && y >= 0.0
    ensures x * y >= 0.0
  {
  }

  /**
   * With the defaults' signs (a non-negative base delay and factor) no sleep raises: the decorated
   * call makes `Calls` calls, ends with `Outcome`, and sleeps and warns once per failed non-final call.
   */
  lemma NoSleepRaises<V>(maxAttempts: int, baseDelay: real, backoffFactor: real,
                         script: nat -> CallOutcome<V>, log: seq<LogRecord>)
    requires baseDelay >= 0.0 && backoffFactor >= 0.0
    ensures var n := SleepsWanted(maxAttempts, script);
            var res := Outcome(maxAttempts, script);
            RetrySpec(maxAttempts, baseDelay, backoffFactor, script, log)
            == RetryRun(res, Calls(maxAttempts, script), Delays(n, baseDelay, backoffFactor),
                        log + Warnings(n, script) + (if res.Reraised? then [RetryFailedRecord(maxAttempts, res.error)] else []))
  {
    var n := SleepsWanted(maxAttempts, script);
    forall j | 0 <= j < n
      ensures Delay(baseDelay, backoffFactor, j) >= 0.0
    {
      NonNegativeDelays(baseDelay, backoffFactor, j);
    }
    NoNegativeDelay(n, baseDelay, backoffFactor);
  }

  /**
   * A negative base delay: when the first of at least two allowed calls fails, its warning is
   * logged and `time.sleep` raises; the operation was called once and nothing was slept.
   */
  lemma NegativeBaseDelayStops<V>(maxAttempts: int, baseDelay: real, backoffFactor: real,
                                  script: nat -> CallOutcome<V>, log: seq<LogRecord>)
    requires maxAttempts >= 2 && baseDelay < 0.0 && script(0).Raised?
    ensures RetrySpec(maxAttempts, baseDelay, backoffFactor, script, log)
         == RetryRun(SleepRejected(baseDelay), 1, [], log + [AttemptFailedRecord(1, script(0).error)])
  {
    SpecOnNegativeSleep(maxAttempts, baseDelay, backoffFactor, script, log, 0);
    assert Warnings(1, script) == [AttemptFailedRecord(1, script(0).error)];
  }

  /**
   * A positive base delay and a negative factor: the first sleep completes, and when the second of
   * at least three allowed calls fails, the sleep for `baseDelay * backoffFactor` raises.
   */
  lemma NegativeFactorStops<V>(maxAttempts: int, baseDelay: real, backoffFactor: real,
                               script: nat -> CallOutcome<V>, log: seq<LogRecord>)
    requires maxAttempts >= 3 && baseDelay > 0.0 && backoffFactor < 0.0
    requires script(0).Raised? && script(1).Raised?
    ensures RetrySpec(maxAttempts, baseDelay, backoffFactor, script, log)
         == RetryRun(SleepRejected(baseDelay * backoffFactor), 2, [baseDelay], log + Warnings(2, script))
  {
    assert Delay(baseDelay, backoffFactor, 1) == baseDelay * backoffFactor < 0.0;
    NoNegativeDelay(1, baseDelay, backoffFactor);
    SpecOnNegativeSleep(maxAttempts, baseDelay, backoffFactor, script, log, 1);
    assert Delays(1, baseDelay, backoffFactor) == [baseDelay];
  }

  /** Every error is retried: whatever its class, a failed non-final attempt is followed by another call. */
  lemma EveryErrorIsRetried<V>(maxAttempts: int, script: nat -> CallOutcome<V>, e: Exc)
    requires maxAttempts >= 2 && script(0) == Raised(e)
    ensures Calls(maxAttempts, script) >= 2
  {
  }

  // ---------------------------------------------------------------------------
  // The retry log helpers
  // ---------------------------------------------------------------------------

  /** `log_retry_attempt`: one warning of medium severity. */
  function LogRetryAttempt(log: seq<LogRecord>, attempt: int, maxAttempts: int, error: Exc): (r: seq<LogRecord>)
    ensures |r| == |log| + 1 && log <= r
    ensures r[|log|].level == Warning
    ensures r[|log|].extra.Keys == {"attempt", "max_attempts", "error_type", "error_message", "alert_severity"}
    ensures "alert_severity" in r[|log|].extra && r[|log|].extra["alert_severity"] == PyStr(SeverityName(Medium))
    ensures "attempt" in r[|log|].extra && r[|log|].extra["attempt"] == PyInt(attempt)
    ensures "error_message" in r[|log|].extra && r[|log|].extra["error_message"] == PyStr(error.message)
  {
    log + [LogRecord(Warning, "Transient error on attempt " + IntToDecimal(attempt),
                     map["attempt" := PyInt(attempt), "max_attempts" := PyInt(maxAttempts),
                         "error_type" := PyStr(ClassName(error.kind)),
                         "error_message" := PyStr(error.message),
                         "alert_severity" := PyStr(SeverityName(Medium))])]
  }

  /** `log_retry_exhausted`: one error of high severity. */
  function LogRetryExhausted(log: seq<LogRecord>, maxAttempts: int, finalError: Exc): (r: seq<LogRecord>)
    ensures |r| == |log| + 1 && log <= r
    ensures r[|log|].level == Error
    ensures r[|log|].extra.Keys == {"max_attempts", "final_error_type", "final_error_message", "alert_severity"}
    ensures "alert_severity" in r[|log|].extra && r[|log|].extra["alert_severity"] == PyStr(SeverityName(High))
    ensures "final_error_message" in r[|log|].extra && r[|log|].extra["final_error_message"] == PyStr(finalError.message)
  {
    log + [LogRecord(Error, "All " + IntToDecimal(maxAttempts) + " retry attempts failed",
                     map["max_attempts" := PyInt(maxAttempts),
                         "final_error_type" := PyStr(ClassName(finalError.kind)),
                         "final_error_message" := PyStr(finalError.message),
                         "alert_severity" := PyStr(SeverityName(High))])]
  }
}

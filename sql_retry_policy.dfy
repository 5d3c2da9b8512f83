/**
  `SqlRetryPolicy`: which exceptions count as transient SQL Server faults, and
  the bounded retry loop that re-runs an operation after one of them.

  The retry loop is the one a `WaitAndRetry` policy runs with this file's
  parameters: at most three retries, the n-th one after a wait of 5·n ms, and
  only while the exception satisfies the predicate. Waiting is not modelled:
  the loop reports the wait it would make before each retry.
*/
module SqlRetryPolicy {

  datatype Option<T> = None | Some(value: T)

  /** An exception: `number` is `Some` exactly for a `SqlException`, holding
      its `Number`; `inner` is its `InnerException`. */
  datatype Exception = Exception(number: Option<int>, inner: Option<Exception>)

  const DefaultMaxNumberOfRetries := 3
  const DefaultDelayBetweenRetiresInMs := 5

  /** SQL Server error numbers worth a retry: broken connection, timeout,
      server unreachable (2, 35, 40, 53), lock and deadlock conditions
      (1203-1222), sort run and extent contention (1532-1535), database
      unavailable, failing over or busy (4060, 40197, 40501, 40613). */
  const DefaultRetryableSqlErrorCodes: seq<int> :=
    [-1, -2, 2, 35, 40, 53, 1203, 1204, 1205, 1221, 1222,
     1532, 1533, 1534, 1535, 4060, 40197, 40501, 40613]

  /** The allow-list holds 19 codes, none of them twice. */
  lemma AllowListHasNineteenDistinctCodes()
    ensures |DefaultRetryableSqlErrorCodes| == 19
    ensures forall i, j :: 0 <= i < j < |DefaultRetryableSqlErrorCodes| ==>
              DefaultRetryableSqlErrorCodes[i] != DefaultRetryableSqlErrorCodes[j]
  {
  }

  /** `ex` is itself a `SqlException` whose number is listed. */
  predicate Matches(ex: Exception, codes: seq<int>)
  {
    ex.number.Some? && ex.number.value in codes
  }

  /** `ex` followed by its chain of inner exceptions. */
  function Chain(ex: Exception): (c: seq<Exception>)
    ensures |c| >= 1 && c[0] == ex
    decreases ex
  {
    if ex.inner.Some? then [ex] + Chain(ex.inner.value) else [ex]
  }

  /** `IsRetryable`: a listed `SqlException` is retryable whatever it wraps;
      an exception with no inner exception is retryable only if it is one.
      What it means for a whole chain is `RetryableIffSomeInChainMatches`. */
  function IsRetryable(ex: Exception, codes: seq<int>): (r: bool)
    ensures Matches(ex, codes) ==> r
    ensures ex.inner.None? ==> (r <==> Matches(ex, codes))
    decreases ex
  {
    if Matches(ex, codes) then true
    else if ex.inner.Some? then IsRetryable(ex.inner.value, codes)
    else false
  }

  /** An exception is retryable exactly when some exception in its chain is a
      listed `SqlException`. */
  lemma {:induction false} RetryableIffSomeInChainMatches(ex: Exception, codes: seq<int>)
    ensures IsRetryable(ex, codes) <==> exists e :: e in Chain(ex) && Matches(e, codes)
    decreases ex
  {
    if ex.inner.Some? {
      RetryableIffSomeInChainMatches(ex.inner.value, codes);
      assert Chain(ex) == [ex] + Chain(ex.inner.value);
      if IsRetryable(ex, codes) && !Matches(ex, codes) {
        var e :| e in Chain(ex.inner.value) && Matches(e, codes);
        assert e in Chain(ex);
      }
    }
  }

  /** A `SqlException` with an unlisted number is not retryable on its own
      account, yet a listed exception inside it still makes it retryable. */
  lemma UnlistedSqlExceptionDefersToInner(n: int, innerNumber: int)
    requires n !in DefaultRetryableSqlErrorCodes && innerNumber in DefaultRetryableSqlErrorCodes
    ensures !ExceptionPredicate(Exception(Some(n), None))
    ensures ExceptionPredicate(Exception(Some(n), Some(Exception(Some(innerNumber), None))))
    ensures !ExceptionPredicate(Exception(None, Some(Exception(Some(n), None))))
  {
  }

  /** `ExceptionPredicate`: the allow-list applied to `IsRetryable`. */
  function ExceptionPredicate(ex: Exception): (r: bool)
    ensures ex.inner.None? ==> (r <==> ex.number.Some? && ex.number.value in DefaultRetryableSqlErrorCodes)
    ensures ex.inner.Some? && !r ==> !ExceptionPredicate(ex.inner.value)
  {
    IsRetryable(ex, DefaultRetryableSqlErrorCodes)
  }

  /** `DefaultSleepDurationProvider`: the wait, in milliseconds, before retry
      number `retryAttempt` (counted from 1). */
  function DefaultSleepDurationProvider(retryAttempt: int): (ms: int)
    ensures retryAttempt >= 1 ==> ms >= DefaultDelayBetweenRetiresInMs
    ensures ms % DefaultDelayBetweenRetiresInMs == 0
  {
    DefaultDelayBetweenRetiresInMs * retryAttempt
  }

  /** The waits grow linearly, so each one is longer than the one before. */
  lemma SleepDurationsIncrease(a: int, b: int)
    requires 1 <= a < b
    ensures 0 < DefaultSleepDurationProvider(a) < DefaultSleepDurationProvider(b)
    ensures DefaultSleepDurationProvider(b) - DefaultSleepDurationProvider(a) == 5 * (b - a)
  {
  }

  /** What one invocation of the operation does. */
  datatype Attempt<T> = Returned(value: T) | Raised(error: Exception)

  /** The retry handler's event: the exception that caused the retry and the
      wait before it. */
  datatype RetryEvent = RetryEvent(error: Exception, waitMs: int)

  /** `Execute`: invoke `operation` (its outcome on invocation `i`, counted
      from 0, is `operation(i)`) until it returns, raises an exception the
      predicate rejects, or has been retried `DefaultMaxNumberOfRetries`
      times; the last outcome is the result. */
  method Execute<T>(operation: nat -> Attempt<T>) returns (result: Attempt<T>, retries: seq<RetryEvent>)
    ensures |retries| <= DefaultMaxNumberOfRetries
    ensures result == operation(|retries|)
    ensures forall i :: 0 <= i < |retries| ==>
              && operation(i).Raised? && ExceptionPredicate(operation(i).error)
              && retries[i] == RetryEvent(operation(i).error, DefaultSleepDurationProvider(i + 1))
    ensures result.Raised? ==> !ExceptionPredicate(result.error) || |retries| == DefaultMaxNumberOfRetries
  {
    retries := [];
    result := operation(0);
    while result.Raised? && ExceptionPredicate(result.error) && |retries| < DefaultMaxNumberOfRetries
      invariant |retries| <= DefaultMaxNumberOfRetries
      invariant result == operation(|retries|)
      invariant forall i :: 0 <= i < |retries| ==>
                  && operation(i).Raised? && ExceptionPredicate(operation(i).error)
                  && retries[i] == RetryEvent(operation(i).error, DefaultSleepDurationProvider(i + 1))
      decreases DefaultMaxNumberOfRetries - |retries|
    {
      // onRetry(ex, wait), then the wait itself
      var wait := DefaultSleepDurationProvider(|retries| + 1);
      retries := retries + [RetryEvent(result.error, wait)];
      result := operation(|retries|);
    }
  }

  /** An operation that raises a retryable exception on its first `k < 3`
      invocations and then returns `v` yields `v` after exactly `k` retries. */
  method TransientFailuresThenSuccess<T>(k: nat, ex: Exception, v: T)
      returns (result: Attempt<T>, retries: seq<RetryEvent>)
    requires k < DefaultMaxNumberOfRetries && ExceptionPredicate(ex)
    ensures result == Returned(v) && |retries| == k
    ensures forall i :: 0 <= i < k ==> retries[i].waitMs == 5 * (i + 1)
  {
    var operation := (i: nat) => if i < k then Raised(ex) else Returned(v);
    assert forall i: nat :: i < k ==> operation(i) == Raised(ex);
    assert operation(k) == Returned(v);
    result, retries := Execute(operation);
  }

  /** An operation that always raises a retryable exception is invoked four
      times: it raises that exception after exactly three retries. */
  method AlwaysTransient<T>(ex: Exception) returns (result: Attempt<T>, retries: seq<RetryEvent>)
    requires ExceptionPredicate(ex)
    ensures result == Raised(ex) && |retries| == 3
    ensures retries == [RetryEvent(ex, 5), RetryEvent(ex, 10), RetryEvent(ex, 15)]
  {
    var operation := (i: nat) => Raised(ex);
    result, retries := Execute(operation);
    assert operation(|retries|) == Raised(ex);
  }

  /** An operation that raises an exception the predicate rejects is invoked
      once: it raises that exception with no retry event. */
  method NonRetryableFailure<T>(ex: Exception, later: nat -> Attempt<T>)
      returns (result: Attempt<T>, retries: seq<RetryEvent>)
    requires !ExceptionPredicate(ex)
    ensures result == Raised(ex) && retries == []
  {
    var operation := (i: nat) => if i == 0 then Raised(ex) else later(i);
    assert operation(0) == Raised(ex);
    result, retries := Execute(operation);
  }

  /** A first invocation that returns is the result, with no retry. */
  method ImmediateSuccess<T>(v: T, later: nat -> Attempt<T>)
      returns (result: Attempt<T>, retries: seq<RetryEvent>)
    ensures result == Returned(v) && retries == []
  {
    var operation := (i: nat) => if i == 0 then Returned(v) else later(i);
    assert operation(0) == Returned(v);
    result, retries := Execute(operation);
  }
}

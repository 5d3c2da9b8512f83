# Unit of work with emulated nested transactions: a verified model

This project models the core of a small C# data-access library built around a
unit of work. It has three parts.

- `DbUnitOfWork` emulates nested transactions on SQL Server.
  - A depth counter tracks how deeply `Begin` calls are nested.
  - Only the outermost `Begin` opens the lazily created connection (if it is closed) and starts a real transaction.
  - Inner `Begin`/`Commit` calls only move the counter.
  - The outermost `Commit` commits for real and releases the transaction and the connection.
  - A `Rollback` at any depth aborts the whole stack.
  - A failed real commit is rolled back and rethrown.
  - Failures of the rollback, of disposing the transaction and of closing the connection are swallowed.
- `SqlRetryPolicy` decides which exceptions are transient SQL Server faults and retries an operation after them.
  - An exception is retryable when it, or some exception in its chain of inner exceptions, is a `SqlException` whose number is on a fixed allow-list of 19 codes.
  - The policy retries at most three times and waits 5·n ms before the n-th retry.
- `UnitOfWorkTransaction` is a scope guard for a `using` block.
  - Creating it calls `Begin`.
  - `Commit` forwards to the unit of work and marks the guard committed.
  - Disposing it rolls back unless it was committed, and only the first disposal has an effect.

## Files

- `uow_spec.dfy` (`UowSpec`) describes the unit of work as a pure state machine.
  - `UowState` holds the depth, whether a transaction handle is held, whether the owned connection exists, and whether it is open.
  - One step function per operation returns the new state, an `Outcome` (completed, or threw at which driver call) and a `Tally`. The tally counts the calls made into the connection provider and the database driver.
  - Which driver calls throw is an input (`Faults`).
  - `Run` applies a sequence of requests. The lemmas about runs prove the counting properties: N nested begins and commits give one real transaction, a rollback ends the whole stack, and so on.
- `uow_data.dfy` (`UowData`) has the class `DbUnitOfWork`.
  - Its fields are `depth`, `txActive`, `connCreated`, `connOpen` and a ghost `log` holding one tally per public call. The log is bookkeeping for the proofs, not state of the C# class.
  - Each method is proved to change the fields exactly as the matching step function says.
- `sql_retry_policy.dfy` (`SqlRetryPolicy`) has three parts:
  - the pure classifier over an `Exception` datatype, which has an optional SQL error number and an optional inner exception;
  - the backoff function;
  - the retry loop `Execute`, as a method with a loop.
- `unit_of_work_transaction.dfy` (`UowDomain`) has the class `UnitOfWorkTransaction`, which holds a reference to a `DbUnitOfWork`.
- `scenarios.dfy` (`UowScenarios`) has the call sequences of the demo `RandomUserUpdater`, run on the two classes. Their postconditions give the exact new state and the exact calls logged.

The counters of real begins, commits and rollbacks are the ghost `log` field of the class. Each entry counts the calls of one public call, and `UowSpec.Count` sums one kind of call over a log.

The code means a rollback to end the whole stack of nested scopes: it sets `_transCount = 0` after a real commit (Uow.Data/Core/DbUnitOfWork.cs:75) and after a real rollback (Uow.Data/Core/DbUnitOfWork.cs:99), and the message at Uow.Data/Core/DbUnitOfWork.cs:61 speaks of a previous (inner) rollback that prevents further commits. The model follows the code as written, which falls short of that intent in one case. The reset at line 99 is skipped when `Transaction.Rollback()` throws at line 98, while the `finally` at lines 108-111 still drops the transaction. So the invariant "a transaction is held if and only if depth > 0" (`UowSpec.Consistent`) is proved only for runs in which no real rollback fails. The weaker invariant `UowSpec.Valid` holds for every run: depth ≥ 0, and a held transaction implies depth ≥ 1 and an open connection. `UowSpec.StaleDepthAfterFailedRollback` shows what happens after a failed rollback.

## Model

| member | source | states |
|---|---|---|
| UowSpec.OwnedConnection | Uow.Data/Core/DbUnitOfWork.cs:19-20 | the owned connection is asked from the provider only if it does not exist yet; nothing else changes |
| UowSpec.ConnectionStep | Uow.Data/Core/DbUnitOfWork.cs:20 | `Connection` is the transaction's connection while a transaction is held, with no call made; otherwise it is the owned connection, created on first use only |
| UowSpec.Release | Uow.Data/Core/DbUnitOfWork.cs:114-141 | releasing drops the transaction handle whether or not its dispose fails, disposes it once if one was held, tries to close the connection once, and leaves the connection open only if the close failed; depth unchanged, never throws |
| UowSpec.BeginStep | Uow.Data/Core/DbUnitOfWork.cs:27-53 | nested: only depth + 1, no call; outermost: opens the connection only if closed, starts exactly one real transaction, depth + 1; a failed open or begin leaves no transaction, tries to close, and is rethrown; it completes exactly when nested or neither failure happens; keeps `Valid` and `Consistent` |
| UowSpec.RollbackStep | Uow.Data/Core/DbUnitOfWork.cs:86-112 | with a transaction: exactly one real rollback, depth reset to 0 only if it succeeded; with or without one, resources are released afterwards, so the transaction is dropped and the connection closed unless its close fails; no transaction means no real rollback and an unchanged depth; never throws; keeps `Valid`, and `Consistent` unless the real rollback fails |
| UowSpec.CommitStep | Uow.Data/Core/DbUnitOfWork.cs:55-84 | no transaction: a no-op; inner: only depth − 1; outermost: exactly one real commit, then release with depth 0, or on failure a rollback and the commit's exception rethrown; keeps `Valid` and `Consistent` |
| UowSpec.Apply | Uow.Data/Core/DbUnitOfWork.cs:20-112 | every public operation keeps `Valid`, leaves the owned connection created, and creates it exactly when it did not exist; `Consistent` is kept unless a real rollback fails |
| UowSpec.RunKeepsValid | Uow.Data/Core/DbUnitOfWork.cs:27-141 | any sequence of operations, with any failures, keeps depth ≥ 0 and "transaction held ⇒ depth ≥ 1 and connection open" |
| UowSpec.RunKeepsConsistent | Uow.Data/Core/DbUnitOfWork.cs:96-111 | a sequence in which no real rollback fails keeps "transaction held ⇔ depth > 0" |
| UowSpec.ConnectionCreatedOnce | Uow.Data/Core/DbUnitOfWork.cs:19-20 | over any non-empty sequence of operations the connection provider is called exactly once if the connection did not exist, never otherwise |
| UowSpec.NestedBegins | Uow.Data/Core/DbUnitOfWork.cs:29-36 | k `Begin`s inside a transaction raise the depth by k and make no call |
| UowSpec.InnerCommits | Uow.Data/Core/DbUnitOfWork.cs:65-70 | k `Commit`s above depth k lower the depth by k and make no call |
| UowSpec.NestedBeginsThenCommits | Uow.Data/Core/DbUnitOfWork.cs:27-84 | from idle, N ≥ 1 `Begin`s then N `Commit`s make exactly one real begin, one real commit, no rollback, one open (none if already open) and one close; all complete and the unit of work ends idle |
| UowSpec.NestedBeginsThenRollback | Uow.Data/Core/DbUnitOfWork.cs:86-112 | from idle, N ≥ 1 `Begin`s, a `Rollback` and a `Commit` make one real begin, one real rollback and no real commit; the stack ends at depth 0 with no transaction |
| UowSpec.StaleDepthAfterFailedRollback | Uow.Data/Core/DbUnitOfWork.cs:96-111 | after two `Begin`s and a `Rollback` whose real rollback throws, the depth stays 2 with no transaction; the next `Begin`/`Commit` pair starts a real transaction, never commits it, and leaves it open |
| UowSpec.SiblingScopes | Uow.Data/Core/DbUnitOfWork.cs:38-77 | two top-level `Begin`/`Commit` scopes in a row each open, begin, commit, dispose and close once; the second reuses the connection object and ends in the same idle state |
| UowData.DbUnitOfWork.constructor | Uow.Data/Core/DbUnitOfWork.cs:13-22 | a new unit of work has depth 0, no transaction and no connection |
| UowData.DbUnitOfWork.InTransaction | Uow.Data/Core/DbUnitOfWork.cs:24 | `InTransaction` is whether a transaction is held; it implies depth > 0, and equals depth > 0 while `Consistent` holds |
| UowData.DbUnitOfWork.OwnConnection | Uow.Data/Core/DbUnitOfWork.cs:19-20 | the fields change exactly as `OwnedConnection` says |
| UowData.DbUnitOfWork.Connection | Uow.Data/Core/DbUnitOfWork.cs:20 | the fields, the connection returned and the logged calls are those of `ConnectionStep` |
| UowData.DbUnitOfWork.ReleaseResources | Uow.Data/Core/DbUnitOfWork.cs:114-141 | the fields and the calls returned are those of `Release` |
| UowData.DbUnitOfWork.Begin | Uow.Data/Core/DbUnitOfWork.cs:27-53 | the fields, the outcome and the logged calls are those of `BeginStep` |
| UowData.DbUnitOfWork.RollbackCore | Uow.Data/Core/DbUnitOfWork.cs:88-111 | the fields and the calls returned are those of `RollbackStep`, including the release in the `finally` when there is no transaction |
| UowData.DbUnitOfWork.Rollback | Uow.Data/Core/DbUnitOfWork.cs:86-112 | the fields and the logged calls are those of `RollbackStep`; no outcome, since it never throws |
| UowData.DbUnitOfWork.Commit | Uow.Data/Core/DbUnitOfWork.cs:55-84 | the fields, the outcome and the logged calls are those of `CommitStep` |
| SqlRetryPolicy.IsRetryable | Uow.Data/Core/SqlRetryPolicy.cs:97-110 | a listed `SqlException` is retryable whatever it wraps, and an exception with no inner exception is retryable only if it is one; its meaning over the whole chain is `RetryableIffSomeInChainMatches` |
| SqlRetryPolicy.ExceptionPredicate | Uow.Data/Core/SqlRetryPolicy.cs:80-83 | with the 19-code allow-list: an exception with no inner exception is accepted exactly when it is a `SqlException` with a listed number, and an exception that is rejected also has a rejected inner exception |
| SqlRetryPolicy.DefaultSleepDurationProvider | Uow.Data/Core/SqlRetryPolicy.cs:91-94 | every wait is a whole multiple of the 5 ms base delay, and at least 5 ms from the first retry on; that the waits grow is `SleepDurationsIncrease` |
| SqlRetryPolicy.AllowListHasNineteenDistinctCodes | Uow.Data/Core/SqlRetryPolicy.cs:21-42 | the allow-list holds 19 codes, none repeated |
| SqlRetryPolicy.RetryableIffSomeInChainMatches | Uow.Data/Core/SqlRetryPolicy.cs:97-110 | `IsRetryable(ex)` holds exactly when `ex` or an exception in its inner-exception chain is a `SqlException` with a listed number |
| SqlRetryPolicy.UnlistedSqlExceptionDefersToInner | Uow.Data/Core/SqlRetryPolicy.cs:80-107 | a `SqlException` with an unlisted number is not retryable alone, is retryable when its inner exception is a listed one, and does not make an outer exception retryable |
| SqlRetryPolicy.SleepDurationsIncrease | Uow.Data/Core/SqlRetryPolicy.cs:91-94 | the wait before retry n is positive and grows by 5 ms per retry, so later waits are strictly longer |
| SqlRetryPolicy.Execute | Uow.Data/Core/SqlRetryPolicy.cs:44-69 | at most 3 retries (4 invocations); the result is the last invocation's outcome, returned unchanged; each retry follows a failure the predicate accepts and waits 5·(i+1) ms; a final failure is one the predicate rejects or the one after the third retry |
| SqlRetryPolicy.TransientFailuresThenSuccess | Uow.Data/Core/SqlRetryPolicy.cs:64-69 | k < 3 retryable failures followed by a success give the success after exactly k retries, waiting 5, 10, … ms |
| SqlRetryPolicy.AlwaysTransient | Uow.Data/Core/SqlRetryPolicy.cs:64-69 | an operation that always fails retryably raises its exception after exactly three retries, waiting 5, 10 and 15 ms |
| SqlRetryPolicy.NonRetryableFailure | Uow.Data/Core/SqlRetryPolicy.cs:65 | a failure the predicate rejects is rethrown after one invocation, with no retry event |
| SqlRetryPolicy.ImmediateSuccess | Uow.Data/Core/SqlRetryPolicy.cs:49-52 | a first invocation that returns is the result, with no retry |
| UowDomain.UnitOfWorkTransaction.Holding | Uow.Domain/Core/UnitOfWorkTransaction.cs:12-28 | the guard holds its unit of work and starts uncommitted and not disposed |
| UowDomain.UnitOfWorkTransaction.New | Uow.Domain/Core/UnitOfWorkTransaction.cs:15-19 | construction calls `Begin` exactly once; the caller gets a fresh guard exactly when `Begin` returns |
| UowDomain.UnitOfWorkTransaction.Commit | Uow.Domain/Core/UnitOfWorkTransaction.cs:21-25 | forwards one `Commit` to the unit of work; `committed` becomes set exactly when that call returns |
| UowDomain.UnitOfWorkTransaction.DisposeCore | Uow.Domain/Core/UnitOfWorkTransaction.cs:30-42 | calls `Rollback` exactly when this is the first disposal, `disposing` is set and the guard is uncommitted; otherwise the unit of work is untouched; afterwards the guard is disposed |
| UowDomain.UnitOfWorkTransaction.Dispose | Uow.Domain/Core/UnitOfWorkTransaction.cs:44-47 | rolls back exactly when not yet disposed and not committed; a committed or already disposed guard makes no call |
| UowScenarios.MessUpSomeUser | Uow.Domain/UserManagement/RandomUserUpdater.cs:19-35 | its statements run on the transaction's connection; inside a transaction it leaves the unit of work exactly as it found it with no driver call; from idle it makes one real begin and one real commit and ends idle |
| UowScenarios.NestedTransCommitOnBoth | Uow.Domain/UserManagement/RandomUserUpdater.cs:38-52 | one real begin, then only counting calls, then one real commit at the outer `Commit`; ends idle |
| UowScenarios.NestedTransRollbackOuter | Uow.Domain/UserManagement/RandomUserUpdater.cs:54-70 | the committed inner scope makes no call; disposing the uncommitted outer guard makes the one real rollback; ends idle |
| UowScenarios.UpdateWithRollback | Uow.Domain/UserManagement/RandomUserUpdater.cs:88-98 | an uncommitted inner scope's disposal rolls back the whole stack: depth 0, no transaction |
| UowScenarios.NestedTransRollbackInner | Uow.Domain/UserManagement/RandomUserUpdater.cs:72-86 | after the inner rollback the outer `Commit` completes without a real commit, and the outer disposal makes no call; one real begin and one real rollback in all |
| UowScenarios.CommitFailureInsideScope | Uow.Domain/Core/UnitOfWorkTransaction.cs:21-42 | a failing real commit inside a guard is rolled back and rethrown; the guard stays uncommitted, and its disposal calls `Rollback`, which finds no transaction, makes no real rollback and only closes the connection once more |
| UowScenarios.DisposeTwice | Uow.Domain/Core/UnitOfWorkTransaction.cs:30-42 | a second disposal of an uncommitted guard changes nothing: one real rollback in all |

## Left out

- Logging: the `_logger` calls and the retry warning are side effects with no functional contract. The one effect kept is that the debug messages on the no-transaction paths of `Commit` and `Rollback` read `Connection`, and so create the connection lazily. On the `Rollback` path the release in its `finally` runs as well.
- `_transCount` is a 32-bit `int` whose `++` could wrap around after 2^31 − 1 nested `Begin`s. `depth` is an unbounded integer, so the model does not capture that wrap-around, which no real nesting reaches.
- The connection factory and the settings (`DbBase`, `SampleDbSettings`) are modelled only as "returns a fresh closed connection". The real `SqlConnection`, `IDbTransaction` and `SqlException` are replaced by abstract state and injected failure flags.
- The order of driver calls inside one operation: a `Tally` counts the calls of each kind, not their order.
- `DbUnitOfWork.Connection` yields `FromTransaction` or `Owned`, not a connection object. The transaction's connection is taken to be the owned one, as it is when this class starts the transaction.
- A `Dispose` failure of the transaction is an input (`Faults.dispose`) that has no effect on the state. The code swallows it and drops the handle anyway.
- `ExecuteAsync`, `RetryAsync` and all `Task` machinery: they use the same predicate, retry count and sleep provider as `Execute`, so they behave as the model of `Execute`.
- The `Execute(Action)` overload is the model of `Execute` with a result that carries no value.
- The waiting itself, Polly's internals and the `Context.CorrelationId` of the retry handler. Each retry is reported with its exception and its wait in milliseconds only.
- SqlRetryPolicy.Execute: the operation is modelled as a function from the invocation number to that invocation's outcome. So an operation that depends on hidden state is captured only through the outcomes it produces.
- The finalizer path `Dispose(false)` is modelled by `DisposeCore`, but nothing in this library calls it.
- Uow.Data/Core/DbUnitOfWorkExtensions.cs is not part of this model. It contains one-line forwarders into Dapper through `SqlRetryPolicy.Execute`, which pass `uow.Transaction` and never retry `Begin`, `Commit` or `Rollback`.
- What the repository statements do to rows (Uow.Data/Repositories/UserRepository.cs) is not modelled. In the scenarios each statement is one `Connection` call.
- Dependency-injection wiring (Uow.Composition/CompositionRoot.cs) and bootstrapping (Uow.Main/Program.cs) are not modelled.
- Concurrency: one unit of work is used by one logical flow at a time, and the model is sequential.

/**
  The call sequences of the demo `RandomUserUpdater`, run against the models
  of `DbUnitOfWork` and `UnitOfWorkTransaction` with no injected failure
  (except where a scenario says otherwise).

  Each repository statement reaches the database through `uow.Connection`, so
  it is modelled as one `Connection` call; what the statement does to the
  rows is not modelled. Each call appends one tally to `uow.log`, so the
  postconditions below list exactly which driver calls every step made.
*/
module UowScenarios {
  import opened UowSpec
  import opened UowData
  import opened UowDomain

  /** The unit of work between two scopes: connection made, no transaction. */
  const Idle := UowState(0, false, true, false)

  /** The real commit of an outermost `Commit`, with its release. */
  const CommitCalls := Tally(0, 0, 0, 1, 0, 1, 1)

  /** The real rollback of a `Rollback` at any depth, with its release. */
  const RollbackCalls := Tally(0, 0, 0, 0, 1, 1, 1)

  /** The calls of an outermost `Begin` from state `s`. */
  function OuterBeginCalls(s: UowState): Tally
  {
    Tally(if s.connCreated then 0 else 1, if s.connOpen then 0 else 1, 1, 0, 0, 0, 0)
  }

  /** `MessUpSomeUser`: a guarded scope that reads, upserts and commits. Inside
      an open transaction it only moves the depth counter and leaves the unit
      of work as it found it; from idle it makes one real transaction. */
  method MessUpSomeUser(uow: DbUnitOfWork) returns (sources: seq<ConnSource>)
    requires Consistent(uow.State())
    modifies uow
    ensures sources == [FromTransaction, FromTransaction]
    ensures old(uow.txActive) ==>
              uow.State() == old(uow.State()) && uow.log == old(uow.log) + Repeat(NoCalls, 4)
    ensures !old(uow.txActive) ==>
              && uow.State() == Idle
              && uow.log == old(uow.log) + [OuterBeginCalls(old(uow.State())), NoCalls, NoCalls, CommitCalls]
  {
    var began, uowTrans := UnitOfWorkTransaction.New(uow, NoFaults);
    assert uowTrans != null;
    var read := uow.Connection();
    var upsert := uow.Connection();
    sources := [read, upsert];
    var committed := uowTrans.Commit(NoFaults);
    uowTrans.Dispose(NoFaults);
  }

  /** `NestedTransCommitOnBoth`: the inner scope's commit is absorbed by the
      outer transaction; one real begin and one real commit in all. */
  method NestedTransCommitOnBoth(uow: DbUnitOfWork) returns (source: ConnSource)
    requires Consistent(uow.State()) && !uow.txActive
    modifies uow
    ensures source == FromTransaction
    ensures uow.State() == Idle
    ensures uow.log == old(uow.log) + [OuterBeginCalls(old(uow.State()))] + Repeat(NoCalls, 5) + [CommitCalls]
  {
    var began, uowTrans := UnitOfWorkTransaction.New(uow, NoFaults);
    assert uowTrans != null;
    source := uow.Connection();
    var inner := MessUpSomeUser(uow);
    var committed := uowTrans.Commit(NoFaults);
    uowTrans.Dispose(NoFaults);
  }

  /** `NestedTransRollbackOuter`: the outer scope ends without `Commit`, so its
      disposal rolls back everything, the committed inner scope included. */
  method NestedTransRollbackOuter(uow: DbUnitOfWork) returns (source: ConnSource)
    requires Consistent(uow.State()) && !uow.txActive
    modifies uow
    ensures source == FromTransaction
    ensures uow.State() == Idle
    ensures uow.log == old(uow.log) + [OuterBeginCalls(old(uow.State()))] + Repeat(NoCalls, 5) + [RollbackCalls]
  {
    var began, uowTrans := UnitOfWorkTransaction.New(uow, NoFaults);
    assert uowTrans != null;
    source := uow.Connection();
    var inner := MessUpSomeUser(uow);
    uowTrans.Dispose(NoFaults);
  }

  /** `UpdateWithRollback`: a guarded scope inside an open transaction that
      ends without `Commit`: its disposal rolls back the whole stack. */
  method UpdateWithRollback(uow: DbUnitOfWork) returns (sources: seq<ConnSource>)
    requires Consistent(uow.State()) && uow.txActive
    modifies uow
    ensures sources == [FromTransaction, FromTransaction]
    ensures uow.State() == Idle
    ensures uow.log == old(uow.log) + Repeat(NoCalls, 3) + [RollbackCalls]
  {
    var began, uowTrans := UnitOfWorkTransaction.New(uow, NoFaults);
    assert uowTrans != null;
    var read := uow.Connection();
    var upsert := uow.Connection();
    sources := [read, upsert];
    uowTrans.Dispose(NoFaults);
  }

  /** `NestedTransRollbackInner`: the inner scope's rollback aborts the outer
      transaction too. The outer `Commit` then finds no transaction: it
      returns without a real commit, and the outer guard counts as committed,
      so its disposal makes no call either. */
  method NestedTransRollbackInner(uow: DbUnitOfWork) returns (source: ConnSource, outerCommit: Outcome)
    requires Consistent(uow.State()) && !uow.txActive
    modifies uow
    ensures source == FromTransaction && outerCommit == Completed
    ensures uow.State() == Idle
    ensures uow.log == old(uow.log) + [OuterBeginCalls(old(uow.State()))] + Repeat(NoCalls, 4) + [RollbackCalls, NoCalls]
  {
    var began, uowTrans := UnitOfWorkTransaction.New(uow, NoFaults);
    assert uowTrans != null;
    source := uow.Connection();
    var inner := UpdateWithRollback(uow);
    outerCommit := uowTrans.Commit(NoFaults);
    assert uowTrans.committed;
    uowTrans.Dispose(NoFaults);
  }

  /** A guarded scope whose real commit fails: `Commit` rolls back and rethrows,
      the guard stays uncommitted, and its disposal then finds no transaction:
      its `Rollback` makes no real rollback but still releases, closing the
      connection once more. */
  method CommitFailureInsideScope(uow: DbUnitOfWork) returns (outcome: Outcome)
    requires Consistent(uow.State()) && !uow.txActive
    modifies uow
    ensures outcome == Threw(CommitTransaction)
    ensures uow.State() == Idle
    ensures uow.log == old(uow.log) + [OuterBeginCalls(old(uow.State())), Tally(0, 0, 0, 1, 1, 1, 1), Tally(0, 0, 0, 0, 0, 0, 1)]
  {
    var began, uowTrans := UnitOfWorkTransaction.New(uow, NoFaults);
    assert uowTrans != null;
    outcome := uowTrans.Commit(NoFaults.(commit := true));
    assert !uowTrans.committed;
    uowTrans.Dispose(NoFaults);
  }

  /** Disposing a guard twice: the second disposal changes nothing. */
  method DisposeTwice(uow: DbUnitOfWork)
    requires Consistent(uow.State()) && !uow.txActive
    modifies uow
    ensures uow.State() == Idle
    ensures uow.log == old(uow.log) + [OuterBeginCalls(old(uow.State())), RollbackCalls]
  {
    var began, uowTrans := UnitOfWorkTransaction.New(uow, NoFaults);
    assert uowTrans != null;
    uowTrans.Dispose(NoFaults);
    uowTrans.Dispose(NoFaults);
  }
}

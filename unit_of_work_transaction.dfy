/**
  `UnitOfWorkTransaction`: a scope guard over a `DbUnitOfWork`. Creating it
  begins a transaction; disposing it rolls the transaction back unless
  `Commit` returned first, and only the first disposal has any effect.
*/
module UowDomain {
  import opened UowSpec
  import opened UowData

  class UnitOfWorkTransaction {
    const uow: DbUnitOfWork
    var committed: bool
    var disposedValue: bool

    /** The object the C# constructor yields once `uow.Begin()` has returned. */
    constructor Holding(uow: DbUnitOfWork)
      ensures this.uow == uow && !committed && !disposedValue
    {
      this.uow := uow;
      committed := false;
      disposedValue := false;
    }

    /** The constructor: it calls `uow.Begin()` once. When `Begin` throws, the
        exception leaves the constructor, so the caller gets no guard. */
    static method New(uow: DbUnitOfWork, f: Faults) returns (outcome: Outcome, guard: UnitOfWorkTransaction?)
      modifies uow
      ensures var st := BeginStep(old(uow.State()), f);
              && uow.State() == st.post && outcome == st.outcome
              && uow.log == old(uow.log) + [st.calls]
      ensures guard != null <==> outcome == Completed
      ensures guard != null ==> fresh(guard) && guard.uow == uow && !guard.committed && !guard.disposedValue
    {
      outcome := uow.Begin(f);
      if outcome == Completed {
        guard := new UnitOfWorkTransaction.Holding(uow);
      } else {
        guard := null;
      }
    }

    /** `Commit`: forwards to `uow.Commit()`; `committed` is set only when that
        call returns. */
    method Commit(f: Faults) returns (outcome: Outcome)
      modifies this, uow
      ensures var st := CommitStep(old(uow.State()), f);
              && uow.State() == st.post && outcome == st.outcome
              && uow.log == old(uow.log) + [st.calls]
      ensures committed == (old(committed) || outcome == Completed)
      ensures disposedValue == old(disposedValue)
    {
      outcome := uow.Commit(f);
      if outcome == Completed {
        committed := true;
      }
    }

    /** `Dispose(bool disposing)`: on the first call with `disposing` set, rolls
        back unless committed; any call marks the guard disposed. */
    method DisposeCore(disposing: bool, f: Faults)
      modifies this, uow
      ensures var rollsBack := !old(disposedValue) && disposing && !committed;
              && (rollsBack ==>
                    var st := RollbackStep(old(uow.State()), f);
                    uow.State() == st.post && uow.log == old(uow.log) + [st.calls])
              && (!rollsBack ==> uow.State() == old(uow.State()) && uow.log == old(uow.log))
      ensures disposedValue && committed == old(committed)
    {
      if !disposedValue {
        if disposing {
          if !committed {
            uow.Rollback(f);
          }
        }
        disposedValue := true;
      }
    }

    /** `Dispose()`, run at the end of the `using` scope. */
    method Dispose(f: Faults)
      modifies this, uow
      ensures var rollsBack := !old(disposedValue) && !committed;
              && (rollsBack ==>
                    var st := RollbackStep(old(uow.State()), f);
                    uow.State() == st.post && uow.log == old(uow.log) + [st.calls])
              && (!rollsBack ==> uow.State() == old(uow.State()) && uow.log == old(uow.log))
      ensures disposedValue && committed == old(committed)
    {
      DisposeCore(true, f);
    }
  }
}

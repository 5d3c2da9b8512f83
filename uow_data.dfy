/**
  `DbUnitOfWork` as a class whose methods update its fields in place, each one
  proved to move the fields exactly as the matching step function of `UowSpec`.

  The fields stand for the C# members: `depth` for `_transCount`, `txActive`
  for `Transaction != null`, `connCreated` for `_connection != null` and
  `connOpen` for the state of that connection. The ghost `log` is bookkeeping
  only: it records, for each public call, how many calls it made into the
  driver and the connection provider.
*/
module UowData {
  import opened UowSpec

  class DbUnitOfWork {
    var depth: int
    var txActive: bool
    var connCreated: bool
    var connOpen: bool
    ghost var log: seq<Tally>

    function State(): UowState
      reads this
    {
      UowState(depth, txActive, connCreated, connOpen)
    }

    /** A new unit of work holds no connection and no transaction. */
    constructor ()
      ensures State() == Initial && log == []
    {
      depth := 0;
      txActive := false;
      connCreated := false;
      connOpen := false;
      log := [];
    }

    /** `InTransaction`: whether a transaction handle is held; while no
        rollback has failed, that is whether some `Begin` is still open. */
    function InTransaction(): (r: bool)
      reads this
      ensures Valid(State()) && r ==> depth > 0
      ensures Consistent(State()) ==> (r <==> depth > 0)
    {
      txActive
    }

    /** The owned connection, asked from the provider on first use only. */
    method OwnConnection() returns (calls: Tally)
      modifies this
      ensures var st := OwnedConnection(old(State()));
              State() == st.post && calls == st.calls && log == old(log)
    {
      calls := NoCalls;
      if !connCreated {
        connCreated := true;
        calls := CreateCall;
      }
    }

    /** The `Connection` property. */
    method Connection() returns (source: ConnSource)
      modifies this
      ensures var st := ConnectionStep(old(State()));
              source == st.0 && State() == st.1.post && log == old(log) + [st.1.calls]
    {
      if txActive {
        source := FromTransaction;
        log := log + [NoCalls];
      } else {
        var calls := OwnConnection();
        source := Owned;
        log := log + [calls];
      }
    }

    /** `ReleaseResources`; returns the calls it made. */
    method ReleaseResources(f: Faults) returns (calls: Tally)
      modifies this
      ensures var st := Release(old(State()), f);
              State() == st.post && calls == st.calls && log == old(log)
    {
      // dispose the transaction, if any: a failure is swallowed, the handle dropped anyway
      var disposes := if txActive then 1 else 0;
      txActive := false;
      // Connection.Close(): a failure is swallowed
      calls := OwnConnection();
      if !f.close {
        connOpen := false;
      }
      calls := calls.(disposes := disposes, closes := 1);
    }

    /** `Begin`. */
    method Begin(f: Faults) returns (outcome: Outcome)
      modifies this
      ensures var st := BeginStep(old(State()), f);
              State() == st.post && outcome == st.outcome && log == old(log) + [st.calls]
    {
      if txActive {
        depth := depth + 1;
        log := log + [NoCalls];
        return Completed;
      }
      var conn := OwnConnection();
      var opens := 0;
      if !connOpen {
        opens := 1;
        if f.open {
          var rel := ReleaseResources(f);
          log := log + [rel.(creates := conn.creates, opens := opens)];
          return Threw(Open);
        }
        connOpen := true;
      }
      if f.beginTransaction {
        var rel := ReleaseResources(f);
        log := log + [rel.(creates := conn.creates, opens := opens, begins := 1)];
        return Threw(BeginTransaction);
      }
      txActive := true;
      depth := depth + 1;
      log := log + [conn.(opens := opens, begins := 1)];
      outcome := Completed;
    }

    /** The body of `Rollback`; returns the calls it made. */
    method RollbackCore(f: Faults) returns (calls: Tally)
      modifies this
      ensures var st := RollbackStep(old(State()), f);
              State() == st.post && calls == st.calls && log == old(log)
    {
      var rollbacks := 0;
      if txActive {
        // a failure of the real rollback is swallowed and skips the reset
        rollbacks := 1;
        if !f.rollback {
          depth := 0;
        }
      }
      // the `finally`: release, with or without a transaction
      calls := ReleaseResources(f);
      calls := calls.(rollbacks := rollbacks);
    }

    /** `Rollback`. Never throws. */
    method Rollback(f: Faults)
      modifies this
      ensures var st := RollbackStep(old(State()), f);
              State() == st.post && log == old(log) + [st.calls]
    {
      var calls := RollbackCore(f);
      log := log + [calls];
    }

    /** `Commit`. */
    method Commit(f: Faults) returns (outcome: Outcome)
      modifies this
      ensures var st := CommitStep(old(State()), f);
              State() == st.post && outcome == st.outcome && log == old(log) + [st.calls]
    {
      if !txActive {
        // the debug message reads `Connection`
        var calls := OwnConnection();
        log := log + [calls];
        return Completed;
      }
      depth := depth - 1;
      if depth > 0 {
        log := log + [NoCalls];
        return Completed;
      }
      if f.commit {
        // the catch block: Rollback(), then rethrow
        var calls := RollbackCore(f);
        log := log + [calls.(commits := 1)];
        return Threw(CommitTransaction);
      }
      depth := 0;
      var calls := ReleaseResources(f);
      log := log + [calls.(commits := 1)];
      outcome := Completed;
    }
  }
}

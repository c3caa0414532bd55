/** The configuration object's own adapter methods, one method per uninterrupted segment, each
    proved to be the segment function of AdapterLifecycle and to keep its invariant. */
module AdapterConfiguration {
  import opened Outcomes
  import opened AdapterLifecycle
  import opened AdapterSafety

  class Configuration {
    var backgroundJobsAdapterGeneration: Option<nat>
    var closeDatabaseConnectionsPromise: Option<nat>
    var generations: seq<Generation>
    var promises: seq<Promise>

    function Fields(): Shared
      reads this
    {
      Shared(generations, backgroundJobsAdapterGeneration, closeDatabaseConnectionsPromise, promises)
    }

    constructor ()
      ensures Fields() == INIT.sh && SharedOk(Fields())
    {
      backgroundJobsAdapterGeneration, closeDatabaseConnectionsPromise := None, None;
      generations, promises := [], [];
    }

    method NewPromise(kind: Kind, owner: nat) returns (p: nat)
      modifies this`promises
      ensures p == old(|promises|) && promises == old(promises) + [Promise(kind, Pending, false, owner)]
    {
      p := |promises|;
      promises := promises + [Promise(kind, Pending, false, owner)];
    }

    method GetBackgroundJobsAdapter(factoryOk: bool) returns (adapter: Option<nat>)
      requires SharedOk(Fields())
      modifies this
      ensures SharedOk(Fields())
      ensures adapter == (if factoryOk || old(backgroundJobsAdapterGeneration).Some? then backgroundJobsAdapterGeneration else None)
      ensures Fields() == if adapter.Some? then GetAdapter(old(Fields())) else old(Fields())
      ensures adapter.Some? <==> factoryOk || old(backgroundJobsAdapterGeneration).Some?
    {
      GetAdapterOk(Fields());
      if backgroundJobsAdapterGeneration.Some? { return backgroundJobsAdapterGeneration; }
      if !factoryOk { return None; }
      backgroundJobsAdapterGeneration := Some(|generations|);
      generations := generations + [Generation(false, None, None, Unclaimed, 0)];
      return backgroundJobsAdapterGeneration;
    }

    /** From the loop head to the next suspension. */
    method AcquireReadyBackgroundJobsAdapter(me: nat, factoryOk: bool) returns (next: AcquirerPc)
      requires SharedOk(Fields())
      modifies this
      ensures SharedOk(Fields()) && (Fields(), next) == AcquireHead(old(Fields()), me, factoryOk)
      ensures !next.Spinning?
    {
      AcquireHeadOk(Fields(), me, factoryOk);
      if closeDatabaseConnectionsPromise.Some? { return AwaitDatabase(closeDatabaseConnectionsPromise.value); }
      var adapter := GetBackgroundJobsAdapter(factoryOk);
      if adapter.None? { return Failed; }
      var g := adapter.value;
      assert GenOk(Fields(), g);
      if generations[g].closing { return AwaitClose(generations[g].closePromise.value); }
      var r;
      if generations[g].readyPromise.Some? {
        r := generations[g].readyPromise.value;
      } else {
        r := NewPromise(ReadyOf(g), me);
      }
      generations := generations[g := generations[g].(readyPromise := Some(r))];
      assert generations == AcquireHead(old(Fields()), me, factoryOk).0.gens;
      return AwaitReady(g, r);
    }

    /** After `await readyPromise`. */
    method AcquireAfterReady(g: nat, r: nat) returns (next: AcquirerPc)
      requires SharedOk(Fields()) && g < |generations| && IsKind(Fields(), r, ReadyOf(g))
      requires !promises[r].status.Pending?
      modifies this
      ensures SharedOk(Fields()) && (Fields(), Some(next)) == AfterReady(old(Fields()), g, r)
      ensures next == Returned(g) ==> Fields() == old(Fields()) && backgroundJobsAdapterGeneration == Some(g) && !generations[g].closing
    {
      AfterReadyOk(Fields(), g, r);
      assert GenOk(Fields(), g);
      if promises[r].status.Rejected? {
        if generations[g].readyPromise == Some(r) {
          generations := generations[g := generations[g].(readyPromise := None)];
        }
        return Failed;
      }
      if generations[g].closing { return AwaitClose(generations[g].closePromise.value); }
      return Returned(g);
    }

    /** Up to the first suspension; the claimant starts the close body in the same segment. */
    method CloseBackgroundJobsAdapter(me: nat) returns (next: CloserPc)
      requires SharedOk(Fields())
      modifies this
      ensures SharedOk(Fields()) && (Fields(), next) == CloseHead(old(Fields()), me)
    {
      CloseHeadOk(Fields(), me);
      if backgroundJobsAdapterGeneration.None? { return CloseDone; }
      var g := backgroundJobsAdapterGeneration.value;
      if generations[g].closePromise.Some? { return Following(generations[g].closePromise.value); }
      generations := generations[g := generations[g].(closing := true)];
      if generations[g].readyPromise.Some? {
        generations := generations[g := generations[g].(phase := AwaitingReady(generations[g].readyPromise.value))];
      } else {
        generations := generations[g := generations[g].(phase := Closing(false), closeCalls := generations[g].closeCalls + 1)];
      }
      var p := NewPromise(CloseOf(g), me);
      generations := generations[g := generations[g].(closePromise := Some(p))];
      assert generations == CloseHead(old(Fields()), me).0.gens;
      return Owning(g, p);
    }

    /** The claimant's `finally`. */
    method ForgetClosedGeneration(me: nat, g: nat, p: nat)
      requires SharedOk(Fields()) && CloserOk(Fields(), me, Owning(g, p)) && !promises[p].status.Pending?
      modifies this
      ensures SharedOk(Fields()) && Fields() == AfterOwnClose(old(Fields()), g)
    {
      AfterOwnCloseOk(Fields(), me, g, p);
      if backgroundJobsAdapterGeneration == Some(g) {
        backgroundJobsAdapterGeneration := None;
      }
    }

    /** The microtask of the ready promise calls `adapter.ensureReady()`. */
    method EnsureReadyStarts(r: nat)
      requires SharedOk(Fields()) && r < |promises| && promises[r].kind.ReadyOf? && promises[r].status.Pending? && !promises[r].started
      modifies this`promises
      ensures SharedOk(Fields()) && promises == old(promises)[r := old(promises)[r].(started := true)]
    {
      ReadyStepOk(Fields(), r, Pending, true);
      promises := promises[r := promises[r].(started := true)];
    }

    method EnsureReadySettles(r: nat, ok: bool)
      requires SharedOk(Fields()) && r < |promises| && promises[r].kind.ReadyOf? && promises[r].status.Pending? && promises[r].started
      modifies this`promises
      ensures SharedOk(Fields()) && Fields() == Settle(old(Fields()), r, ok)
    {
      ReadyStepOk(Fields(), r, if ok then Fulfilled else Rejected, true);
      promises := promises[r := promises[r].(status := if ok then Fulfilled else Rejected)];
    }

    /** The close body after the awaited readiness, successful or not: it calls `adapter.close()`. */
    method CloseBodyResumes(g: nat)
      requires SharedOk(Fields()) && g < |generations| && generations[g].phase.AwaitingReady?
      requires generations[g].phase.ready < |promises| && !promises[generations[g].phase.ready].status.Pending?
      modifies this`generations
      ensures SharedOk(Fields()) && Fields() == CloseBodyAfterReady(old(Fields()), g)
      ensures generations[g].closeCalls == 1
    {
      CloseBodyAfterReadyOk(Fields(), g);
      assert GenOk(Fields(), g);
      var readyFailed := promises[generations[g].phase.ready].status.Rejected?;
      generations := generations[g := generations[g].(phase := Closing(readyFailed), closeCalls := generations[g].closeCalls + 1)];
    }

    /** `adapter.close()` settles; the close promise rejects if it or the readiness failed. */
    method AdapterCloseSettles(g: nat, ok: bool)
      requires SharedOk(Fields()) && g < |generations| && generations[g].phase.Closing?
      requires generations[g].closePromise.Some? && generations[g].closePromise.value < |promises|
      modifies this`generations, this`promises
      ensures SharedOk(Fields()) && Fields() == SettleCloseBody(old(Fields()), g, ok)
    {
      SettleCloseBodyOk(Fields(), g, ok);
      var p := generations[g].closePromise.value;
      var readyFailed := generations[g].phase.readyFailed;
      promises := promises[p := promises[p].(status := if ok && !readyFailed then Fulfilled else Rejected)];
      generations := generations[g := generations[g].(phase := Closed)];
    }

    method CloseDatabaseConnections(me: nat) returns (next: DatabaseCloserPc)
      requires SharedOk(Fields())
      modifies this
      ensures SharedOk(Fields()) && (Fields(), next) == CloseDatabasesHead(old(Fields()), me)
      ensures closeDatabaseConnectionsPromise.Some?
      ensures old(closeDatabaseConnectionsPromise).Some? ==>
        Fields() == old(Fields()) && next == FollowingDatabase(closeDatabaseConnectionsPromise.value)
    {
      CloseDatabasesSharedOk(Fields(), me);
      if closeDatabaseConnectionsPromise.Some? { return FollowingDatabase(closeDatabaseConnectionsPromise.value); }
      var sub := CloseBackgroundJobsAdapter(me);
      var db := NewPromise(DatabaseClose, me);
      closeDatabaseConnectionsPromise := Some(db);
      return if sub.CloseDone? then InPools(db) else InAdapter(db, sub);
    }

    /** The body of the database close ends. */
    method DatabaseCloseSettles(db: nat, ok: bool)
      requires SharedOk(Fields()) && IsKind(Fields(), db, DatabaseClose)
      modifies this`promises
      ensures SharedOk(Fields()) && Fields() == Settle(old(Fields()), db, ok)
    {
      DatabasePromiseOk(Fields(), db, ok);
      promises := promises[db := promises[db].(status := if ok then Fulfilled else Rejected)];
    }

    /** The `finally` of the caller that started the database close. */
    method ForgetDatabaseClose()
      requires SharedOk(Fields()) && (closeDatabaseConnectionsPromise.Some? ==> !promises[closeDatabaseConnectionsPromise.value].status.Pending?)
      modifies this`closeDatabaseConnectionsPromise
      ensures SharedOk(Fields()) && Fields() == old(Fields()).(dbClose := None)
    {
      ForgetDatabaseOk(Fields());
      closeDatabaseConnectionsPromise := None;
    }
  }
}

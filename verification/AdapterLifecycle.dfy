/** The background-jobs adapter lifecycle of src/configuration.js.

    JavaScript runs the code between two `await`s without interruption, so the three
    asynchronous operations (acquire, close adapter, close databases) are processes whose
    steps are those segments, and the scheduler may run any process whose awaited promise
    has settled.  `Shared` holds the configuration's fields; the functions on it are the
    segments; `State` adds the processes. */
module AdapterLifecycle {
  import opened Outcomes

  // ---------------------------------------------------------------- shared fields

  datatype Status = Pending | Fulfilled | Rejected

  datatype Kind = ReadyOf(gen: nat) | CloseOf(gen: nat) | DatabaseClose

  /** A promise.  `owner` is the process that awaited it in the segment that created it, so
      its continuation is the promise's first reaction.  `started` tells whether the adapter's
      `ensureReady()` has been called (ready promises only). */
  datatype Promise = Promise(kind: Kind, status: Status, started: bool, owner: nat)

  /** The body of the close promise: not claimed, awaiting the ready promise found at the claim,
      inside `adapter.close()`, done. */
  datatype ClosePhase = Unclaimed | AwaitingReady(ready: nat) | Closing(readyFailed: bool) | Closed

  /** An adapter generation.  `phase` and `closeCalls` observe the calls made on its adapter. */
  datatype Generation = Generation(
    closing: bool, closePromise: Option<nat>, readyPromise: Option<nat>,
    phase: ClosePhase, closeCalls: nat)

  datatype Shared = Shared(
    gens: seq<Generation>, current: Option<nat>, dbClose: Option<nat>, promises: seq<Promise>)

  predicate WellFormed(sh: Shared) {
    && (sh.current.Some? ==> sh.current.value < |sh.gens|)
    && (forall p :: 0 <= p < |sh.promises| && !sh.promises[p].kind.DatabaseClose? ==> sh.promises[p].kind.gen < |sh.gens|)
  }

  // ---------------------------------------------------------------- processes

  datatype AcquirerPc =
    | AwaitDatabase(p: nat)
    | AwaitClose(p: nat)
    | AwaitReady(g: nat, r: nat)
    | Spinning                       // closing with no close promise: the loop would never yield
    | Returned(g: nat)
    | Failed

  datatype CloserPc = Owning(g: nat, p: nat) | Following(p: nat) | CloseDone

  /** A database closer runs the adapter close as a sub-call while its own promise is pending. */
  datatype DatabaseCloserPc =
    | InAdapter(db: nat, sub: CloserPc)
    | InPools(db: nat)
    | Finishing(db: nat)
    | FollowingDatabase(p: nat)
    | DatabaseDone

  /** An acquirer remembers the close promises it awaited and how often it repeated its loop. */
  datatype Proc =
    | Acquirer(pc: AcquirerPc, waited: seq<nat>, trips: nat)
    | Closer(cpc: CloserPc)
    | DatabaseCloser(dpc: DatabaseCloserPc)

  datatype State = State(sh: Shared, procs: seq<Proc>)

  /** The promise a process is suspended on. */
  function Awaits(proc: Proc): Option<nat> {
    match proc
    case Acquirer(AwaitDatabase(p), _, _) => Some(p)
    case Acquirer(AwaitClose(p), _, _) => Some(p)
    case Acquirer(AwaitReady(_, r), _, _) => Some(r)
    case Closer(Owning(_, p)) => Some(p)
    case Closer(Following(p)) => Some(p)
    case DatabaseCloser(InAdapter(_, Owning(_, p))) => Some(p)
    case DatabaseCloser(InAdapter(_, Following(p))) => Some(p)
    case DatabaseCloser(Finishing(db)) => Some(db)
    case DatabaseCloser(FollowingDatabase(p)) => Some(p)
    case _ => None
  }

  predicate ClosingDatabases(proc: Proc) {
    proc.DatabaseCloser? && (proc.dpc.InAdapter? || proc.dpc.InPools? || proc.dpc.Finishing?)
  }

  // ---------------------------------------------------------------- segments

  /** `getBackgroundJobsAdapter`: keep the current generation or create one. */
  function GetAdapter(sh: Shared): Shared {
    if sh.current.Some? then sh
    else sh.(gens := sh.gens + [Generation(false, None, None, Unclaimed, 0)], current := Some(|sh.gens|))
  }

  /** One trip from the loop head of the acquirer to its next suspension. */
  function AcquireHead(sh: Shared, me: nat, factoryOk: bool): (Shared, AcquirerPc)
    requires WellFormed(sh)
  {
    if sh.dbClose.Some? then (sh, AwaitDatabase(sh.dbClose.value))
    else if sh.current.None? && !factoryOk then (sh, Failed)
    else
      var sh1 := GetAdapter(sh);
      var g := sh1.current.value;
      var gen := sh1.gens[g];
      if gen.closing then
        (sh1, if gen.closePromise.Some? then AwaitClose(gen.closePromise.value) else Spinning)
      else if gen.readyPromise.Some? then
        (sh1, AwaitReady(g, gen.readyPromise.value))
      else
        var r := |sh1.promises|;
        (sh1.(gens := sh1.gens[g := gen.(readyPromise := Some(r))],
              promises := sh1.promises + [Promise(ReadyOf(g), Pending, false, me)]),
         AwaitReady(g, r))
  }

  /** The acquirer after `await readyPromise`; None means another trip round the loop. */
  function AfterReady(sh: Shared, g: nat, r: nat): (Shared, Option<AcquirerPc>)
    requires g < |sh.gens| && r < |sh.promises|
  {
    var gen := sh.gens[g];
    if sh.promises[r].status.Rejected? then
      (if gen.readyPromise == Some(r) then sh.(gens := sh.gens[g := gen.(readyPromise := None)]) else sh,
       Some(Failed))
    else if gen.closing then
      (sh, if gen.closePromise.Some? then Some(AwaitClose(gen.closePromise.value)) else None)
    else if sh.current != Some(g) then (sh, None)
    else (sh, Some(Returned(g)))
  }

  /** `closeBackgroundJobsAdapter` up to its first suspension. */
  function CloseHead(sh: Shared, me: nat): (Shared, CloserPc)
    requires WellFormed(sh)
  {
    if sh.current.None? then (sh, CloseDone)
    else
      var g := sh.current.value;
      var gen := sh.gens[g];
      if gen.closePromise.Some? then (sh, Following(gen.closePromise.value))
      else
        var p := |sh.promises|;
        var claimed := if gen.readyPromise.Some?
          then gen.(phase := AwaitingReady(gen.readyPromise.value))
          else gen.(phase := Closing(false), closeCalls := gen.closeCalls + 1);
        (sh.(gens := sh.gens[g := claimed.(closing := true, closePromise := Some(p))],
             promises := sh.promises + [Promise(CloseOf(g), Pending, false, me)]),
         Owning(g, p))
  }

  /** The close body once the ready promise has settled: call `adapter.close()`. */
  function CloseBodyAfterReady(sh: Shared, g: nat): Shared
    requires g < |sh.gens| && sh.gens[g].phase.AwaitingReady? && sh.gens[g].phase.ready < |sh.promises|
  {
    var gen := sh.gens[g];
    sh.(gens := sh.gens[g := gen.(phase := Closing(sh.promises[gen.phase.ready].status.Rejected?),
                                  closeCalls := gen.closeCalls + 1)])
  }

  /** `adapter.close()` settles, and with it the close promise. */
  function SettleCloseBody(sh: Shared, g: nat, ok: bool): Shared
    requires g < |sh.gens| && sh.gens[g].phase.Closing?
    requires sh.gens[g].closePromise.Some? && sh.gens[g].closePromise.value < |sh.promises|
  {
    var gen := sh.gens[g];
    var p := gen.closePromise.value;
    var status := if ok && !gen.phase.readyFailed then Fulfilled else Rejected;
    sh.(gens := sh.gens[g := gen.(phase := Closed)], promises := sh.promises[p := sh.promises[p].(status := status)])
  }

  /** The claimant's `finally`: forget the generation it closed. */
  function AfterOwnClose(sh: Shared, g: nat): Shared {
    if sh.current == Some(g) then sh.(current := None) else sh
  }

  /** `closeDatabaseConnections` up to its first suspension. */
  function CloseDatabasesHead(sh: Shared, me: nat): (Shared, DatabaseCloserPc)
    requires WellFormed(sh)
  {
    if sh.dbClose.Some? then (sh, FollowingDatabase(sh.dbClose.value))
    else
      var (sh1, sub) := CloseHead(sh, me);
      var db := |sh1.promises|;
      (sh1.(dbClose := Some(db), promises := sh1.promises + [Promise(DatabaseClose, Pending, false, me)]),
       if sub.CloseDone? then InPools(db) else InAdapter(db, sub))
  }

  function Settle(sh: Shared, p: nat, ok: bool): Shared
    requires p < |sh.promises|
  {
    sh.(promises := sh.promises[p := sh.promises[p].(status := if ok then Fulfilled else Rejected)])
  }

  // ---------------------------------------------------------------- the machine

  datatype Event =
    | CallAcquire(factoryOk: bool)
    | CallGet                                   // getBackgroundJobsAdapter called from anywhere
    | CallClose
    | CallCloseDatabases
    | StartReady(r: nat)                        // the microtask calls adapter.ensureReady()
    | SettleReady(r: nat, ok: bool)
    | CloseBodyResumes(g: nat)
    | AdapterCloseSettles(g: nat, ok: bool)
    | PoolsFinish(pid: nat, ok: bool)           // the database close body ends; its promise settles
    | Resume(pid: nat, factoryOk: bool)         // the process's awaited promise has settled

  predicate Enabled(s: State, e: Event) {
    && WellFormed(s.sh)
    && match e
       case CallAcquire(_) => true
       case CallGet => true
       case CallClose => true
       case CallCloseDatabases => true
       case StartReady(r) =>
         r < |s.sh.promises| && s.sh.promises[r].kind.ReadyOf? && s.sh.promises[r].status.Pending? && !s.sh.promises[r].started
       case SettleReady(r, _) =>
         r < |s.sh.promises| && s.sh.promises[r].kind.ReadyOf? && s.sh.promises[r].status.Pending? && s.sh.promises[r].started
       case CloseBodyResumes(g) =>
         && g < |s.sh.gens| && s.sh.gens[g].phase.AwaitingReady?
         && s.sh.gens[g].phase.ready < |s.sh.promises| && !s.sh.promises[s.sh.gens[g].phase.ready].status.Pending?
       case AdapterCloseSettles(g, _) =>
         && g < |s.sh.gens| && s.sh.gens[g].phase.Closing?
         && s.sh.gens[g].closePromise.Some? && s.sh.gens[g].closePromise.value < |s.sh.promises|
       case PoolsFinish(pid, _) =>
         && pid < |s.procs| && s.procs[pid].DatabaseCloser? && s.procs[pid].dpc.InPools?
         && s.procs[pid].dpc.db < |s.sh.promises|
       case Resume(pid, _) =>
         && pid < |s.procs| && Awaits(s.procs[pid]).Some?
         && Awaits(s.procs[pid]).value < |s.sh.promises|
         && !s.sh.promises[Awaits(s.procs[pid]).value].status.Pending?
         && (s.procs[pid].Acquirer? && s.procs[pid].pc.AwaitReady? ==> s.procs[pid].pc.g < |s.sh.gens|)
  }

  /** Promise reactions run in the order they were registered; a promise's owner registered first. */
  predicate OwnerFirst(s: State, e: Event) {
    e.Resume? && Enabled(s, e) ==>
      var p := Awaits(s.procs[e.pid]).value;
      var owner := s.sh.promises[p].owner;
      e.pid == owner || (owner < |s.procs| ==> Awaits(s.procs[owner]) != Some(p))
  }

  /** A trip from the loop head: record the close promise it ends up waiting for. */
  function Loop(sh: Shared, me: nat, factoryOk: bool, waited: seq<nat>, trips: nat): (Shared, Proc)
    requires WellFormed(sh)
  {
    var (sh1, pc) := AcquireHead(sh, me, factoryOk);
    (sh1, Acquirer(pc, Noted(pc, waited), trips))
  }

  function Noted(pc: AcquirerPc, waited: seq<nat>): seq<nat> {
    if pc.AwaitDatabase? || pc.AwaitClose? then waited + [pc.p] else waited
  }

  function ResumeProc(sh: Shared, me: nat, proc: Proc, factoryOk: bool): (Shared, Proc)
    requires WellFormed(sh) && Awaits(proc).Some? && Awaits(proc).value < |sh.promises|
    requires proc.Acquirer? && proc.pc.AwaitReady? ==> proc.pc.g < |sh.gens|
  {
    var rejected := sh.promises[Awaits(proc).value].status.Rejected?;
    match proc
    case Acquirer(AwaitReady(g, r), waited, trips) =>
      var (sh1, next) := AfterReady(sh, g, r);
      if next.Some? then (sh1, Acquirer(next.value, Noted(next.value, waited), trips))
      else Loop(sh1, me, factoryOk, waited, trips + 1)
    case Acquirer(_, waited, trips) =>
      if rejected then (sh, Acquirer(Failed, waited, trips))
      else Loop(sh, me, factoryOk, waited, trips + 1)
    case Closer(Owning(g, _)) => (AfterOwnClose(sh, g), Closer(CloseDone))
    case Closer(_) => (sh, Closer(CloseDone))
    case DatabaseCloser(InAdapter(db, Owning(g, _))) => (AfterOwnClose(sh, g), DatabaseCloser(InPools(db)))
    case DatabaseCloser(InAdapter(db, _)) => (sh, DatabaseCloser(InPools(db)))
    case DatabaseCloser(Finishing(_)) => (sh.(dbClose := None), DatabaseCloser(DatabaseDone))
    case DatabaseCloser(_) => (sh, DatabaseCloser(DatabaseDone))
  }

  function Apply(s: State, e: Event): State
    requires Enabled(s, e)
  {
    var me := |s.procs|;
    match e
    case CallAcquire(ok) => var (sh, proc) := Loop(s.sh, me, ok, [], 0); State(sh, s.procs + [proc])
    case CallGet => s.(sh := GetAdapter(s.sh))
    case CallClose => var (sh, pc) := CloseHead(s.sh, me); State(sh, s.procs + [Closer(pc)])
    case CallCloseDatabases => var (sh, pc) := CloseDatabasesHead(s.sh, me); State(sh, s.procs + [DatabaseCloser(pc)])
    case StartReady(r) => s.(sh := s.sh.(promises := s.sh.promises[r := s.sh.promises[r].(started := true)]))
    case SettleReady(r, ok) => s.(sh := Settle(s.sh, r, ok))
    case CloseBodyResumes(g) => s.(sh := CloseBodyAfterReady(s.sh, g))
    case AdapterCloseSettles(g, ok) => s.(sh := SettleCloseBody(s.sh, g, ok))
    case PoolsFinish(pid, ok) =>
      State(Settle(s.sh, s.procs[pid].dpc.db, ok), s.procs[pid := DatabaseCloser(Finishing(s.procs[pid].dpc.db))])
    case Resume(pid, ok) =>
      var (sh, proc) := ResumeProc(s.sh, pid, s.procs[pid], ok);
      State(sh, s.procs[pid := proc])
  }

  const INIT := State(Shared([], None, None, []), [])

  /** A run: events applied one after another to the initial state. */
  ghost predicate Run(states: seq<State>, events: seq<Event>) {
    && |states| == |events| + 1
    && states[0] == INIT
    && forall i :: 0 <= i < |events| ==> Enabled(states[i], events[i]) && states[i + 1] == Apply(states[i], events[i])
  }
}

/** What every run of the adapter lifecycle keeps, whatever the scheduler does. */
module AdapterSafety {
  import opened Outcomes
  import opened AdapterLifecycle

  // ---------------------------------------------------------------- the invariant

  ghost predicate GenOk(sh: Shared, g: nat)
    requires g < |sh.gens|
  {
    var gen := sh.gens[g];
    && gen.closing == gen.closePromise.Some? == !gen.phase.Unclaimed?
    && gen.closeCalls == (if gen.phase.Closing? || gen.phase.Closed? then 1 else 0)
    && (sh.current != Some(g) ==> gen.phase.Closed?)
    && (gen.closePromise.Some? ==>
          var p := gen.closePromise.value;
          && p < |sh.promises| && sh.promises[p].kind == CloseOf(g)
          && sh.promises[p].status.Pending? == !gen.phase.Closed?)
    && (gen.readyPromise.Some? ==>
          gen.readyPromise.value < |sh.promises| && sh.promises[gen.readyPromise.value].kind == ReadyOf(g))
    && (gen.phase.AwaitingReady? ==>
          gen.phase.ready < |sh.promises| && sh.promises[gen.phase.ready].kind == ReadyOf(g))
  }

  ghost predicate PromiseOk(sh: Shared, p: nat)
    requires p < |sh.promises|
  {
    match sh.promises[p].kind
    case ReadyOf(g) =>
      && g < |sh.gens|
      && (sh.promises[p].status.Pending? ==>
            && sh.gens[g].readyPromise == Some(p)
            && (sh.gens[g].phase.Unclaimed? || sh.gens[g].phase == AwaitingReady(p)))
      && (!sh.promises[p].status.Pending? ==> sh.promises[p].started)
    case CloseOf(g) => g < |sh.gens| && sh.gens[g].closePromise == Some(p)
    case DatabaseClose => sh.promises[p].status.Pending? ==> sh.dbClose == Some(p)
  }

  ghost predicate SharedOk(sh: Shared) {
    && WellFormed(sh)
    && (sh.dbClose.Some? ==> sh.dbClose.value < |sh.promises| && sh.promises[sh.dbClose.value].kind.DatabaseClose?)
    && (forall g: nat :: g < |sh.gens| ==> GenOk(sh, g))
    && (forall p: nat :: p < |sh.promises| ==> PromiseOk(sh, p))
  }

  ghost predicate IsKind(sh: Shared, p: nat, kind: Kind) {
    p < |sh.promises| && sh.promises[p].kind == kind
  }

  ghost predicate CloserOk(sh: Shared, me: nat, pc: CloserPc) {
    match pc
    case Owning(g, p) => IsKind(sh, p, CloseOf(g)) && sh.promises[p].owner == me
    case Following(p) => p < |sh.promises| && sh.promises[p].kind.CloseOf?
    case CloseDone => true
  }

  ghost predicate ProcOk(sh: Shared, me: nat, proc: Proc) {
    match proc
    case Acquirer(AwaitDatabase(p), _, _) => IsKind(sh, p, DatabaseClose)
    case Acquirer(AwaitClose(p), _, _) => p < |sh.promises| && sh.promises[p].kind.CloseOf?
    case Acquirer(AwaitReady(g, r), _, _) =>
      IsKind(sh, r, ReadyOf(g)) && g < |sh.gens| && (sh.dbClose.Some? ==> sh.gens[g].closing)
    case Acquirer(Spinning, _, _) => false
    case Acquirer(_, _, _) => true
    case Closer(pc) => CloserOk(sh, me, pc)
    case DatabaseCloser(FollowingDatabase(p)) => IsKind(sh, p, DatabaseClose)
    case DatabaseCloser(DatabaseDone) => true
    case DatabaseCloser(InAdapter(db, sub)) =>
      !sub.CloseDone? && CloserOk(sh, me, sub) && InProgress(sh, me, db) && sh.promises[db].status.Pending?
    case DatabaseCloser(InPools(db)) => InProgress(sh, me, db) && sh.promises[db].status.Pending?
    case DatabaseCloser(Finishing(db)) => InProgress(sh, me, db) && !sh.promises[db].status.Pending?
  }

  /** The one database close under way is the one whose promise the configuration holds. */
  ghost predicate InProgress(sh: Shared, me: nat, db: nat) {
    sh.dbClose == Some(db) && IsKind(sh, db, DatabaseClose) && sh.promises[db].owner == me
  }

  ghost predicate Inv(s: State) {
    && SharedOk(s.sh)
    && forall i: nat :: i < |s.procs| ==> ProcOk(s.sh, i, s.procs[i])
  }

  // ---------------------------------------------------------------- segments keep it

  /** What a segment may do to the other processes' promises: nothing they rely on. */
  ghost predicate Extends(sh: Shared, sh': Shared) {
    && |sh.gens| <= |sh'.gens| && |sh.promises| <= |sh'.promises|
    && (forall g: nat :: g < |sh.gens| && sh.gens[g].closing ==> sh'.gens[g].closing)
    && (forall p: nat :: p < |sh.promises| ==>
          && sh'.promises[p].kind == sh.promises[p].kind && sh'.promises[p].owner == sh.promises[p].owner
          && (!sh.promises[p].status.Pending? ==> sh'.promises[p].status == sh.promises[p].status))
  }

  /** The database-close promises and the field that holds them are untouched. */
  ghost predicate KeepsDatabases(sh: Shared, sh': Shared) {
    && sh'.dbClose == sh.dbClose && |sh.promises| <= |sh'.promises|
    && forall p: nat :: p < |sh.promises| && sh.promises[p].kind.DatabaseClose? ==> sh'.promises[p] == sh.promises[p]
  }

  lemma {:induction false} KeepProcs(sh: Shared, sh': Shared, procs: seq<Proc>)
    requires Extends(sh, sh') && KeepsDatabases(sh, sh')
    requires forall i: nat :: i < |procs| ==> ProcOk(sh, i, procs[i])
    ensures forall i: nat :: i < |procs| ==> ProcOk(sh', i, procs[i])
  {
    forall i: nat | i < |procs| ensures ProcOk(sh', i, procs[i]) {
      assert ProcOk(sh, i, procs[i]);
    }
  }

  lemma {:induction false} GetAdapterOk(sh: Shared)
    requires SharedOk(sh)
    ensures SharedOk(GetAdapter(sh)) && Extends(sh, GetAdapter(sh)) && KeepsDatabases(sh, GetAdapter(sh))
    ensures GetAdapter(sh).current.Some?
  {
    var sh' := GetAdapter(sh);
    forall g: nat | g < |sh'.gens| ensures GenOk(sh', g) {
      if g < |sh.gens| { assert GenOk(sh, g); }
    }
    forall p: nat | p < |sh'.promises| ensures PromiseOk(sh', p) { assert PromiseOk(sh, p); }
  }

  lemma {:induction false} AcquireHeadOk(sh: Shared, me: nat, factoryOk: bool)
    requires SharedOk(sh)
    ensures var (sh', pc) := AcquireHead(sh, me, factoryOk);
      && SharedOk(sh') && Extends(sh, sh') && KeepsDatabases(sh, sh')
      && ProcOk(sh', me, Acquirer(pc, [], 0))
  {
    GetAdapterOk(sh);
    var sh1 := GetAdapter(sh);
    var (sh', pc) := AcquireHead(sh, me, factoryOk);
    if pc.AwaitReady? {
      var g := pc.g;
      assert GenOk(sh1, g);
      forall h: nat | h < |sh'.gens| ensures GenOk(sh', h) { assert GenOk(sh1, h); }
      forall p: nat | p < |sh'.promises| ensures PromiseOk(sh', p) {
        if p < |sh1.promises| { assert PromiseOk(sh1, p); }
      }
    } else if sh.dbClose.None? && pc != Failed {
      assert GenOk(sh1, sh1.current.value);
    }
  }

  lemma {:induction false} AfterReadyOk(sh: Shared, g: nat, r: nat)
    requires SharedOk(sh) && g < |sh.gens| && IsKind(sh, r, ReadyOf(g)) && !sh.promises[r].status.Pending?
    ensures var (sh', next) := AfterReady(sh, g, r);
      && SharedOk(sh') && Extends(sh, sh') && KeepsDatabases(sh, sh')
      && next.Some? && ProcOk(sh', 0, Acquirer(next.value, [], 0))
  {
    var (sh', next) := AfterReady(sh, g, r);
    assert GenOk(sh, g);
    forall h: nat | h < |sh'.gens| ensures GenOk(sh', h) { assert GenOk(sh, h); }
    forall p: nat | p < |sh'.promises| ensures PromiseOk(sh', p) { assert PromiseOk(sh, p); }
  }

  lemma {:induction false} CloseHeadOk(sh: Shared, me: nat)
    requires SharedOk(sh)
    ensures var (sh', pc) := CloseHead(sh, me);
      && SharedOk(sh') && Extends(sh, sh') && KeepsDatabases(sh, sh') && CloserOk(sh', me, pc)
      && forall g: nat :: g < |sh'.gens| ==> sh'.gens[g].closing
  {
    var (sh', pc) := CloseHead(sh, me);
    forall g: nat | g < |sh'.gens| ensures GenOk(sh', g) && sh'.gens[g].closing { assert GenOk(sh, g); }
    forall p: nat | p < |sh'.promises| ensures PromiseOk(sh', p) {
      if p < |sh.promises| { assert PromiseOk(sh, p); }
    }
  }

  /** A second database close starts nothing: it follows the first. */
  lemma {:induction false} CloseDatabasesSharedOk(sh: Shared, me: nat)
    requires SharedOk(sh)
    ensures SharedOk(CloseDatabasesHead(sh, me).0)
  {
    if sh.dbClose.None? {
      CloseHeadOk(sh, me);
      var (sh1, sub) := CloseHead(sh, me);
      var (sh', pc) := CloseDatabasesHead(sh, me);
      forall g: nat | g < |sh'.gens| ensures GenOk(sh', g) { assert GenOk(sh1, g); }
      forall p: nat | p < |sh'.promises| ensures PromiseOk(sh', p) {
        if p < |sh1.promises| { assert PromiseOk(sh1, p); }
      }
    }
  }

  lemma {:induction false} CloseDatabasesHeadOk(s: State)
    requires Inv(s)
    ensures Inv(Apply(s, CallCloseDatabases))
  {
    var me := |s.procs|;
    CloseDatabasesSharedOk(s.sh, me);
    if s.sh.dbClose.None? {
      CloseHeadOk(s.sh, me);
      var (sh1, sub) := CloseHead(s.sh, me);
      var (sh', pc) := CloseDatabasesHead(s.sh, me);
      KeepProcs(s.sh, sh1, s.procs);
      forall i: nat | i < |s.procs| ensures ProcOk(sh', i, s.procs[i]) {
        assert ProcOk(sh1, i, s.procs[i]);
      }
    }
  }

  lemma {:induction false} CloseBodyAfterReadyOk(sh: Shared, g: nat)
    requires SharedOk(sh) && g < |sh.gens| && sh.gens[g].phase.AwaitingReady?
    requires sh.gens[g].phase.ready < |sh.promises| && !sh.promises[sh.gens[g].phase.ready].status.Pending?
    ensures var sh' := CloseBodyAfterReady(sh, g); SharedOk(sh') && Extends(sh, sh') && KeepsDatabases(sh, sh')
  {
    var sh' := CloseBodyAfterReady(sh, g);
    forall h: nat | h < |sh'.gens| ensures GenOk(sh', h) { assert GenOk(sh, h); }
    forall p: nat | p < |sh'.promises| ensures PromiseOk(sh', p) { assert PromiseOk(sh, p); }
  }

  lemma {:induction false} SettleCloseBodyOk(sh: Shared, g: nat, ok: bool)
    requires SharedOk(sh) && g < |sh.gens| && sh.gens[g].phase.Closing?
    requires sh.gens[g].closePromise.Some? && sh.gens[g].closePromise.value < |sh.promises|
    ensures var sh' := SettleCloseBody(sh, g, ok); SharedOk(sh') && Extends(sh, sh') && KeepsDatabases(sh, sh')
  {
    var sh' := SettleCloseBody(sh, g, ok);
    assert GenOk(sh, g);
    forall h: nat | h < |sh'.gens| ensures GenOk(sh', h) { assert GenOk(sh, h); }
    forall p: nat | p < |sh'.promises| ensures PromiseOk(sh', p) { assert PromiseOk(sh, p); }
  }

  lemma {:induction false} ReadyStepOk(sh: Shared, r: nat, status: Status, started: bool)
    requires SharedOk(sh) && r < |sh.promises| && sh.promises[r].kind.ReadyOf? && sh.promises[r].status.Pending?
    requires started
    ensures var sh' := sh.(promises := sh.promises[r := sh.promises[r].(status := status, started := started)]);
      SharedOk(sh') && Extends(sh, sh') && KeepsDatabases(sh, sh')
  {
    var sh' := sh.(promises := sh.promises[r := sh.promises[r].(status := status, started := started)]);
    forall h: nat | h < |sh'.gens| ensures GenOk(sh', h) { assert GenOk(sh, h); }
    forall p: nat | p < |sh'.promises| ensures PromiseOk(sh', p) { assert PromiseOk(sh, p); }
  }

  lemma {:induction false} AfterOwnCloseOk(sh: Shared, me: nat, g: nat, p: nat)
    requires SharedOk(sh) && CloserOk(sh, me, Owning(g, p)) && !sh.promises[p].status.Pending?
    ensures var sh' := AfterOwnClose(sh, g); SharedOk(sh') && Extends(sh, sh') && KeepsDatabases(sh, sh')
  {
    var sh' := AfterOwnClose(sh, g);
    assert PromiseOk(sh, p) && GenOk(sh, g);
    forall h: nat | h < |sh'.gens| ensures GenOk(sh', h) { assert GenOk(sh, h); }
    forall q: nat | q < |sh'.promises| ensures PromiseOk(sh', q) { assert PromiseOk(sh, q); }
  }

  /** The database close's own promise settles; only its owner is in progress, so only it moves. */
  lemma {:induction false} PoolsFinishOk(s: State, pid: nat, ok: bool)
    requires Inv(s) && Enabled(s, PoolsFinish(pid, ok))
    ensures Inv(Apply(s, PoolsFinish(pid, ok)))
  {
    var s' := Apply(s, PoolsFinish(pid, ok));
    assert ProcOk(s.sh, pid, s.procs[pid]);
    forall h: nat | h < |s'.sh.gens| ensures GenOk(s'.sh, h) { assert GenOk(s.sh, h); }
    forall q: nat | q < |s'.sh.promises| ensures PromiseOk(s'.sh, q) { assert PromiseOk(s.sh, q); }
    forall i: nat | i < |s'.procs| ensures ProcOk(s'.sh, i, s'.procs[i]) { assert ProcOk(s.sh, i, s.procs[i]); }
  }

  lemma {:induction false} DatabasePromiseOk(sh: Shared, db: nat, ok: bool)
    requires SharedOk(sh) && IsKind(sh, db, DatabaseClose)
    ensures SharedOk(Settle(sh, db, ok))
  {
    var sh' := Settle(sh, db, ok);
    forall h: nat | h < |sh'.gens| ensures GenOk(sh', h) { assert GenOk(sh, h); }
    forall q: nat | q < |sh'.promises| ensures PromiseOk(sh', q) { assert PromiseOk(sh, q); }
  }

  lemma {:induction false} ForgetDatabaseOk(sh: Shared)
    requires SharedOk(sh) && (sh.dbClose.Some? ==> !sh.promises[sh.dbClose.value].status.Pending?)
    ensures SharedOk(sh.(dbClose := None))
  {
    var sh' := sh.(dbClose := None);
    forall h: nat | h < |sh'.gens| ensures GenOk(sh', h) { assert GenOk(sh, h); }
    forall q: nat | q < |sh'.promises| ensures PromiseOk(sh', q) { assert PromiseOk(sh, q); }
  }

  lemma {:induction false} FinishingOk(s: State, pid: nat, ok: bool)
    requires Inv(s) && Enabled(s, Resume(pid, ok)) && s.procs[pid].DatabaseCloser? && s.procs[pid].dpc.Finishing?
    ensures Inv(Apply(s, Resume(pid, ok)))
  {
    var s' := Apply(s, Resume(pid, ok));
    assert ProcOk(s.sh, pid, s.procs[pid]);
    forall h: nat | h < |s'.sh.gens| ensures GenOk(s'.sh, h) { assert GenOk(s.sh, h); }
    forall q: nat | q < |s'.sh.promises| ensures PromiseOk(s'.sh, q) { assert PromiseOk(s.sh, q); }
    forall i: nat | i < |s'.procs| ensures ProcOk(s'.sh, i, s'.procs[i]) { assert ProcOk(s.sh, i, s.procs[i]); }
  }

  lemma {:induction false} ResumeOk(s: State, pid: nat, ok: bool)
    requires Inv(s) && Enabled(s, Resume(pid, ok))
    ensures Inv(Apply(s, Resume(pid, ok)))
  {
    hide SharedOk, Extends, KeepsDatabases, AcquireHead, AfterOwnClose;
    var proc := s.procs[pid];
    assert ProcOk(s.sh, pid, proc);
    var s' := Apply(s, Resume(pid, ok));
    match proc {
      case Acquirer(AwaitReady(g, r), _, _) =>
        AfterReadyOk(s.sh, g, r);
        KeepProcs(s.sh, s'.sh, s.procs);
      case Acquirer(_, _, _) =>
        AcquireHeadOk(s.sh, pid, ok);
        KeepProcs(s.sh, s'.sh, s.procs);
      case Closer(Owning(g, p)) =>
        AfterOwnCloseOk(s.sh, pid, g, p);
        KeepProcs(s.sh, s'.sh, s.procs);
      case DatabaseCloser(InAdapter(db, Owning(g, p))) =>
        AfterOwnCloseOk(s.sh, pid, g, p);
        KeepProcs(s.sh, s'.sh, s.procs);
      case DatabaseCloser(Finishing(db)) => FinishingOk(s, pid, ok);
      case _ =>
    }
  }

  /** Every step keeps the invariant, with no assumption on the scheduler. */
  lemma {:induction false} StepKeepsInv(s: State, e: Event)
    requires Inv(s) && Enabled(s, e)
    ensures Inv(Apply(s, e))
  {
    var s' := Apply(s, e);
    match e {
      case CallAcquire(ok) => AcquireHeadOk(s.sh, |s.procs|, ok); KeepProcs(s.sh, s'.sh, s.procs);
      case CallGet => GetAdapterOk(s.sh); KeepProcs(s.sh, s'.sh, s.procs);
      case CallClose => CloseHeadOk(s.sh, |s.procs|); KeepProcs(s.sh, s'.sh, s.procs);
      case CallCloseDatabases => CloseDatabasesHeadOk(s);
      case StartReady(r) => ReadyStepOk(s.sh, r, Pending, true); KeepProcs(s.sh, s'.sh, s.procs);
      case SettleReady(r, ok) => ReadyStepOk(s.sh, r, if ok then Fulfilled else Rejected, true); KeepProcs(s.sh, s'.sh, s.procs);
      case CloseBodyResumes(g) => CloseBodyAfterReadyOk(s.sh, g); KeepProcs(s.sh, s'.sh, s.procs);
      case AdapterCloseSettles(g, ok) => SettleCloseBodyOk(s.sh, g, ok); KeepProcs(s.sh, s'.sh, s.procs);
      case PoolsFinish(pid, ok) => PoolsFinishOk(s, pid, ok);
      case Resume(pid, ok) => ResumeOk(s, pid, ok);
    }
  }

  lemma {:induction false} RunKeepsInv(states: seq<State>, events: seq<Event>, i: nat)
    requires Run(states, events) && i < |states|
    ensures Inv(states[i])
  {
    if i > 0 {
      RunKeepsInv(states, events, i - 1);
      StepKeepsInv(states[i - 1], events[i - 1]);
    }
  }

  // ---------------------------------------------------------------- what a caller gets

  predicate Returns(before: State, after: State, pid: nat, g: nat) {
    && pid < |after.procs| && after.procs[pid].Acquirer? && after.procs[pid].pc == Returned(g)
    && !(pid < |before.procs| && before.procs[pid].Acquirer? && before.procs[pid].pc.Returned?)
  }

  /** Current, not closing, readied, never closed, and no database close under way. */
  ghost predicate Live(s: State, g: nat) {
    && s.sh.current == Some(g) && g < |s.sh.gens|
    && !s.sh.gens[g].closing && s.sh.gens[g].closeCalls == 0
    && (exists r :: 0 <= r < |s.sh.promises| && s.sh.promises[r].kind == ReadyOf(g) && s.sh.promises[r].status.Fulfilled?)
    && s.sh.dbClose.None?
    && forall i :: 0 <= i < |s.procs| ==> !ClosingDatabases(s.procs[i])
  }

  /** In every run, whenever an acquirer returns, what it returns is live at that moment. */
  lemma {:induction false} ReturnedAdapterIsLive(states: seq<State>, events: seq<Event>, i: nat, pid: nat, g: nat)
    requires Run(states, events) && i < |events|
    requires Returns(states[i], states[i + 1], pid, g)
    ensures Live(states[i + 1], g)
  {
    var s, s' := states[i], states[i + 1];
    RunKeepsInv(states, events, i);
    RunKeepsInv(states, events, i + 1);
    assert events[i].Resume? && events[i].pid == pid;
    var proc := s.procs[pid];
    assert ProcOk(s.sh, pid, proc);
    assert proc.pc.AwaitReady?;
    assert s'.sh.promises[proc.pc.r].status.Fulfilled?;
    assert GenOk(s'.sh, g);
    forall j | 0 <= j < |s'.procs| ensures !ClosingDatabases(s'.procs[j]) {
      assert ProcOk(s'.sh, j, s'.procs[j]);
    }
  }

  /** In every reachable state at most one caller is closing the databases. */
  lemma {:induction false} OneDatabaseClose(states: seq<State>, events: seq<Event>, i: nat, a: nat, b: nat)
    requires Run(states, events) && i < |states| && a < |states[i].procs| && b < |states[i].procs|
    requires ClosingDatabases(states[i].procs[a]) && ClosingDatabases(states[i].procs[b])
    ensures a == b
  {
    RunKeepsInv(states, events, i);
    assert ProcOk(states[i].sh, a, states[i].procs[a]) && ProcOk(states[i].sh, b, states[i].procs[b]);
  }

  // ---------------------------------------------------------------- generations do not overlap

  predicate ReadyInFlight(sh: Shared, r: nat) {
    r < |sh.promises| && sh.promises[r].kind.ReadyOf? && sh.promises[r].status.Pending? && sh.promises[r].started
  }

  predicate CloseInFlight(sh: Shared, g: nat) {
    g < |sh.gens| && sh.gens[g].phase.Closing?
  }

  /** Every superseded generation has a settled close attempt, `close()` is called at most once
      per generation, at most one `ensureReady()` is in flight, none during or after `close()`,
      and every call in flight is on the current generation's adapter. */
  ghost predicate NoOverlap(sh: Shared) {
    && (forall g: nat :: g < |sh.gens| ==>
          && sh.gens[g].closeCalls <= 1
          && (sh.current != Some(g) ==>
                && sh.gens[g].closePromise.Some? && sh.gens[g].closePromise.value < |sh.promises|
                && !sh.promises[sh.gens[g].closePromise.value].status.Pending?))
    && (forall r: nat, q: nat :: ReadyInFlight(sh, r) && ReadyInFlight(sh, q) ==> r == q)
    && (forall r: nat :: ReadyInFlight(sh, r) ==>
          var g := sh.promises[r].kind.gen;
          sh.current == Some(g) && g < |sh.gens| && sh.gens[g].closeCalls == 0)
    && (forall g: nat :: CloseInFlight(sh, g) ==> sh.current == Some(g))
  }

  lemma {:induction false} GenerationsNeverOverlap(states: seq<State>, events: seq<Event>, i: nat)
    requires Run(states, events) && i < |states|
    ensures NoOverlap(states[i].sh)
  {
    RunKeepsInv(states, events, i);
    var sh := states[i].sh;
    forall g: nat | g < |sh.gens|
      ensures sh.gens[g].closeCalls <= 1
      ensures sh.current != Some(g) ==>
        && sh.gens[g].closePromise.Some? && sh.gens[g].closePromise.value < |sh.promises|
        && !sh.promises[sh.gens[g].closePromise.value].status.Pending?
    {
      assert GenOk(sh, g);
    }
    forall g: nat | CloseInFlight(sh, g) ensures sh.current == Some(g) { assert GenOk(sh, g); }
    forall r: nat | ReadyInFlight(sh, r)
      ensures sh.current == Some(sh.promises[r].kind.gen) && sh.gens[sh.promises[r].kind.gen].readyPromise == Some(r)
      ensures sh.gens[sh.promises[r].kind.gen].closeCalls == 0
    {
      assert PromiseOk(sh, r) && GenOk(sh, sh.promises[r].kind.gen);
    }
  }
}

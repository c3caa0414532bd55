/** Each extra trip round the acquirer's loop is paid for by a close of its own.

    Here the scheduler runs a promise's reactions in registration order, so the process that
    claimed a close clears the configuration's field before any other waiter looks at it.
    Without that order an acquirer could find the same settled close again and again. */
module AdapterProgress {
  import opened Outcomes
  import opened AdapterLifecycle
  import opened AdapterSafety

  /** The close behind `p` is over and can never be met again. */
  ghost predicate Retired(sh: Shared, p: nat) {
    && p < |sh.promises|
    && match sh.promises[p].kind
       case DatabaseClose => sh.dbClose != Some(p)
       case CloseOf(g) => sh.current != Some(g)
       case ReadyOf(_) => false
  }

  predicate CloseWait(pc: AcquirerPc) { pc.AwaitDatabase? || pc.AwaitClose? }

  ghost predicate Distinct(s: seq<nat>) {
    forall j, k :: 0 <= j < k < |s| ==> s[j] != s[k]
  }

  /** The closes an acquirer waited for are distinct, retired (but for the one it awaits), and
      as many as its trips. */
  ghost predicate Paid(sh: Shared, proc: Proc) {
    proc.Acquirer? ==>
      && Distinct(proc.waited)
      && (forall k :: 0 <= k < |proc.waited| ==>
            || Retired(sh, proc.waited[k])
            || (k == |proc.waited| - 1 && CloseWait(proc.pc) && proc.waited[k] < |sh.promises|))
      && (CloseWait(proc.pc) ==> proc.trips + 1 == |proc.waited| && proc.waited[proc.trips] == proc.pc.p)
      && (proc.pc.AwaitReady? ==>
            && proc.trips == |proc.waited|
            && forall k :: 0 <= k < |proc.waited| ==> !IsKind(sh, proc.waited[k], CloseOf(proc.pc.g)))
      && (proc.pc.Returned? ==> proc.trips == |proc.waited|)
      && (proc.pc.Failed? ==> proc.trips <= |proc.waited|)
  }

  predicate Owns(proc: Proc, g: nat, p: nat) {
    || proc == Closer(Owning(g, p))
    || (proc.DatabaseCloser? && proc.dpc.InAdapter? && proc.dpc.sub == Owning(g, p))
  }

  predicate RunsDatabaseClose(proc: Proc, db: nat) {
    ClosingDatabases(proc) && proc.dpc.db == db
  }

  /** Whoever claimed a close the configuration still shows has not got past it. */
  ghost predicate DatabaseOwnerPresent(s: State) {
    s.sh.dbClose.Some? ==>
      var db := s.sh.dbClose.value;
      && db < |s.sh.promises| && s.sh.promises[db].owner < |s.procs|
      && RunsDatabaseClose(s.procs[s.sh.promises[db].owner], db)
  }

  ghost predicate CloseOwnerPresent(s: State) {
    s.sh.current.Some? && s.sh.current.value < |s.sh.gens| && s.sh.gens[s.sh.current.value].closePromise.Some? ==>
      var g := s.sh.current.value;
      var p := s.sh.gens[g].closePromise.value;
      p < |s.sh.promises| && s.sh.promises[p].owner < |s.procs| && Owns(s.procs[s.sh.promises[p].owner], g, p)
  }

  ghost predicate OwnersPresent(s: State) {
    DatabaseOwnerPresent(s) && CloseOwnerPresent(s)
  }

  ghost predicate PayInv(s: State) {
    && Inv(s)
    && OwnersPresent(s)
    && forall i: nat :: i < |s.procs| ==> Paid(s.sh, s.procs[i])
  }

  // ---------------------------------------------------------------- steps keep it

  /** The fields only ever move on to nothing or to something new. */
  ghost predicate MovesOn(sh: Shared, sh': Shared) {
    && Extends(sh, sh')
    && (sh'.dbClose == sh.dbClose || sh'.dbClose.None? || sh'.dbClose.value >= |sh.promises|)
    && (sh'.current == sh.current || sh'.current.None? || sh'.current.value >= |sh.gens|)
  }

  lemma {:induction false} ResumeMovesOn(s: State, pid: nat, ok: bool)
    requires Inv(s) && Enabled(s, Resume(pid, ok))
    ensures MovesOn(s.sh, Apply(s, Resume(pid, ok)).sh)
  {
    var proc := s.procs[pid];
    assert ProcOk(s.sh, pid, proc);
    if proc.Acquirer? && proc.pc.AwaitReady? {
      AfterReadyOk(s.sh, proc.pc.g, proc.pc.r);
    } else if proc.Acquirer? {
      AcquireHeadOk(s.sh, pid, ok);
    }
  }

  lemma {:induction false} StepMovesOn(s: State, e: Event)
    requires Inv(s) && Enabled(s, e)
    ensures MovesOn(s.sh, Apply(s, e).sh)
  {
    hide AfterReady, PromiseOk;
    match e {
      case CallAcquire(ok) => AcquireHeadOk(s.sh, |s.procs|, ok);
      case CallClose => CloseHeadOk(s.sh, |s.procs|);
      case CallCloseDatabases => CloseHeadOk(s.sh, |s.procs|);
      case Resume(pid, ok) => ResumeMovesOn(s, pid, ok);
      case AdapterCloseSettles(g, _) => assert GenOk(s.sh, g);
      case PoolsFinish(pid, _) => assert ProcOk(s.sh, pid, s.procs[pid]);
      case _ =>
    }
  }

  lemma {:induction false} PaidStays(sh: Shared, sh': Shared, proc: Proc)
    requires MovesOn(sh, sh') && SharedOk(sh) && Paid(sh, proc)
    ensures Paid(sh', proc)
  {
    if proc.Acquirer? {
      forall k | 0 <= k < |proc.waited| && Retired(sh, proc.waited[k]) ensures Retired(sh', proc.waited[k]) {
        assert PromiseOk(sh, proc.waited[k]);
      }
      if proc.pc.AwaitReady? {
        forall k | 0 <= k < |proc.waited| ensures !IsKind(sh', proc.waited[k], CloseOf(proc.pc.g)) {
          assert Retired(sh, proc.waited[k]);
        }
      }
    }
  }

  /** A fresh trip from the loop head waits for a close not waited for before. */
  lemma {:induction false} LoopPaid(sh: Shared, me: nat, ok: bool, waited: seq<nat>, trips: nat)
    requires SharedOk(sh) && Distinct(waited) && trips == |waited|
    requires forall k :: 0 <= k < |waited| ==> Retired(sh, waited[k])
    ensures var (sh', proc) := Loop(sh, me, ok, waited, trips); Paid(sh', proc)
  {
    AcquireHeadOk(sh, me, ok);
    GetAdapterOk(sh);
    var (sh', pc) := AcquireHead(sh, me, ok);
    if pc.AwaitClose? {
      assert GenOk(sh, sh.current.value);
    }
    forall k | 0 <= k < |waited| ensures Retired(sh', waited[k]) {
      assert PromiseOk(sh, waited[k]);
    }
  }

  lemma {:induction false} DatabaseOwnerAwaits(s: State)
    requires Inv(s) && DatabaseOwnerPresent(s) && s.sh.dbClose.Some?
    requires !s.sh.promises[s.sh.dbClose.value].status.Pending?
    ensures var db := s.sh.dbClose.value;
      s.sh.promises[db].owner < |s.procs| && s.procs[s.sh.promises[db].owner] == DatabaseCloser(Finishing(db))
  {
    var owner := s.sh.promises[s.sh.dbClose.value].owner;
    assert ProcOk(s.sh, owner, s.procs[owner]);
  }

  /** The close an acquirer was waiting for is retired by the time it resumes. */
  lemma {:induction false} AwaitedCloseIsRetired(s: State, pid: nat, ok: bool)
    requires PayInv(s) && Enabled(s, Resume(pid, ok)) && OwnerFirst(s, Resume(pid, ok))
    requires s.procs[pid].Acquirer? && CloseWait(s.procs[pid].pc)
    ensures Retired(s.sh, s.procs[pid].pc.p)
  {
    var p := s.procs[pid].pc.p;
    assert ProcOk(s.sh, pid, s.procs[pid]) && PromiseOk(s.sh, p);
    if s.sh.dbClose == Some(p) { DatabaseOwnerAwaits(s); }
  }

  lemma {:induction false} AfterReadyPaid(sh: Shared, proc: Proc)
    requires SharedOk(sh) && proc.Acquirer? && proc.pc.AwaitReady? && Paid(sh, proc) && proc.pc.g < |sh.gens|
    requires IsKind(sh, proc.pc.r, ReadyOf(proc.pc.g)) && !sh.promises[proc.pc.r].status.Pending?
    ensures var (sh', next) := AfterReady(sh, proc.pc.g, proc.pc.r);
      next.Some? && Paid(sh', Acquirer(next.value, Noted(next.value, proc.waited), proc.trips))
  {
    assert GenOk(sh, proc.pc.g);
    AfterReadyOk(sh, proc.pc.g, proc.pc.r);
    var (sh', next) := AfterReady(sh, proc.pc.g, proc.pc.r);
    forall k | 0 <= k < |proc.waited| ensures Retired(sh', proc.waited[k]) {
      assert Retired(sh, proc.waited[k]);
    }
  }

  lemma {:induction false} AcquirerResumes(s: State, pid: nat, ok: bool)
    requires PayInv(s) && Enabled(s, Resume(pid, ok)) && OwnerFirst(s, Resume(pid, ok)) && s.procs[pid].Acquirer?
    ensures Paid(Apply(s, Resume(pid, ok)).sh, Apply(s, Resume(pid, ok)).procs[pid])
  {
    var proc := s.procs[pid];
    assert ProcOk(s.sh, pid, proc) && Paid(s.sh, proc);
    if proc.pc.AwaitReady? {
      AfterReadyPaid(s.sh, proc);
    } else {
      AwaitedCloseIsRetired(s, pid, ok);
      if !s.sh.promises[proc.pc.p].status.Rejected? { LoopPaid(s.sh, pid, ok, proc.waited, proc.trips + 1); }
    }
  }

  lemma {:induction false} DatabaseOwnerStays(s: State, e: Event)
    requires Inv(s) && DatabaseOwnerPresent(s) && Enabled(s, e)
    ensures DatabaseOwnerPresent(Apply(s, e))
  {
    var s' := Apply(s, e);
    StepMovesOn(s, e);
    if e.Resume? { assert ProcOk(s.sh, e.pid, s.procs[e.pid]); }
    if e.PoolsFinish? { assert ProcOk(s.sh, e.pid, s.procs[e.pid]); }
    if s'.sh.dbClose.Some? && s'.sh.dbClose != s.sh.dbClose { assert e.CallCloseDatabases?; }
  }

  /** A generation's close promise appears only with its claimant. */
  lemma {:induction false} CloseOwnerStays(s: State, e: Event)
    requires Inv(s) && CloseOwnerPresent(s) && Enabled(s, e)
    ensures CloseOwnerPresent(Apply(s, e))
  {
    var s' := Apply(s, e);
    StepMovesOn(s, e);
    if s'.sh.current.Some? && s'.sh.gens[s'.sh.current.value].closePromise.Some? {
      var g := s'.sh.current.value;
      if g < |s.sh.gens| && s.sh.gens[g].closePromise == s'.sh.gens[g].closePromise {
        assert GenOk(s.sh, g);
        if e.Resume? { assert ProcOk(s.sh, e.pid, s.procs[e.pid]); }
        if e.PoolsFinish? { assert ProcOk(s.sh, e.pid, s.procs[e.pid]); }
      } else {
        ClaimsClose(s, e, g);
      }
    }
  }

  lemma {:induction false} ClaimsClose(s: State, e: Event, g: nat)
    requires Inv(s) && Enabled(s, e) && Apply(s, e).sh.current == Some(g)
    requires g < |Apply(s, e).sh.gens| && Apply(s, e).sh.gens[g].closePromise.Some?
    requires !(g < |s.sh.gens| && s.sh.gens[g].closePromise == Apply(s, e).sh.gens[g].closePromise)
    ensures e.CallClose? || e.CallCloseDatabases?
    ensures CloseOwnerPresent(Apply(s, e))
  {
    if e.Resume? { assert ProcOk(s.sh, e.pid, s.procs[e.pid]); }
    if s.sh.current.Some? { assert GenOk(s.sh, s.sh.current.value); }
  }

  lemma {:induction false} StepKeepsPayInv(s: State, e: Event)
    requires PayInv(s) && Enabled(s, e) && OwnerFirst(s, e)
    ensures PayInv(Apply(s, e))
  {
    hide SharedOk, ProcOk, MovesOn, DatabaseOwnerPresent, CloseOwnerPresent;
    var s' := Apply(s, e);
    StepKeepsInv(s, e);
    StepMovesOn(s, e);
    DatabaseOwnerStays(s, e);
    CloseOwnerStays(s, e);
    forall i: nat | i < |s'.procs| ensures Paid(s'.sh, s'.procs[i]) {
      if i < |s.procs| && s'.procs[i] == s.procs[i] {
        PaidStays(s.sh, s'.sh, s.procs[i]);
      } else if e.CallAcquire? {
        LoopPaid(s.sh, i, e.factoryOk, [], 0);
      } else if e.Resume? && s.procs[i].Acquirer? {
        AcquirerResumes(s, i, e.factoryOk);
      }
    }
  }

  ghost predicate OrderedRun(states: seq<State>, events: seq<Event>) {
    Run(states, events) && forall i :: 0 <= i < |events| ==> OwnerFirst(states[i], events[i])
  }

  lemma {:induction false} RunKeepsPayInv(states: seq<State>, events: seq<Event>, i: nat)
    requires OrderedRun(states, events) && i < |states|
    ensures PayInv(states[i])
  {
    if i > 0 {
      RunKeepsPayInv(states, events, i - 1);
      StepKeepsPayInv(states[i - 1], events[i - 1]);
    }
  }

  // ---------------------------------------------------------------- the bill

  /** The closes claimed so far, of an adapter generation or of the databases. */
  function Claims(sh: Shared): set<nat> {
    set p: nat | p < |sh.promises| && !sh.promises[p].kind.ReadyOf?
  }

  lemma {:induction false} DistinctFit(s: seq<nat>, within: set<nat>)
    requires Distinct(s) && forall k :: 0 <= k < |s| ==> s[k] in within
    ensures |s| <= |within|
  {
    if s != [] {
      var last := s[|s| - 1];
      DistinctFit(s[..|s| - 1], within - {last});
    }
  }

  /** An acquirer's trips are paid for by pairwise different closes: it never makes more trips
      than closes were claimed, and when it returns it made exactly one trip per close met. */
  lemma {:induction false} EveryTripIsPaid(states: seq<State>, events: seq<Event>, i: nat, pid: nat)
    requires OrderedRun(states, events) && i < |states|
    requires pid < |states[i].procs| && states[i].procs[pid].Acquirer?
    ensures var proc := states[i].procs[pid];
      && proc.trips <= |proc.waited| <= |Claims(states[i].sh)|
      && Distinct(proc.waited)
      && (forall k :: 0 <= k < |proc.waited| ==> proc.waited[k] in Claims(states[i].sh))
      && (proc.pc.Returned? ==> proc.trips == |proc.waited|)
  {
    RunKeepsPayInv(states, events, i);
    var proc := states[i].procs[pid];
    assert ProcOk(states[i].sh, pid, proc) && Paid(states[i].sh, proc);
    forall k | 0 <= k < |proc.waited| ensures proc.waited[k] in Claims(states[i].sh) {
      if !Retired(states[i].sh, proc.waited[k]) { assert proc.waited[k] == proc.pc.p; }
    }
    DistinctFit(proc.waited, Claims(states[i].sh));
  }
}

/** When an acquirer fails, and that a failure is never remembered: the next attempt starts afresh. */
module AdapterRetry {
  import opened Outcomes
  import opened AdapterLifecycle
  import opened AdapterSafety

  // ---------------------------------------------------------------- a failed readiness is forgotten

  predicate AwaitsReady(proc: Proc, g: nat, r: nat) {
    proc.Acquirer? && proc.pc == AwaitReady(g, r)
  }

  /** A readiness the generation remembers has succeeded, or its creator still awaits it. */
  ghost predicate RememberedIsAwaited(s: State, g: nat)
    requires g < |s.sh.gens|
  {
    s.sh.gens[g].readyPromise.Some? ==>
      var r := s.sh.gens[g].readyPromise.value;
      r < |s.sh.promises| &&
      (s.sh.promises[r].status.Fulfilled? ||
       (s.sh.promises[r].owner < |s.procs| && AwaitsReady(s.procs[s.sh.promises[r].owner], g, r)))
  }

  ghost predicate Forgets(s: State) { forall g: nat :: g < |s.sh.gens| ==> RememberedIsAwaited(s, g) }

  /** A trip from the loop head remembers only readiness the new activation awaits. */
  lemma {:induction false} HeadForgets(s: State, me: nat, ok: bool, before: State, proc: Proc)
    requires Inv(before) && Forgets(before) && s.sh == AcquireHead(before.sh, me, ok).0
    requires proc.Acquirer? && proc.pc == AcquireHead(before.sh, me, ok).1
    requires me <= |before.procs| && |s.procs| == (if me == |before.procs| then me + 1 else |before.procs|)
    requires s.procs[me] == proc
    requires forall i: nat :: i < |before.procs| && i != me ==> s.procs[i] == before.procs[i]
    requires forall g: nat, r: nat :: me < |before.procs| && AwaitsReady(before.procs[me], g, r) ==>
      g < |before.sh.gens| && before.sh.gens[g].readyPromise != Some(r)
    ensures Forgets(s)
  {
    forall g: nat | g < |s.sh.gens| ensures RememberedIsAwaited(s, g) {
      if g < |before.sh.gens| {
        assert RememberedIsAwaited(before, g) && GenOk(before.sh, g);
      }
    }
  }

  /** A step that touches no remembered readiness and no waiter for one. */
  ghost predicate LeavesReadiness(s: State, s': State) {
    && |s.sh.gens| <= |s'.sh.gens| && |s.sh.promises| <= |s'.sh.promises| && |s.procs| <= |s'.procs|
    && (forall g: nat :: g < |s'.sh.gens| ==>
          s'.sh.gens[g].readyPromise == if g < |s.sh.gens| then s.sh.gens[g].readyPromise else None)
    && (forall r: nat :: r < |s.sh.promises| ==>
          && s'.sh.promises[r].owner == s.sh.promises[r].owner
          && (s.sh.promises[r].status.Fulfilled? ==> s'.sh.promises[r].status.Fulfilled?))
    && (forall pid: nat :: pid < |s.procs| && s.procs[pid].Acquirer? && s.procs[pid].pc.AwaitReady? ==> s'.procs[pid] == s.procs[pid])
  }

  lemma {:induction false} ForgetsStays(s: State, s': State)
    requires Forgets(s) && LeavesReadiness(s, s')
    ensures Forgets(s')
  {
    forall g: nat | g < |s'.sh.gens| ensures RememberedIsAwaited(s', g) {
      if g < |s.sh.gens| { assert RememberedIsAwaited(s, g); }
    }
  }

  lemma {:induction false} StepForgets(s: State, e: Event)
    requires Inv(s) && Forgets(s) && Enabled(s, e)
    ensures Forgets(Apply(s, e))
  {
    hide Forgets, AcquireHead, GenOk, PromiseOk;
    var s' := Apply(s, e);
    match e {
      case CallAcquire(ok) => HeadForgets(s', |s.procs|, ok, s, s'.procs[|s.procs|]);
      case Resume(pid, ok) => ResumeForgets(s, pid, ok);
      case CallGet => ForgetsStays(s, s');
      case CallClose => ForgetsStays(s, s');
      case CallCloseDatabases => ForgetsStays(s, s');
      case StartReady(_) => ForgetsStays(s, s');
      case SettleReady(_, _) => ForgetsStays(s, s');
      case CloseBodyResumes(_) => ForgetsStays(s, s');
      case AdapterCloseSettles(g, _) =>
        assert GenOk(s.sh, g);
        ClosePromisesArePending(s, g);
        ForgetsStays(s, s');
      case PoolsFinish(pid, _) =>
        assert ProcOk(s.sh, pid, s.procs[pid]);
        ForgetsStays(s, s');
    }
  }

  lemma {:induction false} ClosePromisesArePending(s: State, g: nat)
    requires Inv(s) && g < |s.sh.gens| && s.sh.gens[g].phase.Closing?
    ensures s.sh.gens[g].closePromise.Some? && s.sh.gens[g].closePromise.value < |s.sh.promises|
    ensures s.sh.promises[s.sh.gens[g].closePromise.value].status.Pending?
  {
    assert GenOk(s.sh, g);
  }

  lemma {:induction false} ResumeForgets(s: State, pid: nat, ok: bool)
    requires Inv(s) && Forgets(s) && Enabled(s, Resume(pid, ok))
    ensures Forgets(Apply(s, Resume(pid, ok)))
  {
    hide AcquireHead;
    var s' := Apply(s, Resume(pid, ok));
    var proc := s.procs[pid];
    assert ProcOk(s.sh, pid, proc);
    if proc.Acquirer? && proc.pc.AwaitReady? {
      AfterReadyForgets(s, pid, ok);
    } else if proc.Acquirer? && !s.sh.promises[Awaits(proc).value].status.Rejected? {
      HeadForgets(s', pid, ok, s, s'.procs[pid]);
    } else {
      ForgetsStays(s, s');
    }
  }

  /** Whoever learns of a rejected readiness first makes its generation forget it. */
  lemma {:induction false} AfterReadyForgets(s: State, pid: nat, ok: bool)
    requires Inv(s) && Forgets(s) && Enabled(s, Resume(pid, ok)) && s.procs[pid].Acquirer? && s.procs[pid].pc.AwaitReady?
    ensures Forgets(Apply(s, Resume(pid, ok)))
  {
    hide AcquireHead;
    var s' := Apply(s, Resume(pid, ok));
    var proc := s.procs[pid];
    assert ProcOk(s.sh, pid, proc);
    AfterReadyOk(s.sh, proc.pc.g, proc.pc.r);
    assert s'.sh == AfterReady(s.sh, proc.pc.g, proc.pc.r).0;
    assert s'.sh.promises == s.sh.promises;
    forall g: nat | g < |s'.sh.gens| ensures RememberedIsAwaited(s', g) { assert RememberedIsAwaited(s, g); }
  }

  lemma {:induction false} RunForgets(states: seq<State>, events: seq<Event>, i: nat)
    requires Run(states, events) && i < |states|
    ensures Inv(states[i]) && Forgets(states[i])
  {
    RunKeepsInv(states, events, i);
    if i > 0 {
      RunForgets(states, events, i - 1);
      StepForgets(states[i - 1], events[i - 1]);
    }
  }

  /** In every reachable state a generation that remembers a rejected readiness has an acquirer that
      still awaits it, and will forget it. */
  lemma {:induction false} RejectedReadinessIsAwaited(states: seq<State>, events: seq<Event>, i: nat, g: nat, r: nat)
    requires Run(states, events) && i < |states| && g < |states[i].sh.gens|
    requires states[i].sh.gens[g].readyPromise == Some(r)
    ensures r < |states[i].sh.promises|
    ensures states[i].sh.promises[r].status.Rejected? ==>
      exists pid :: 0 <= pid < |states[i].procs| && AwaitsReady(states[i].procs[pid], g, r)
  {
    RunForgets(states, events, i);
    assert RememberedIsAwaited(states[i], g);
  }

  // ---------------------------------------------------------------- who fails

  predicate Fails(before: State, after: State, pid: nat) {
    && pid < |after.procs| && after.procs[pid].Acquirer? && after.procs[pid].pc.Failed?
    && !(pid < |before.procs| && before.procs[pid].Acquirer? && before.procs[pid].pc.Failed?)
  }

  /** What it awaited was rejected. */
  predicate AwaitedRejected(s: State, e: Event, pid: nat) {
    && e.Resume? && e.pid == pid && pid < |s.procs| && s.procs[pid].Acquirer? && Awaits(s.procs[pid]).Some?
    && Awaits(s.procs[pid]).value < |s.sh.promises| && s.sh.promises[Awaits(s.procs[pid]).value].status.Rejected?
  }

  /** It came to create a generation and the factory threw. */
  predicate FactoryThrew(s: State, e: Event, pid: nat) {
    && s.sh.current.None? && s.sh.dbClose.None?
    && ((e == CallAcquire(false) && pid == |s.procs|)
        || (e == Resume(pid, false) && pid < |s.procs| && s.procs[pid].Acquirer? && !s.procs[pid].pc.AwaitReady?))
  }

  /** An acquirer fails in a step exactly when what it awaited was rejected or the factory it needed
      threw. */
  lemma {:induction false} FailsIffSomethingDid(s: State, e: Event, pid: nat)
    requires Inv(s) && Enabled(s, e)
    ensures Fails(s, Apply(s, e), pid) <==> AwaitedRejected(s, e, pid) || FactoryThrew(s, e, pid)
  {
    hide SharedOk;
    var s' := Apply(s, e);
    if e.Resume? {
      var proc := s.procs[e.pid];
      assert ProcOk(s.sh, e.pid, proc);
      if proc.Acquirer? && proc.pc.AwaitReady? {
        AfterReadyOk(s.sh, proc.pc.g, proc.pc.r);
      }
    }
  }

  // ---------------------------------------------------------------- the next attempt succeeds

  /** The events happen one after another and lead from `s` to `t`. */
  ghost predicate Happens(s: State, events: seq<Event>, t: State)
    decreases events
  {
    if events == [] then t == s
    else Enabled(s, events[0]) && Happens(Apply(s, events[0]), events[1..], t)
  }

  /** Nothing closes, and no acquirer has yet to learn of a rejected readiness. */
  ghost predicate Open(s: State) {
    && s.sh.dbClose.None?
    && (s.sh.current.Some? && s.sh.current.value < |s.sh.gens| ==> !s.sh.gens[s.sh.current.value].closing)
    && forall pid: nat :: pid < |s.procs| && s.procs[pid].Acquirer? && s.procs[pid].pc.AwaitReady? ==>
         s.procs[pid].pc.r < |s.sh.promises| && !s.sh.promises[s.procs[pid].pc.r].status.Rejected?
  }

  /** The steps that bring readiness `r` to success, as far as it still has to go. */
  predicate MakesReady(steps: seq<Event>, r: nat) {
    steps == [] || steps == [SettleReady(r, true)] || steps == [StartReady(r), SettleReady(r, true)]
  }

  ghost predicate GetsTheCurrent(t: State, pid: nat) {
    && pid < |t.procs| && t.procs[pid].Acquirer? && t.sh.current.Some?
    && t.procs[pid].pc == Returned(t.sh.current.value)
  }

  /** From every reachable state in which nothing closes and every failure has been delivered, an
      acquire with a working factory and a succeeding `ensureReady()` returns the current adapter. */
  lemma {:induction false} NextAcquireSucceeds(states: seq<State>, events: seq<Event>, i: nat) returns (r: nat, steps: seq<Event>, t: State)
    requires Run(states, events) && i < |states| && Open(states[i])
    ensures MakesReady(steps, r)
    ensures var s := states[i];
      Happens(s, [CallAcquire(true)] + (steps + [Resume(|s.procs|, true)]), t) && GetsTheCurrent(t, |s.procs|)
  {
    var s, me := states[i], |states[i].procs|;
    RunForgets(states, events, i);
    StepKeepsInv(s, CallAcquire(true));
    CallerAwaitsReady(s);
    var s1 := Apply(s, CallAcquire(true));
    r := s1.procs[me].pc.r;
    var s2;
    s2, steps := MadeReady(s1, me, s1.sh.current.value, r);
    t := Apply(s2, Resume(me, true));
    HappensThen(s1, steps, s2, Resume(me, true));
    var more := [CallAcquire(true)] + (steps + [Resume(me, true)]);
    assert more[0] == CallAcquire(true) && more[1..] == steps + [Resume(me, true)];
  }

  lemma {:induction false} CallerAwaitsReady(s: State)
    requires Inv(s) && Forgets(s) && Open(s)
    ensures var s1, me := Apply(s, CallAcquire(true)), |s.procs|;
      && s1.sh.current.Some? && |s1.procs| == me + 1 && s1.procs[me].Acquirer? && s1.procs[me].pc.AwaitReady?
      && var g, r := s1.procs[me].pc.g, s1.procs[me].pc.r;
         && s1.sh.current == Some(g) && g < |s1.sh.gens| && !s1.sh.gens[g].closing
         && r < |s1.sh.promises| && s1.sh.promises[r].kind == ReadyOf(g) && !s1.sh.promises[r].status.Rejected?
  {
    if s.sh.current.Some? { assert RememberedIsAwaited(s, s.sh.current.value) && GenOk(s.sh, s.sh.current.value); }
    StepKeepsInv(s, CallAcquire(true));
  }

  lemma {:induction false} MadeReady(s: State, me: nat, g: nat, r: nat) returns (t: State, steps: seq<Event>)
    requires Inv(s) && me < |s.procs| && AwaitsReady(s.procs[me], g, r) && r < |s.sh.promises| && !s.sh.promises[r].status.Rejected?
    requires s.sh.promises[r].kind == ReadyOf(g) && s.sh.current == Some(g) && !s.sh.gens[g].closing
    ensures MakesReady(steps, r) && Happens(s, steps, t) && Enabled(t, Resume(me, true))
    ensures GetsTheCurrent(Apply(t, Resume(me, true)), me)
  {
    t, steps := s, [];
    if s.sh.promises[r].status.Pending? {
      var started := if s.sh.promises[r].started then s else Apply(s, StartReady(r));
      t := Apply(started, SettleReady(r, true));
      assert [SettleReady(r, true)][1..] == [] && [StartReady(r), SettleReady(r, true)][1..] == [SettleReady(r, true)];
      steps := (if s.sh.promises[r].started then [] else [StartReady(r)]) + [SettleReady(r, true)];
      assert Happens(started, [SettleReady(r, true)], t);
      if s.sh.promises[r].started { assert steps == [SettleReady(r, true)]; }
      else { assert steps == [StartReady(r), SettleReady(r, true)]; }
    }
  }

  lemma {:induction false} HappensThen(s: State, events: seq<Event>, t: State, e: Event)
    requires Happens(s, events, t) && Enabled(t, e)
    ensures Happens(s, events + [e], Apply(t, e))
    decreases events
  {
    if events == [] {
      assert [e][1..] == [] && events + [e] == [e];
    } else {
      HappensThen(Apply(s, events[0]), events[1..], t, e);
      assert (events + [e])[1..] == events[1..] + [e];
    }
  }

  /** A close that awaited readiness `r` rejects exactly when that readiness or its own `close()`
      failed. */
  lemma {:induction false} CloseRejectsIffSomethingFailed(s: State, g: nat, r: nat, ok: bool)
    requires Inv(s) && g < |s.sh.gens| && s.sh.gens[g].phase == AwaitingReady(r) && r < |s.sh.promises| && !s.sh.promises[r].status.Pending?
    ensures Enabled(s, CloseBodyResumes(g))
    ensures var s1 := Apply(s, CloseBodyResumes(g));
      && Enabled(s1, AdapterCloseSettles(g, ok))
      && var t := Apply(s1, AdapterCloseSettles(g, ok));
         && t.sh.gens[g].closePromise.Some? && t.sh.gens[g].closePromise.value < |t.sh.promises|
         && var status := t.sh.promises[t.sh.gens[g].closePromise.value].status;
            status == if ok && s.sh.promises[r].status.Fulfilled? then Fulfilled else Rejected
  {
    assert GenOk(s.sh, g);
    StepKeepsInv(s, CloseBodyResumes(g));
  }

  // ---------------------------------------------------------------- what a close waits for

  /** A generation whose close attempt is over. */
  predicate IsClosed(sh: Shared, g: nat) { g < |sh.gens| && sh.gens[g].phase.Closed? && sh.gens[g].closeCalls == 1 }

  /** It was waiting for the close of a generation, and that is over. */
  ghost predicate AwaitedItsClose(s: State, awaited: Option<nat>) {
    && awaited.Some? && awaited.value < |s.sh.promises|
    && s.sh.promises[awaited.value].kind.CloseOf? && IsClosed(s.sh, s.sh.promises[awaited.value].kind.gen)
  }

  /** A close call is done only without a generation to close, or once the generation it found is
      closed; the call that closed it has then made the configuration forget it. */
  lemma {:induction false} CloseReturnsOnceClosed(s: State, e: Event, pid: nat)
    requires Inv(s) && Enabled(s, e) && pid < |Apply(s, e).procs|
    requires Apply(s, e).procs[pid] == Closer(CloseDone) && (pid < |s.procs| ==> s.procs[pid] != Closer(CloseDone))
    ensures (e == CallClose && s.sh.current.None?) || (e.Resume? && e.pid == pid && pid < |s.procs| && AwaitedItsClose(s, Awaits(s.procs[pid])))
    ensures e.Resume? && pid < |s.procs| && s.procs[pid].Closer? && s.procs[pid].cpc.Owning? ==>
      Apply(s, e).sh.current != Some(s.procs[pid].cpc.g)
  {
    hide AcquireHead;
    if e.Resume? {
      assert ProcOk(s.sh, pid, s.procs[pid]);
      var p := Awaits(s.procs[pid]).value;
      assert PromiseOk(s.sh, p) && GenOk(s.sh, s.sh.promises[p].kind.gen);
    }
  }

  /** A database close reaches the pools only without a generation to close, or once the one it found
      is closed. */
  lemma {:induction false} PoolsAfterTheAdapter(s: State, e: Event, pid: nat)
    requires Inv(s) && Enabled(s, e) && pid < |Apply(s, e).procs|
    requires var after := Apply(s, e).procs[pid]; after.DatabaseCloser? && after.dpc.InPools?
    requires pid < |s.procs| ==> !(s.procs[pid].DatabaseCloser? && s.procs[pid].dpc.InPools?)
    ensures (e == CallCloseDatabases && s.sh.current.None? && s.sh.dbClose.None?)
         || (e.Resume? && e.pid == pid && pid < |s.procs| && AwaitedItsClose(s, Awaits(s.procs[pid])))
  {
    hide AcquireHead;
    if e.Resume? {
      assert ProcOk(s.sh, pid, s.procs[pid]);
      var p := Awaits(s.procs[pid]).value;
      assert PromiseOk(s.sh, p) && GenOk(s.sh, s.sh.promises[p].kind.gen);
    }
  }

  /** A database close call is done only once the close it started or found has settled. */
  lemma {:induction false} DatabaseCloseReturnsOnceSettled(s: State, e: Event, pid: nat)
    requires Inv(s) && Enabled(s, e) && pid < |Apply(s, e).procs|
    requires Apply(s, e).procs[pid] == DatabaseCloser(DatabaseDone) && (pid < |s.procs| ==> s.procs[pid] != DatabaseCloser(DatabaseDone))
    ensures e.Resume? && e.pid == pid && pid < |s.procs| && Awaits(s.procs[pid]).Some?
    ensures var p := Awaits(s.procs[pid]).value;
      p < |s.sh.promises| && s.sh.promises[p].kind.DatabaseClose? && !s.sh.promises[p].status.Pending?
  {
    hide AcquireHead;
    if e.Resume? { assert ProcOk(s.sh, pid, s.procs[pid]); }
  }

  /** The database close's promise settles as its body ends, and is forgotten by its caller. */
  lemma {:induction false} DatabaseCloseSettlesAsItEnds(s: State, pid: nat, ok: bool)
    requires Inv(s) && Enabled(s, PoolsFinish(pid, ok))
    ensures var s1 := Apply(s, PoolsFinish(pid, ok));
      && s.sh.dbClose.Some? && s.sh.dbClose.value < |s1.sh.promises|
      && s1.sh.promises[s.sh.dbClose.value].status == (if ok then Fulfilled else Rejected)
      && Enabled(s1, Resume(pid, true)) && Apply(s1, Resume(pid, true)).sh.dbClose.None?
  {
    assert ProcOk(s.sh, pid, s.procs[pid]);
    StepKeepsInv(s, PoolsFinish(pid, ok));
  }

  /** Asking for the adapter keeps the current generation, or starts one that nothing closes. */
  lemma {:induction false} GettingTheAdapterCreatesOne(s: State)
    requires Inv(s)
    ensures s.sh.current.Some? ==> Apply(s, CallGet) == s
    ensures var sh := Apply(s, CallGet).sh;
      sh.current.Some? && sh.current.value < |sh.gens| && (s.sh.current.None? ==> sh.current.value == |s.sh.gens| && !sh.gens[sh.current.value].closing)
  {
  }
}

/** When a bootstrap call throws, and that nothing it leaves behind keeps a later call from
    succeeding. */
module BootstrapRetry {
  import opened Outcomes
  import opened Bootstrap
  import opened BootstrapSafety

  // ---------------------------------------------------------------- who throws

  predicate Threw(proc: Proc) { proc == ModelsCall(ModelsThrew) || proc == InitCall(InitThrew) }

  /** What the activation awaits was rejected. */
  predicate AwaitedRejected(sh: Shared, proc: Proc) {
    match proc
    case ModelsCall(pc) => ModelsAwaits(pc).Some? && pc.p < |sh.phases| && sh.phases[pc.p].status.Rejected?
    case InitCall(pc) =>
      if pc.AwaitsClose? then pc.c < |sh.closes| && sh.closes[pc.c].Rejected?
      else InitAwaitsBoot(pc).Some? && pc.b < |sh.boots| && sh.boots[pc.b].status.Rejected?
  }

  /** A step makes an activation throw exactly when it resumes it from a rejected phase, bootstrap
      or close. */
  lemma {:induction false} ThrowsIffAwaitedRejected(s: State, e: Event, pid: nat)
    requires Inv(s) && Enabled(s, e) && pid < |Apply(s, e).procs|
    ensures Threw(Apply(s, e).procs[pid]) && (pid < |s.procs| ==> !Threw(s.procs[pid])) <==>
      e.Resume? && e.pid == pid && pid < |s.procs| && AwaitedRejected(s.sh, s.procs[pid])
  {
  }

  /** A bootstrap's own model call throws exactly when its phase was rejected. */
  lemma {:induction false} ModelsStageThrowsIffRejected(s: State, b: nat, skip: bool)
    requires Inv(s) && Enabled(s, BootResumesModels(b, skip))
    ensures var boots := Apply(s, BootResumesModels(b, skip)).sh.boots;
      && b < |boots| && boots[b].stage.InModels?
      && (boots[b].stage.sub.ModelsThrew? <==> s.sh.phases[s.sh.boots[b].stage.sub.p].status.Rejected?)
  {
  }

  predicate PhaseRejected(sh: Shared, p: nat) { p < |sh.phases| && sh.phases[p].status.Rejected? }

  predicate BootRejected(sh: Shared, b: nat) { b < |sh.boots| && sh.boots[b].status.Rejected? }

  /** A phase is rejected only by its own failure. */
  lemma {:induction false} PhaseRejectedIffItFailed(s: State, e: Event, k: nat)
    requires Inv(s) && Enabled(s, e)
    ensures PhaseRejected(Apply(s, e).sh, k) <==> PhaseRejected(s.sh, k) || e == PhaseSettles(k, false)
  {
    hide PhasesOk, BootsOk, ModelsEntry, ModelsResume, InitAfterClose;
    match e {
      case CallInitializeModels(skip) => EntryRejectsNoPhase(s.sh, skip, false, k);
      case CallInitialize(skip) => AfterCloseRejectsNoPhase(s.sh, skip, Nothing, k);
      case BootResumesModels(b, skip) => ResumeRejectsNoPhase(s.sh, s.sh.boots[b].stage.sub, skip, k);
      case Resume(pid, skip) =>
        match s.procs[pid] {
          case ModelsCall(pc) => ResumeRejectsNoPhase(s.sh, pc, skip, k);
          case InitCall(pc) =>
            if pc.AwaitsClose? { AfterCloseRejectsNoPhase(s.sh, skip, pc.prior, k); }
            else if pc.WaitsBoot? { AfterCloseRejectsNoPhase(ClearInit(s.sh, pc.b), skip, Waited(pc.gen, pc.b), k); }
        }
      case _ =>
    }
  }

  lemma {:induction false} EntryRejectsNoPhase(sh: Shared, skip: bool, again: bool, k: nat)
    ensures PhaseRejected(ModelsEntry(sh, skip, again).0, k) <==> PhaseRejected(sh, k)
  {}

  lemma {:induction false} AfterCloseRejectsNoPhase(sh: Shared, skip: bool, prior: Prior, k: nat)
    ensures PhaseRejected(InitAfterClose(sh, skip, prior).0, k) <==> PhaseRejected(sh, k)
  {}

  lemma {:induction false} ResumeRejectsNoPhase(sh: Shared, pc: ModelsPc, skip: bool, k: nat)
    requires ModelsAwaits(pc).Some? && pc.p < |sh.phases|
    ensures PhaseRejected(ModelsResume(sh, pc, skip).0, k) <==> PhaseRejected(sh, k)
  {}

  /** A bootstrap is rejected only by its own failure or that of its model call. */
  lemma {:induction false} BootRejectedIffItFailed(s: State, e: Event, k: nat)
    requires Inv(s) && Enabled(s, e)
    ensures BootRejected(Apply(s, e).sh, k) <==>
      BootRejected(s.sh, k) || e == BootSettles(k, false) || (e == BootLeavesModels(k) && s.sh.boots[k].stage.sub.ModelsThrew?)
  {
    hide PhasesOk, BootsOk, ModelsEntry, ModelsResume, InitAfterClose;
    match e {
      case CallInitializeModels(skip) => EntryLeavesBoots(s.sh, skip, false);
      case CallInitialize(skip) => AfterCloseRejectsNoBoot(s.sh, skip, Nothing, k);
      case BootResumesModels(b, skip) => ResumeMoves(s.sh, s.sh.boots[b].stage.sub, skip);
      case Resume(pid, skip) =>
        match s.procs[pid] {
          case ModelsCall(pc) => ResumeMoves(s.sh, pc, skip);
          case InitCall(pc) =>
            if pc.AwaitsClose? { AfterCloseRejectsNoBoot(s.sh, skip, pc.prior, k); }
            else if pc.WaitsBoot? { AfterCloseRejectsNoBoot(ClearInit(s.sh, pc.b), skip, Waited(pc.gen, pc.b), k); }
        }
      case _ =>
    }
  }

  lemma {:induction false} EntryLeavesBoots(sh: Shared, skip: bool, again: bool)
    ensures ModelsEntry(sh, skip, again).0.boots == sh.boots
  {}

  lemma {:induction false} AfterCloseRejectsNoBoot(sh: Shared, skip: bool, prior: Prior, k: nat)
    ensures BootRejected(InitAfterClose(sh, skip, prior).0, k) <==> BootRejected(sh, k)
  {}

  /** Resuming a model call clears its own phase and memoises none but one it then owns. */
  lemma {:induction false} ResumeMoves(sh: Shared, pc: ModelsPc, skip: bool)
    requires ModelsAwaits(pc).Some? && pc.p < |sh.phases|
    ensures var (sh', pc') := ModelsResume(sh, pc, skip);
      && sh'.boots == sh.boots && sh'.initPromise == sh.initPromise
      && (pc.OwnsPhase? ==> sh'.modelsPromise != Some(pc.p))
      && (sh'.modelsPromise == sh.modelsPromise || sh'.modelsPromise.None?
          || (pc'.OwnsPhase? && sh'.modelsPromise == Some(pc'.p)))
  {}

  /** A call of `initialize` during a database close waits for it and starts nothing. */
  lemma {:induction false} InitializeWaitsForTheClose(s: State, skip: bool, c: nat)
    requires s.sh.closePromise == Some(c)
    ensures Apply(s, CallInitialize(skip)) == State(s.sh, s.procs + [InitCall(AwaitsClose(c, Nothing))])
  {
  }

  /** A close that starts is what is waited for until it has settled and is cleared. */
  lemma {:induction false} CloseIsWaitedForUntilCleared(s: State, ok: bool)
    requires Enabled(s, CloseStarts)
    ensures var s1 := Apply(s, CloseStarts);
      && s1.sh.closePromise.Some? && s1.sh.closePromise.value < |s1.sh.closes| && s1.sh.closes[s1.sh.closePromise.value].Pending?
      && Enabled(s1, CloseSettles(ok, true))
      && var s2 := Apply(s1, CloseSettles(ok, true));
         && s2.sh.closePromise == s1.sh.closePromise && s2.sh.closes[s2.sh.closePromise.value] == (if ok then Fulfilled else Rejected)
         && Enabled(s2, CloseClears) && Apply(s2, CloseClears).sh.closePromise.None?
  {
  }

  /** The owner of a bootstrap that left the configuration uninitialized takes it off the memo. */
  lemma {:induction false} OwnerLeavesNoUselessMemo(s: State, pid: nat, skip: bool, b: nat)
    requires Enabled(s, Resume(pid, skip)) && OwnsInit(s.procs[pid], b)
    requires !s.sh.isInitialized
    ensures Apply(s, Resume(pid, skip)).sh.initPromise != Some(b)
  {
  }

  // ---------------------------------------------------------------- what is memoised has an owner

  predicate Owns(proc: Proc, p: nat) { proc.ModelsCall? && proc.mpc.OwnsPhase? && proc.mpc.p == p }

  predicate StageOwns(boot: Boot, p: nat) {
    boot.status.Pending? && boot.stage.InModels? && boot.stage.sub.OwnsPhase? && boot.stage.sub.p == p
  }

  predicate OwnsInit(proc: Proc, b: nat) { proc.InitCall? && proc.ipc.OwnsBoot? && proc.ipc.b == b }

  ghost predicate PhaseHasOwner(s: State, p: nat) {
    (exists i: nat :: i < |s.procs| && Owns(s.procs[i], p)) || (exists b: nat :: b < |s.sh.boots| && StageOwns(s.sh.boots[b], p))
  }

  ghost predicate BootHasOwner(s: State, b: nat) { exists i: nat :: i < |s.procs| && OwnsInit(s.procs[i], b) }

  /** A memoised phase has an owner that will clear it; a memoised bootstrap has one, or succeeded. */
  ghost predicate Owned(s: State) {
    && (s.sh.modelsPromise.Some? ==> PhaseHasOwner(s, s.sh.modelsPromise.value))
    && (s.sh.initPromise.Some? ==>
          s.sh.initPromise.value < |s.sh.boots|
          && (s.sh.boots[s.sh.initPromise.value].status.Fulfilled? || BootHasOwner(s, s.sh.initPromise.value)))
  }

  /** A step that moves no owner. */
  lemma {:induction false} OwnersStay(s: State, s': State)
    requires Owned(s)
    requires s'.sh.modelsPromise.None? || s'.sh.modelsPromise == s.sh.modelsPromise
    requires s'.sh.initPromise.None? || s'.sh.initPromise == s.sh.initPromise
    requires |s.procs| <= |s'.procs| && forall i: nat :: i < |s.procs| ==> s'.procs[i] == s.procs[i]
    requires |s.sh.boots| <= |s'.sh.boots|
    requires forall b: nat :: b < |s.sh.boots| ==>
      && (s.sh.boots[b].status.Fulfilled? ==> s'.sh.boots[b].status.Fulfilled?)
      && (s.sh.boots[b].stage.InModels? && s.sh.boots[b].stage.sub.OwnsPhase? && s.sh.boots[b].status.Pending? ==> s'.sh.boots[b] == s.sh.boots[b])
    ensures Owned(s')
  {
    if s'.sh.modelsPromise.Some? {
      var p := s.sh.modelsPromise.value;
      if i: nat :| i < |s.procs| && Owns(s.procs[i], p) {
        assert Owns(s'.procs[i], p);
      } else {
        var b: nat :| b < |s.sh.boots| && StageOwns(s.sh.boots[b], p);
        assert StageOwns(s'.sh.boots[b], p);
      }
    }
    if s'.sh.initPromise.Some? && BootHasOwner(s, s.sh.initPromise.value) {
      var i: nat :| i < |s.procs| && OwnsInit(s.procs[i], s.sh.initPromise.value);
      assert OwnsInit(s'.procs[i], s.sh.initPromise.value);
    }
  }

  lemma {:induction false} ModelsMovesOwned(s: State, s': State, me: nat, p: nat)
    requires Owned(s) && me < |s'.procs| && |s'.procs| >= |s.procs|
    requires forall i: nat :: i < |s.procs| && i != me ==> s'.procs[i] == s.procs[i]
    requires me < |s.procs| ==> s.procs[me].ModelsCall?
    requires s'.sh.boots == s.sh.boots && s'.sh.initPromise == s.sh.initPromise
    requires me < |s.procs| && Owns(s.procs[me], p) ==> s'.sh.modelsPromise != Some(p)
    requires me < |s.procs| && s.procs[me].mpc.OwnsPhase? ==> p == s.procs[me].mpc.p
    requires s'.sh.modelsPromise.Some? && s'.sh.modelsPromise != s.sh.modelsPromise ==> Owns(s'.procs[me], s'.sh.modelsPromise.value)
    ensures Owned(s')
  {
    if s'.sh.modelsPromise.Some? {
      var q := s'.sh.modelsPromise.value;
      if s'.sh.modelsPromise != s.sh.modelsPromise {
        assert Owns(s'.procs[me], q);
      } else if i: nat :| i < |s.procs| && Owns(s.procs[i], q) {
        assert i != me;
        assert Owns(s'.procs[i], q);
      }
    }
    if s'.sh.initPromise.Some? && BootHasOwner(s, s.sh.initPromise.value) {
      var i: nat :| i < |s.procs| && OwnsInit(s.procs[i], s.sh.initPromise.value);
      assert OwnsInit(s'.procs[i], s.sh.initPromise.value);
    }
  }

  lemma {:induction false} InitMovesOwned(s: State, s': State, me: nat)
    requires Owned(s) && PhasesOk(s.sh) && BootsOk(s.sh) && me < |s'.procs| && |s'.procs| >= |s.procs|
    requires forall i: nat :: i < |s.procs| && i != me ==> s'.procs[i] == s.procs[i]
    requires me < |s.procs| ==> s.procs[me].InitCall?
    requires me < |s.procs| && s.procs[me].ipc.OwnsBoot? && s'.sh.initPromise == Some(s.procs[me].ipc.b) ==>
      s.procs[me].ipc.b < |s'.sh.boots| && s'.sh.boots[s.procs[me].ipc.b].status.Fulfilled?
    requires |s.sh.boots| <= |s'.sh.boots| && forall b: nat :: b < |s.sh.boots| ==> s'.sh.boots[b] == s.sh.boots[b]
    requires s'.sh.initPromise.Some? && s'.sh.initPromise != s.sh.initPromise ==>
      s'.sh.initPromise.value < |s'.sh.boots| && OwnsInit(s'.procs[me], s'.sh.initPromise.value)
    requires s'.sh.modelsPromise.Some? && s'.sh.modelsPromise != s.sh.modelsPromise ==>
      exists b: nat :: b < |s'.sh.boots| && StageOwns(s'.sh.boots[b], s'.sh.modelsPromise.value)
    ensures Owned(s')
  {
    if s'.sh.modelsPromise.Some? && s'.sh.modelsPromise == s.sh.modelsPromise {
      var q := s.sh.modelsPromise.value;
      if i: nat :| i < |s.procs| && Owns(s.procs[i], q) {
        assert Owns(s'.procs[i], q);
      } else {
        var b: nat :| b < |s.sh.boots| && StageOwns(s.sh.boots[b], q);
        assert StageOwns(s'.sh.boots[b], q);
      }
    }
    if s'.sh.initPromise.Some? {
      var q := s'.sh.initPromise.value;
      if s'.sh.initPromise != s.sh.initPromise {
        assert OwnsInit(s'.procs[me], q);
      } else if i: nat :| i < |s.procs| && OwnsInit(s.procs[i], q) {
        if i != me { assert OwnsInit(s'.procs[i], q); }
      }
    }
  }

  lemma {:induction false} StepKeepsOwned(s: State, e: Event)
    requires Inv(s) && Owned(s) && Enabled(s, e)
    ensures Owned(Apply(s, e))
  {
    hide Inv, PhasesOk, BootsOk, Owned;
    var s' := Apply(s, e);
    match e {
      case CallInitializeModels(skip) => ModelsMovesOwned(s, s', |s.procs|, 0);
      case CallInitialize(skip) =>
        InvShared(s);
        NewBootIsStaged(s.sh, skip, Nothing);
        InitMovesOwned(s, s', |s.procs|);
      case PhaseSettles(p, ok) => OwnersStay(s, s');
      case BootResumesModels(b, skip) => StageResumesOwned(s, b, skip);
      case BootLeavesModels(b) => OwnersStay(s, s');
      case BootSettles(b, ok) => OwnersStay(s, s');
      case Resume(pid, skip) =>
        if s.procs[pid].ModelsCall? { ModelsResumesOwned(s, pid, skip); } else { InitResumesOwned(s, pid, skip); }
      case CloseStarts => OwnersStay(s, s');
      case CloseSettles(_, _) => OwnersStay(s, s');
      case CloseClears => OwnersStay(s, s');
    }
  }

  lemma {:induction false} ModelsResumesOwned(s: State, pid: nat, skip: bool)
    requires Inv(s) && Owned(s) && Enabled(s, Resume(pid, skip)) && s.procs[pid].ModelsCall?
    ensures Owned(Apply(s, Resume(pid, skip)))
  {
    hide Inv, Owned, ModelsResume;
    var s', pc := Apply(s, Resume(pid, skip)), s.procs[pid].mpc;
    ResumeMoves(s.sh, pc, skip);
    ModelsMovesOwned(s, s', pid, pc.p);
  }

  lemma {:induction false} InvShared(s: State)
    requires Inv(s)
    ensures PhasesOk(s.sh) && BootsOk(s.sh)
  {}

  /** A phase that a bootstrap starts is owned by the bootstrap's first stage. */
  lemma {:induction false} NewBootIsStaged(sh: Shared, skip: bool, prior: Prior)
    ensures var (sh', pc) := InitAfterClose(sh, skip, prior);
      && |sh.boots| <= |sh'.boots| && (forall b: nat :: b < |sh.boots| ==> sh'.boots[b] == sh.boots[b])
      && (sh'.initPromise != sh.initPromise ==> pc.OwnsBoot? && sh'.initPromise == Some(pc.b) && pc.b < |sh'.boots|)
      && (sh'.modelsPromise != sh.modelsPromise ==>
            sh'.modelsPromise.Some? && exists b: nat :: b < |sh'.boots| && StageOwns(sh'.boots[b], sh'.modelsPromise.value))
  {
    var (sh', pc) := InitAfterClose(sh, skip, prior);
    if sh'.modelsPromise != sh.modelsPromise {
      assert StageOwns(sh'.boots[|sh.boots|], sh'.modelsPromise.value);
    }
  }

  lemma {:induction false} InitResumesOwned(s: State, pid: nat, skip: bool)
    requires Inv(s) && Owned(s) && Enabled(s, Resume(pid, skip)) && s.procs[pid].InitCall?
    ensures Owned(Apply(s, Resume(pid, skip)))
  {
    hide PhasesOk, BootsOk, Owned, InitAfterClose;
    var s' := Apply(s, Resume(pid, skip));
    var pc := s.procs[pid].ipc;
    if pc.AwaitsClose? {
      NewBootIsStaged(s.sh, skip, pc.prior);
    } else if pc.WaitsBoot? {
      NewBootIsStaged(ClearInit(s.sh, pc.b), skip, Waited(pc.gen, pc.b));
    }
    InitMovesOwned(s, s', pid);
  }

  lemma {:induction false} StageResumesOwned(s: State, b: nat, skip: bool)
    requires Inv(s) && Owned(s) && Enabled(s, BootResumesModels(b, skip))
    ensures Owned(Apply(s, BootResumesModels(b, skip)))
  {
    hide PhasesOk, BootsOk, ModelsResume;
    var s' := Apply(s, BootResumesModels(b, skip));
    ResumeMoves(s.sh, s.sh.boots[b].stage.sub, skip);
    if s'.sh.modelsPromise.Some? {
      var q := s'.sh.modelsPromise.value;
      if s'.sh.modelsPromise != s.sh.modelsPromise {
        assert StageOwns(s'.sh.boots[b], q);
      } else if i: nat :| i < |s.procs| && Owns(s.procs[i], q) {
        assert Owns(s'.procs[i], q);
      } else {
        var c: nat :| c < |s.sh.boots| && StageOwns(s.sh.boots[c], q);
        assert StageOwns(s'.sh.boots[c], q);
      }
    }
  }

  lemma {:induction false} RunKeepsOwned(states: seq<State>, events: seq<Event>, i: nat)
    requires Run(states, events) && i < |states|
    ensures Inv(states[i]) && Owned(states[i])
  {
    RunKeepsInv(states, events, i);
    if i > 0 {
      RunKeepsOwned(states, events, i - 1);
      StepKeepsOwned(states[i - 1], events[i - 1]);
    }
  }

  /** In every reachable state whatever is memoised has an owner that will clear it, except a
      bootstrap that succeeded. */
  lemma {:induction false} MemoisedHasAnOwner(states: seq<State>, events: seq<Event>, i: nat)
    requires Run(states, events) && i < |states|
    ensures var s := states[i];
      && (s.sh.modelsPromise.Some? ==> PhaseHasOwner(s, s.sh.modelsPromise.value))
      && (s.sh.initPromise.Some? && !BootHasOwner(s, s.sh.initPromise.value) ==>
            s.sh.initPromise.value < |s.sh.boots| && s.sh.boots[s.sh.initPromise.value].status.Fulfilled?)
  {
    RunKeepsOwned(states, events, i);
  }

  // ---------------------------------------------------------------- the next call succeeds

  /** The events happen one after another and lead from `s` to `t`. */
  ghost predicate Happens(s: State, events: seq<Event>, t: State)
    decreases events
  {
    if events == [] then t == s
    else Enabled(s, events[0]) && Happens(Apply(s, events[0]), events[1..], t)
  }

  predicate Finished(proc: Proc) {
    match proc
    case ModelsCall(pc) => pc.ModelsReturned? || pc.ModelsThrew?
    case InitCall(pc) => pc.InitReturned? || pc.InitThrew?
  }

  /** No close and no call is under way. */
  ghost predicate Idle(s: State) { s.sh.closePromise.None? && forall i: nat :: i < |s.procs| ==> Finished(s.procs[i]) }

  lemma {:induction false} HappensThen(s: State, events: seq<Event>, t: State, more: seq<Event>, u: State)
    requires Happens(s, events, t) && Happens(t, more, u)
    ensures Happens(s, events + more, u)
    decreases events
  {
    if events == [] {
      assert events + more == more;
    } else {
      HappensThen(Apply(s, events[0]), events[1..], t, more, u);
      assert (events + more)[1..] == events[1..] + more;
    }
  }

  lemma {:induction false} One(s: State, e: Event)
    requires Enabled(s, e)
    ensures Happens(s, [e], Apply(s, e))
  {
    assert [e][1..] == [];
  }

  /** An activation that has started a bootstrap in the generation that still lasts. */
  ghost predicate HasStarted(s: State, me: nat, b: nat) {
    && me < |s.procs| && s.procs[me] == InitCall(OwnsBoot(b, s.sh.gen)) && b < |s.sh.boots|
    && s.sh.boots[b].startGen == s.sh.gen && s.sh.boots[b].status.Pending? && s.sh.boots[b].stage.InModels?
    && var sub := s.sh.boots[b].stage.sub;
       if s.sh.modelsInitialized then sub == ModelsReturned(s.sh.gen)
       else sub.OwnsPhase? && sub.gen == s.sh.gen && sub.p < |s.sh.phases|
            && s.sh.phases[sub.p].status.Pending? && s.sh.phases[sub.p].startGen == s.sh.gen
  }

  /** The events of a bootstrap whose hooks and initializers all succeed. */
  function Succeeding(sh: Shared, b: nat, me: nat): seq<Event>
    requires b < |sh.boots| && sh.boots[b].stage.InModels?
  {
    (if sh.boots[b].stage.sub.OwnsPhase? then [PhaseSettles(sh.boots[b].stage.sub.p, true), BootResumesModels(b, false)] else [])
    + [BootLeavesModels(b), BootSettles(b, true), Resume(me, false)]
  }

  predicate Initialized(s: State, me: nat) {
    me < |s.procs| && s.procs[me] == InitCall(InitReturned(s.sh.gen)) && s.sh.isInitialized && s.sh.modelsInitialized
  }

  lemma {:induction false} StartedSucceeds(s: State, me: nat, b: nat) returns (t: State)
    requires HasStarted(s, me, b)
    ensures Happens(s, Succeeding(s.sh, b, me), t) && Initialized(t, me)
  {
    var first := if s.sh.boots[b].stage.sub.OwnsPhase? then [PhaseSettles(s.sh.boots[b].stage.sub.p, true), BootResumesModels(b, false)] else [];
    var u := s;
    if s.sh.boots[b].stage.sub.OwnsPhase? {
      var s1 := Apply(s, PhaseSettles(s.sh.boots[b].stage.sub.p, true));
      u := Apply(s1, BootResumesModels(b, false));
      One(s, first[0]);
      One(s1, first[1]);
      HappensThen(s, [first[0]], s1, [first[1]], u);
      assert first == [first[0]] + [first[1]];
    }
    assert u.sh.boots[b].stage == InModels(ModelsReturned(s.sh.gen)) && u.sh.modelsInitialized;
    t := ReadyToLeaveSucceeds(u, me, b);
    HappensThen(s, first, u, [BootLeavesModels(b), BootSettles(b, true), Resume(me, false)], t);
  }

  lemma {:induction false} ReadyToLeaveSucceeds(s: State, me: nat, b: nat) returns (t: State)
    requires me < |s.procs| && s.procs[me] == InitCall(OwnsBoot(b, s.sh.gen)) && b < |s.sh.boots|
    requires s.sh.boots[b].startGen == s.sh.gen && s.sh.boots[b].status.Pending?
    requires s.sh.boots[b].stage == InModels(ModelsReturned(s.sh.gen)) && s.sh.modelsInitialized
    ensures Happens(s, [BootLeavesModels(b), BootSettles(b, true), Resume(me, false)], t) && Initialized(t, me)
  {
    var s1 := Apply(s, BootLeavesModels(b));
    var s2 := Apply(s1, BootSettles(b, true));
    t := Apply(s2, Resume(me, false));
    One(s, BootLeavesModels(b));
    One(s1, BootSettles(b, true));
    One(s2, Resume(me, false));
    HappensThen(s1, [BootSettles(b, true)], s2, [Resume(me, false)], t);
    HappensThen(s, [BootLeavesModels(b)], s1, [BootSettles(b, true)] + [Resume(me, false)], t);
    assert [BootLeavesModels(b)] + ([BootSettles(b, true)] + [Resume(me, false)]) ==
           [BootLeavesModels(b), BootSettles(b, true), Resume(me, false)];
  }

  /** Nothing is memoised in an idle state but possibly a bootstrap that succeeded. */
  lemma {:induction false} IdleMemoisesNothing(s: State)
    requires Inv(s) && Owned(s) && Idle(s)
    ensures s.sh.modelsPromise.None?
    ensures s.sh.initPromise.Some? ==> s.sh.initPromise.value < |s.sh.boots| && s.sh.boots[s.sh.initPromise.value].status.Fulfilled?
  {
    forall i: nat, k: nat | i < |s.procs| ensures !Owns(s.procs[i], k) && !OwnsInit(s.procs[i], k) { assert Finished(s.procs[i]); }
    forall b: nat, k: nat | b < |s.sh.boots| ensures !StageOwns(s.sh.boots[b], k) { assert BootOk(s.sh, b); }
  }

  /** A call in an idle state starts a bootstrap, after passing a memoised one that succeeded. */
  lemma {:induction false} IdleStarts(s: State) returns (waits: seq<Event>, t: State)
    requires Inv(s) && Owned(s) && Idle(s) && !s.sh.isInitialized
    ensures Happens(s, [CallInitialize(false)] + waits, t) && HasStarted(t, |s.procs|, |s.sh.boots|)
    ensures waits == [] || waits == [Resume(|s.procs|, false)]
    ensures t.sh.modelsInitialized == s.sh.modelsInitialized
  {
    var me := |s.procs|;
    IdleMemoisesNothing(s);
    t, waits := Apply(s, CallInitialize(false)), [];
    One(s, CallInitialize(false));
    assert [CallInitialize(false)] + [] == [CallInitialize(false)];
    if s.sh.initPromise.Some? {
      var s1 := t;
      t, waits := Apply(s1, Resume(me, false)), [Resume(me, false)];
      One(s1, Resume(me, false));
      HappensThen(s, [CallInitialize(false)], s1, waits, t);
    }
  }

  predicate Succeeds(e: Event, me: nat) {
    match e
    case PhaseSettles(_, ok) => ok
    case BootSettles(_, ok) => ok
    case BootResumesModels(_, _) => true
    case BootLeavesModels(_) => true
    case Resume(pid, _) => pid == me
    case _ => false
  }

  lemma {:induction false} IdleCallSucceeds(s: State) returns (more: seq<Event>, t: State)
    requires Inv(s) && Owned(s) && Idle(s) && !s.sh.isInitialized
    ensures Happens(s, [CallInitialize(false)] + more, t) && Initialized(t, |s.procs|)
    ensures forall e :: e in more ==> Succeeds(e, |s.procs|) && (s.sh.modelsInitialized ==> !e.PhaseSettles?)
  {
    hide *;
    var me, b := |s.procs|, |s.sh.boots|;
    var waits, started := IdleStarts(s);
    StartedIsStaged(started, me, b);
    t := StartedSucceeds(started, me, b);
    var rest := Succeeding(started.sh, b, me);
    OnlySuccesses(started, me, b);
    WaitIsASuccess(me);
    more := waits + rest;
    HappensThen(s, [CallInitialize(false)] + waits, started, rest, t);
    Associates([CallInitialize(false)], waits, rest);
  }

  lemma {:induction false} Associates(a: seq<Event>, b: seq<Event>, c: seq<Event>)
    ensures (a + b) + c == a + (b + c)
  {}

  lemma {:induction false} StartedIsStaged(s: State, me: nat, b: nat)
    requires HasStarted(s, me, b)
    ensures b < |s.sh.boots| && s.sh.boots[b].stage.InModels?
  {}

  lemma {:induction false} WaitIsASuccess(me: nat)
    ensures Succeeds(Resume(me, false), me)
  {}

  lemma {:induction false} OnlySuccesses(s: State, me: nat, b: nat)
    requires HasStarted(s, me, b)
    ensures forall e :: e in Succeeding(s.sh, b, me) ==> Succeeds(e, me) && (s.sh.modelsInitialized ==> !e.PhaseSettles?)
  {}

  /** From every reachable idle state a call of `initialize` whose hooks and initializers succeed
      returns, with both flags set; models already initialized are not initialized again. */
  lemma {:induction false} IdleInitializeSucceeds(states: seq<State>, events: seq<Event>, i: nat) returns (more: seq<Event>, t: State)
    requires Run(states, events) && i < |states| && Idle(states[i])
    ensures var s, me := states[i], |states[i].procs|;
      && Happens(s, [CallInitialize(false)] + more, t) && Initialized(t, me)
      && (s.sh.isInitialized ==> more == [])
      && (forall e :: e in more ==> Succeeds(e, me) && (s.sh.modelsInitialized ==> !e.PhaseSettles?))
  {
    var s, me := states[i], |states[i].procs|;
    RunKeepsOwned(states, events, i);
    if s.sh.isInitialized {
      more, t := [], Apply(s, CallInitialize(false));
      One(s, CallInitialize(false));
      FlagsAreEarned(states, events, i);
      assert [CallInitialize(false)] + more == [CallInitialize(false)];
    } else {
      more, t := IdleCallSucceeds(s);
    }
  }

  /** The same for `initializeModels` alone. */
  lemma {:induction false} IdleInitializeModelsSucceeds(states: seq<State>, events: seq<Event>, i: nat) returns (t: State)
    requires Run(states, events) && i < |states| && Idle(states[i]) && !states[i].sh.modelsInitialized
    ensures var s, me := states[i], |states[i].procs|;
      && Happens(s, [CallInitializeModels(false), PhaseSettles(|s.sh.phases|, true), Resume(me, false)], t)
      && me < |t.procs| && t.procs[me] == ModelsCall(ModelsReturned(t.sh.gen)) && t.sh.modelsInitialized
  {
    var s, me := states[i], |states[i].procs|;
    RunKeepsOwned(states, events, i);
    IdleMemoisesNothing(s);
    var p := |s.sh.phases|;
    var s1 := Apply(s, CallInitializeModels(false));
    var s2 := Apply(s1, PhaseSettles(p, true));
    t := Apply(s2, Resume(me, false));
    One(s, CallInitializeModels(false));
    One(s1, PhaseSettles(p, true));
    One(s2, Resume(me, false));
    HappensThen(s1, [PhaseSettles(p, true)], s2, [Resume(me, false)], t);
    HappensThen(s, [CallInitializeModels(false)], s1, [PhaseSettles(p, true)] + [Resume(me, false)], t);
    assert [CallInitializeModels(false)] + ([PhaseSettles(p, true)] + [Resume(me, false)]) ==
           [CallInitializeModels(false), PhaseSettles(p, true), Resume(me, false)];
  }

  /** The first call on a fresh configuration, event by event. */
  lemma {:induction false} FreshInitializeSucceeds() returns (t: State)
    ensures Happens(INIT, [CallInitialize(false), PhaseSettles(0, true), BootResumesModels(0, false), BootLeavesModels(0),
                           BootSettles(0, true), Resume(0, false)], t)
    ensures t.procs == [InitCall(InitReturned(0))] && t.sh.isInitialized && t.sh.modelsInitialized
  {
    var s1 := Apply(INIT, CallInitialize(false));
    One(INIT, CallInitialize(false));
    t := StartedSucceeds(s1, 0, 0);
    var more := Succeeding(s1.sh, 0, 0);
    assert more == [PhaseSettles(0, true), BootResumesModels(0, false), BootLeavesModels(0), BootSettles(0, true), Resume(0, false)];
    HappensThen(INIT, [CallInitialize(false)], s1, more, t);
    assert [CallInitialize(false)] + more ==
           [CallInitialize(false), PhaseSettles(0, true), BootResumesModels(0, false), BootLeavesModels(0), BootSettles(0, true), Resume(0, false)];
    KeepsProcCount(s1, more, t);
  }

  lemma {:induction false} KeepsProcCount(s: State, events: seq<Event>, t: State)
    requires Happens(s, events, t) && forall e :: e in events ==> !e.CallInitialize? && !e.CallInitializeModels?
    requires forall e :: e in events ==> !e.CloseSettles?
    ensures |t.procs| == |s.procs| && t.sh.gen == s.sh.gen
    decreases events
  {
    if events != [] { KeepsProcCount(Apply(s, events[0]), events[1..], t); }
  }
}

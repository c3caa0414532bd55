/** What every run of the bootstrap protocol keeps. */
module BootstrapSafety {
  import opened Outcomes
  import opened Bootstrap

  // ---------------------------------------------------------------- the invariant

  /** Phases: the memoised one is the newest, a pending one is memoised, and a
      phase that succeeded in the current generation has set the flag. */
  ghost predicate PhasesOk(sh: Shared) {
    && (sh.modelsPromise.Some? ==> sh.modelsPromise.value + 1 == |sh.phases|)
    && (forall p: nat :: p < |sh.phases| ==>
          && sh.phases[p].startGen <= sh.gen
          && (sh.phases[p].status.Pending? ==> sh.modelsPromise == Some(p))
          && (sh.phases[p].status.Fulfilled? && sh.phases[p].startGen == sh.gen ==> sh.modelsInitialized))
    && (sh.modelsInitialized ==> ModelsEarned(sh))
  }

  /** A complete phase started and finished in the current generation. */
  ghost predicate ModelsEarned(sh: Shared) {
    exists p: nat :: p < |sh.phases| && sh.phases[p] == Phase(sh.gen, Fulfilled, sh.gen)
  }

  ghost predicate BootsOk(sh: Shared) {
    && (sh.initPromise.Some? ==> sh.initPromise.value + 1 == |sh.boots|)
    && (forall b: nat :: b < |sh.boots| ==> BootOk(sh, b))
    && (sh.isInitialized ==> sh.modelsInitialized && BootEarned(sh))
  }

  ghost predicate BootOk(sh: Shared, b: nat)
    requires b < |sh.boots|
  {
    var boot := sh.boots[b];
    && boot.startGen <= sh.gen
    && (boot.status.Pending? ==> sh.initPromise == Some(b))
    && (boot.status.Fulfilled? && boot.startGen == sh.gen ==> sh.isInitialized)
    && (boot.stage.InModels? ==>
          ModelsPcOk(sh, boot.stage.sub) && (boot.stage.sub.ModelsThrew? || boot.stage.sub.gen == boot.startGen))
    && (boot.stage.InInitializers? && boot.startGen == sh.gen ==> sh.modelsInitialized)
  }

  ghost predicate BootEarned(sh: Shared) {
    exists b: nat :: b < |sh.boots| && DoneNow(sh, b)
  }

  predicate DoneNow(sh: Shared, b: nat)
    requires b < |sh.boots|
  {
    var boot := sh.boots[b];
    boot.startGen == boot.endGen == sh.gen && boot.status.Fulfilled? && boot.stage.InInitializers?
  }

  ghost predicate ModelsPcOk(sh: Shared, pc: ModelsPc) {
    match pc
    case OwnsPhase(p, gen) => p < |sh.phases| && sh.phases[p].startGen == gen <= sh.gen
    case WaitsPhase(p, gen, again) =>
      && p < |sh.phases| && gen <= sh.gen
      && (forall q: nat :: p < q < |sh.phases| ==> gen <= sh.phases[q].startGen)
      && (again ==> gen <= sh.phases[p].startGen)
    case ModelsReturned(gen) => gen <= sh.gen && (sh.gen == gen ==> sh.modelsInitialized)
    case ModelsThrew => true
  }

  ghost predicate PriorOk(sh: Shared, prior: Prior) {
    prior.Waited? ==>
      && prior.gen <= sh.gen && prior.p < |sh.boots|
      && (sh.initPromise.Some? ==> sh.initPromise.value > prior.p)
      && (forall c: nat :: prior.p < c < |sh.boots| ==> prior.gen <= sh.boots[c].startGen)
  }

  ghost predicate InitPcOk(sh: Shared, pc: InitPc) {
    match pc
    case AwaitsClose(_, prior) => PriorOk(sh, prior)
    case OwnsBoot(b, gen) => b < |sh.boots| && sh.boots[b].startGen == gen <= sh.gen
    case WaitsBoot(b, gen, again) =>
      && b < |sh.boots| && gen <= sh.gen
      && (forall c: nat :: b < c < |sh.boots| ==> gen <= sh.boots[c].startGen)
      && (again ==> gen <= sh.boots[b].startGen)
    case InitReturned(gen) => gen <= sh.gen && (sh.gen == gen ==> sh.isInitialized)
    case InitThrew => true
  }

  ghost predicate ProcOk(sh: Shared, proc: Proc) {
    match proc
    case ModelsCall(pc) => ModelsPcOk(sh, pc)
    case InitCall(pc) => InitPcOk(sh, pc)
  }

  ghost predicate Inv(s: State) {
    PhasesOk(s.sh) && BootsOk(s.sh) && forall i: nat :: i < |s.procs| ==> ProcOk(s.sh, s.procs[i])
  }

  // ---------------------------------------------------------------- stability

  /** What the other activations rely on: generations and phases only grow, new phases start in
      the current generation, and a flag falls only with a bump. */
  ghost predicate Extends(sh: Shared, sh': Shared) {
    && sh.gen <= sh'.gen
    && |sh.phases| <= |sh'.phases| && |sh.boots| <= |sh'.boots|
    && (forall p: nat :: p < |sh.phases| ==> sh'.phases[p].startGen == sh.phases[p].startGen)
    && (forall p: nat :: |sh.phases| <= p < |sh'.phases| ==> sh'.phases[p].startGen >= sh.gen)
    && (forall b: nat :: b < |sh.boots| ==> sh'.boots[b].startGen == sh.boots[b].startGen)
    && (forall b: nat :: |sh.boots| <= b < |sh'.boots| ==> sh'.boots[b].startGen >= sh.gen)
    && (sh'.initPromise == sh.initPromise || sh'.initPromise.None? || sh'.initPromise.value >= |sh.boots|)
    && (sh.gen == sh'.gen && sh.modelsInitialized ==> sh'.modelsInitialized)
    && (sh.gen == sh'.gen && sh.isInitialized ==> sh'.isInitialized)
  }

  lemma {:induction false} ExtendsTransitive(a: Shared, b: Shared, c: Shared)
    requires Extends(a, b) && Extends(b, c)
    ensures Extends(a, c)
  {
  }

  lemma {:induction false} ProcsStay(sh: Shared, sh': Shared, procs: seq<Proc>)
    requires Extends(sh, sh')
    requires forall i: nat :: i < |procs| ==> ProcOk(sh, procs[i])
    ensures forall i: nat :: i < |procs| ==> ProcOk(sh', procs[i])
  {
    forall i: nat | i < |procs| ensures ProcOk(sh', procs[i]) {
      assert ProcOk(sh, procs[i]);
    }
  }

  /** A flag once earned stays earned while its generation lasts and settled runs are kept. */
  lemma {:induction false} EarnedStays(sh: Shared, sh': Shared)
    requires sh'.gen == sh.gen && |sh.phases| <= |sh'.phases| && |sh.boots| <= |sh'.boots|
    requires forall p: nat :: p < |sh.phases| && sh.phases[p].status.Fulfilled? ==> sh'.phases[p] == sh.phases[p]
    requires forall b: nat :: b < |sh.boots| && sh.boots[b].status.Fulfilled? ==> sh'.boots[b] == sh.boots[b]
    ensures ModelsEarned(sh) ==> ModelsEarned(sh')
    ensures BootEarned(sh) ==> BootEarned(sh')
  {
    if ModelsEarned(sh) {
      var p: nat :| p < |sh.phases| && sh.phases[p] == Phase(sh.gen, Fulfilled, sh.gen);
      assert sh'.phases[p] == sh.phases[p];
    }
    if BootEarned(sh) {
      var b: nat :| b < |sh.boots| && DoneNow(sh, b);
      assert DoneNow(sh', b);
    }
  }

  /** Bootstraps are undisturbed by a change that touches only model phases. */
  lemma {:induction false} BootsStay(sh: Shared, sh': Shared)
    requires BootsOk(sh) && Extends(sh, sh') && sh'.gen == sh.gen
    requires sh'.boots == sh.boots && sh'.initPromise == sh.initPromise && sh'.isInitialized == sh.isInitialized
    ensures BootsOk(sh')
  {
    forall b: nat | b < |sh'.boots| ensures BootOk(sh', b) { assert BootOk(sh, b); }
    if BootEarned(sh) {
      var b: nat :| b < |sh.boots| && DoneNow(sh, b);
      assert DoneNow(sh', b);
    }
  }

  // ---------------------------------------------------------------- initializeModels

  lemma {:induction false} ClearModelsOk(sh: Shared, p: nat)
    requires PhasesOk(sh) && BootsOk(sh) && p < |sh.phases| && !sh.phases[p].status.Pending?
    ensures var sh' := ClearModels(sh, p); PhasesOk(sh') && BootsOk(sh') && Extends(sh, sh')
    ensures ClearModels(sh, p).modelsPromise.Some? ==> ClearModels(sh, p).modelsPromise.value > p
  {
    var sh' := ClearModels(sh, p);
    if sh.modelsInitialized { assert ModelsEarned(sh'); }
    BootsStay(sh, sh');
  }

  lemma {:induction false} ModelsEntryOk(sh: Shared, skip: bool)
    requires PhasesOk(sh) && BootsOk(sh)
    ensures var (sh', pc) := ModelsEntry(sh, skip, false);
      && PhasesOk(sh') && BootsOk(sh') && Extends(sh, sh') && ModelsPcOk(sh', pc) && !pc.ModelsThrew? && pc.gen == sh.gen
      && sh'.boots == sh.boots && sh'.initPromise == sh.initPromise && sh'.isInitialized == sh.isInitialized
  {
    var (sh', pc) := ModelsEntry(sh, skip, false);
    if pc.OwnsPhase? {
      assert sh'.phases[pc.p].startGen == sh.gen;
      if skip { assert sh'.phases[pc.p] == Phase(sh'.gen, Fulfilled, sh'.gen); }
    }
    BootsStay(sh, sh');
  }

  /** A waiter that retries under the same generation waits only for a phase of that generation. */
  lemma {:induction false} ModelsRetryOk(sh: Shared, skip: bool, p: nat, gen: nat)
    requires PhasesOk(sh) && BootsOk(sh) && gen == sh.gen
    requires p < |sh.phases| && (sh.modelsPromise.Some? ==> sh.modelsPromise.value > p)
    requires forall q: nat :: p < q < |sh.phases| ==> gen <= sh.phases[q].startGen
    ensures var (sh', pc) := ModelsEntry(sh, skip, true);
      && PhasesOk(sh') && BootsOk(sh') && Extends(sh, sh') && ModelsPcOk(sh', pc) && !pc.ModelsThrew? && pc.gen == gen
      && sh'.boots == sh.boots && sh'.initPromise == sh.initPromise && sh'.isInitialized == sh.isInitialized
  {
    ModelsEntryOk(sh, skip);
  }

  lemma {:induction false} ModelsResumeOk(sh: Shared, pc: ModelsPc, skip: bool)
    requires PhasesOk(sh) && BootsOk(sh) && ModelsPcOk(sh, pc) && ModelsAwaits(pc).Some?
    requires !sh.phases[pc.p].status.Pending?
    ensures var (sh', pc') := ModelsResume(sh, pc, skip);
      && PhasesOk(sh') && BootsOk(sh') && Extends(sh, sh') && ModelsPcOk(sh', pc')
      && (pc'.ModelsThrew? || pc'.gen == pc.gen)
      && sh'.boots == sh.boots && sh'.initPromise == sh.initPromise && sh'.isInitialized == sh.isInitialized
    ensures pc.WaitsPhase? && pc.again ==>
      ModelsResume(sh, pc, skip).1.ModelsReturned? || ModelsResume(sh, pc, skip).1.ModelsThrew?
  {
    ClearModelsOk(sh, pc.p);
    if pc.WaitsPhase? && !sh.phases[pc.p].status.Rejected? && sh.gen == pc.gen && !sh.modelsInitialized {
      ModelsRetryOk(ClearModels(sh, pc.p), skip, pc.p, pc.gen);
      ExtendsTransitive(sh, ClearModels(sh, pc.p), ModelsResume(sh, pc, skip).0);
    }
  }

  lemma {:induction false} SettlePhaseOk(sh: Shared, p: nat, ok: bool)
    requires PhasesOk(sh) && BootsOk(sh) && p < |sh.phases| && sh.phases[p].status.Pending?
    ensures var sh' := SettlePhase(sh, p, ok); PhasesOk(sh') && BootsOk(sh') && Extends(sh, sh')
  {
    var sh' := SettlePhase(sh, p, ok);
    if sh'.modelsInitialized {
      if sh.modelsInitialized {
        var q: nat :| q < |sh.phases| && sh.phases[q] == Phase(sh.gen, Fulfilled, sh.gen);
        assert sh'.phases[q] == Phase(sh'.gen, Fulfilled, sh'.gen);
      } else {
        assert sh'.phases[p] == Phase(sh'.gen, Fulfilled, sh'.gen);
      }
    }
    BootsStay(sh, sh');
  }

  // ---------------------------------------------------------------- initialize

  lemma {:induction false} ClearInitOk(sh: Shared, b: nat)
    requires PhasesOk(sh) && BootsOk(sh) && b < |sh.boots| && !sh.boots[b].status.Pending?
    ensures var sh' := ClearInit(sh, b); PhasesOk(sh') && BootsOk(sh') && Extends(sh, sh')
    ensures ClearInit(sh, b).initPromise.Some? ==> ClearInit(sh, b).initPromise.value > b
  {
    var sh' := ClearInit(sh, b);
    EarnedStays(sh, sh');
    forall c: nat | c < |sh'.boots| ensures BootOk(sh', c) { assert BootOk(sh, c); }
  }

  lemma {:induction false} InitAfterCloseOk(sh: Shared, skip: bool, prior: Prior)
    requires PhasesOk(sh) && BootsOk(sh) && PriorOk(sh, prior)
    ensures var (sh', pc) := InitAfterClose(sh, skip, prior);
      PhasesOk(sh') && BootsOk(sh') && Extends(sh, sh') && InitPcOk(sh', pc)
  {
    var (sh', pc) := InitAfterClose(sh, skip, prior);
    if pc.OwnsBoot? {
      ModelsEntryOk(sh, skip);
      var (sh1, sub) := ModelsEntry(sh, skip, false);
      EarnedStays(sh1, sh');
      forall b: nat | b < |sh'.boots| ensures BootOk(sh', b) && sh'.boots[b].startGen <= sh.gen {
        if b < |sh1.boots| { assert BootOk(sh1, b); }
      }
    }
  }

  /** The retry of a waiter whose bootstrap settled without initializing anything. */
  lemma {:induction false} InitRetryOk(sh: Shared, b: nat, gen: nat, skip: bool)
    requires PhasesOk(sh) && BootsOk(sh) && gen == sh.gen && b < |sh.boots| && !sh.boots[b].status.Pending?
    requires forall c: nat :: b < c < |sh.boots| ==> gen <= sh.boots[c].startGen
    ensures var (sh', pc') := InitEntry(ClearInit(sh, b), skip, Waited(gen, b));
      PhasesOk(sh') && BootsOk(sh') && Extends(sh, sh') && InitPcOk(sh', pc')
  {
    ClearInitOk(sh, b);
    var sh1 := ClearInit(sh, b);
    InitAfterCloseOk(sh1, skip, Waited(gen, b));
    ExtendsTransitive(sh, sh1, InitEntry(sh1, skip, Waited(gen, b)).0);
  }

  lemma {:induction false} InitResumeOk(sh: Shared, pc: InitPc, skip: bool)
    requires PhasesOk(sh) && BootsOk(sh) && InitPcOk(sh, pc)
    requires pc.AwaitsClose? ==> pc.c < |sh.closes|
    requires pc.AwaitsClose? || (InitAwaitsBoot(pc).Some? && !sh.boots[pc.b].status.Pending?)
    ensures var (sh', pc') := InitResume(sh, pc, skip);
      PhasesOk(sh') && BootsOk(sh') && Extends(sh, sh') && InitPcOk(sh', pc')
    ensures pc.WaitsBoot? && pc.again ==> InitResume(sh, pc, skip).1.InitReturned? || InitResume(sh, pc, skip).1.InitThrew?
  {
    hide ModelsPcOk, ModelsEntry, InitAfterClose, PhasesOk, BootEarned, PriorOk;
    match pc {
      case AwaitsClose(c, prior) => InitAfterCloseOk(sh, skip, prior);
      case OwnsBoot(b, gen) => assert BootOk(sh, b); ClearInitOk(sh, b);
      case WaitsBoot(b, gen, again) =>
        assert BootOk(sh, b);
        if sh.gen == gen { InitRetryOk(sh, b, gen, skip); }
    }
  }

  lemma {:induction false} BootAfterModelsOk(sh: Shared, b: nat)
    requires PhasesOk(sh) && BootsOk(sh) && b < |sh.boots| && sh.boots[b].status.Pending? && sh.boots[b].stage.InModels?
    requires sh.boots[b].stage.sub.ModelsReturned? || sh.boots[b].stage.sub.ModelsThrew?
    ensures var sh' := BootAfterModels(sh, b); PhasesOk(sh') && BootsOk(sh') && Extends(sh, sh')
  {
    hide ModelsEarned, BootEarned;
    var sh' := BootAfterModels(sh, b);
    EarnedStays(sh, sh');
    assert BootOk(sh, b);
    assert BootOk(sh', b);
    hide BootAfterModels;
    forall c: nat | c < |sh'.boots| && c != b ensures BootOk(sh', c) {
      assert BootOk(sh, c);
      assert sh'.boots[c] == sh.boots[c];
    }
  }

  lemma {:induction false} SettleBootOk(sh: Shared, b: nat, ok: bool)
    requires PhasesOk(sh) && BootsOk(sh) && b < |sh.boots| && sh.boots[b].status.Pending? && sh.boots[b].stage.InInitializers?
    ensures var sh' := SettleBoot(sh, b, ok); PhasesOk(sh') && BootsOk(sh') && Extends(sh, sh')
  {
    var sh' := SettleBoot(sh, b, ok);
    EarnedStays(sh, sh');
    assert BootOk(sh, b);
    if sh'.isInitialized && !sh.isInitialized { assert DoneNow(sh', b); }
    forall c: nat | c < |sh'.boots| ensures BootOk(sh', c) { assert BootOk(sh, c) && BootOk(sh, b); }
  }

  lemma {:induction false} ResumeSubOk(sh: Shared, b: nat, skip: bool)
    requires PhasesOk(sh) && BootsOk(sh) && b < |sh.boots| && sh.boots[b].status.Pending? && sh.boots[b].stage.InModels?
    requires ModelsAwaits(sh.boots[b].stage.sub).Some? && sh.boots[b].stage.sub.p < |sh.phases|
    requires !sh.phases[sh.boots[b].stage.sub.p].status.Pending?
    ensures var sh' := ResumeSub(sh, b, skip); PhasesOk(sh') && BootsOk(sh') && Extends(sh, sh')
  {
    hide ModelsEntry, ModelsResume, ModelsEarned, BootEarned;
    var sh' := ResumeSub(sh, b, skip);
    assert BootOk(sh, b);
    ModelsResumeOk(sh, sh.boots[b].stage.sub, skip);
    var (sh1, sub) := ModelsResume(sh, sh.boots[b].stage.sub, skip);
    EarnedStays(sh1, sh');
    forall c: nat | c < |sh'.boots| ensures BootOk(sh', c) { assert BootOk(sh1, c); }
  }

  lemma {:induction false} SettleCloseOk(sh: Shared, ok: bool, bumped: bool)
    requires PhasesOk(sh) && BootsOk(sh) && sh.closePromise.Some? && sh.closePromise.value < |sh.closes|
    ensures var sh' := SettleClose(sh, ok, bumped); PhasesOk(sh') && BootsOk(sh') && Extends(sh, sh')
  {
    var sh' := SettleClose(sh, ok, bumped);
    if !bumped { EarnedStays(sh, sh'); }
    forall b: nat | b < |sh'.boots| ensures BootOk(sh', b) { assert BootOk(sh, b); }
  }

  lemma {:induction false} CloseFieldOk(sh: Shared, closes: seq<Status>, closePromise: Option<nat>)
    requires PhasesOk(sh) && BootsOk(sh)
    ensures var sh' := sh.(closes := closes, closePromise := closePromise); PhasesOk(sh') && BootsOk(sh') && Extends(sh, sh')
  {
    var sh' := sh.(closes := closes, closePromise := closePromise);
    EarnedStays(sh, sh');
    forall b: nat | b < |sh'.boots| ensures BootOk(sh', b) { assert BootOk(sh, b); }
  }

  // ---------------------------------------------------------------- steps and runs

  lemma {:induction false} StepKeepsInv(s: State, e: Event)
    requires Inv(s) && Enabled(s, e)
    ensures Inv(Apply(s, e))
  {
    hide PhasesOk, BootsOk, Extends, ModelsPcOk, ModelsEntry, ModelsResume, InitAfterClose, InitResume, SettlePhase,
      BootAfterModels, SettleBoot, ResumeSub, SettleClose;
    var s' := Apply(s, e);
    if e.Resume? { assert ProcOk(s.sh, s.procs[e.pid]); }
    match e {
      case CallInitializeModels(skip) => ModelsEntryOk(s.sh, skip);
      case CallInitialize(skip) => InitAfterCloseOk(s.sh, skip, Nothing);
      case PhaseSettles(p, ok) => SettlePhaseOk(s.sh, p, ok);
      case BootResumesModels(b, skip) => ResumeSubOk(s.sh, b, skip);
      case BootLeavesModels(b) => BootAfterModelsOk(s.sh, b);
      case BootSettles(b, ok) => SettleBootOk(s.sh, b, ok);
      case Resume(pid, skip) =>
        match s.procs[pid] {
          case ModelsCall(pc) => ModelsResumeOk(s.sh, pc, skip);
          case InitCall(pc) => InitResumeOk(s.sh, pc, skip);
        }
      case CloseStarts => CloseFieldOk(s.sh, s'.sh.closes, s'.sh.closePromise);
      case CloseSettles(ok, bumped) => SettleCloseOk(s.sh, ok, bumped);
      case CloseClears => CloseFieldOk(s.sh, s.sh.closes, None);
    }
    ProcsStay(s.sh, s'.sh, s.procs);
  }

  lemma {:induction false} RunKeepsInv(states: seq<State>, events: seq<Event>, i: nat)
    requires Run(states, events) && i < |states|
    ensures Inv(states[i])
  {
    if i > 0 {
      RunKeepsInv(states, events, i - 1);
      StepKeepsInv(states[i - 1], events[i - 1]);
    }
  }

  /** In every reachable state: full initialization implies models, and each flag was earned by a
      complete phase that started and finished in the current generation. */
  lemma {:induction false} FlagsAreEarned(states: seq<State>, events: seq<Event>, i: nat)
    requires Run(states, events) && i < |states|
    ensures var sh := states[i].sh;
      && (sh.isInitialized ==> sh.modelsInitialized && BootEarned(sh))
      && (sh.modelsInitialized ==> ModelsEarned(sh))
  {
    RunKeepsInv(states, events, i);
  }

  /** At most one model phase and one bootstrap are in flight, closes notwithstanding. */
  lemma {:induction false} OnePhaseInFlight(states: seq<State>, events: seq<Event>, i: nat, p: nat, q: nat)
    requires Run(states, events) && i < |states|
    ensures var sh := states[i].sh;
      && (p < |sh.phases| && q < |sh.phases| && sh.phases[p].status.Pending? && sh.phases[q].status.Pending? ==> p == q)
      && (p < |sh.boots| && q < |sh.boots| && sh.boots[p].status.Pending? && sh.boots[q].status.Pending? ==> p == q)
  {
    RunKeepsInv(states, events, i);
    var sh := states[i].sh;
    if p < |sh.boots| && q < |sh.boots| { assert BootOk(sh, p) && BootOk(sh, q); }
  }

  /** A call that returned normally has its flag set for as long as the generation it captured
      lasts. */
  lemma {:induction false} NormalReturnMeansInitialized(states: seq<State>, events: seq<Event>, i: nat, pid: nat)
    requires Run(states, events) && i < |states| && pid < |states[i].procs|
    ensures var (sh, proc) := (states[i].sh, states[i].procs[pid]);
      && (proc.ModelsCall? && proc.mpc == ModelsReturned(sh.gen) ==> sh.modelsInitialized)
      && (proc.InitCall? && proc.ipc == InitReturned(sh.gen) ==> sh.isInitialized)
  {
    RunKeepsInv(states, events, i);
    assert ProcOk(states[i].sh, states[i].procs[pid]);
  }

  /** A second wait under one generation is for a phase of that very generation, and it is the
      last: the call then returns or throws. */
  lemma {:induction false} AtMostOneStaleWait(states: seq<State>, events: seq<Event>, i: nat, pid: nat)
    requires Run(states, events) && i < |states| && pid < |states[i].procs|
    ensures var (sh, proc) := (states[i].sh, states[i].procs[pid]);
      && (proc.ModelsCall? && proc.mpc.WaitsPhase? && proc.mpc.again && sh.gen == proc.mpc.gen ==>
            proc.mpc.p < |sh.phases| && sh.phases[proc.mpc.p].startGen == sh.gen)
      && (proc.InitCall? && proc.ipc.WaitsBoot? && proc.ipc.again && sh.gen == proc.ipc.gen ==>
            proc.ipc.b < |sh.boots| && sh.boots[proc.ipc.b].startGen == sh.gen)
    ensures i < |events| && events[i].Resume? && events[i].pid == pid ==>
      var (before, after) := (states[i].procs[pid], states[i + 1].procs[pid]);
      && (before.ModelsCall? && before.mpc.WaitsPhase? && before.mpc.again ==> after.mpc.ModelsReturned? || after.mpc.ModelsThrew?)
      && (before.InitCall? && before.ipc.WaitsBoot? && before.ipc.again ==> after.ipc.InitReturned? || after.ipc.InitThrew?)
  {
    RunKeepsInv(states, events, i);
    var (sh, proc) := (states[i].sh, states[i].procs[pid]);
    assert ProcOk(sh, proc);
    if proc.InitCall? && proc.ipc.WaitsBoot? { assert BootOk(sh, proc.ipc.b); }
    if i < |events| && events[i].Resume? && events[i].pid == pid {
      match proc {
        case ModelsCall(pc) => ModelsResumeOk(sh, pc, events[i].skip);
        case InitCall(pc) => InitResumeOk(sh, pc, events[i].skip);
      }
    }
  }
}

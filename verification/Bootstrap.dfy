/** Model initialization and full bootstrap of src/configuration.js, run against connection
    closes that bump the initialization generation.

    As in AdapterLifecycle, a step is the code between two suspensions and the scheduler may
    resume any activation whose awaited promise has settled.  A promise is identified with the
    phase it stands for. */
module Bootstrap {
  import opened Outcomes

  datatype Status = Pending | Fulfilled | Rejected

  /** One run of the model hooks: the generation it started in and the one it settled in. */
  datatype Phase = Phase(startGen: nat, status: Status, endGen: nat)

  /** One full bootstrap; its first stage is a call of `initializeModels`. */
  datatype Boot = Boot(startGen: nat, status: Status, endGen: nat, stage: Stage)

  datatype Stage = InModels(sub: ModelsPc) | InInitializers

  /** An activation of `initializeModels`; `gen` is the generation it captured, `again` tells
      that it already waited for a phase under that generation. */
  datatype ModelsPc =
    | OwnsPhase(p: nat, gen: nat)
    | WaitsPhase(p: nat, gen: nat, again: bool)
    | ModelsReturned(gen: nat)
    | ModelsThrew

  /** What an activation of `initialize` remembers of the bootstrap it waited for before. */
  datatype Prior = Nothing | Waited(gen: nat, p: nat)

  datatype InitPc =
    | AwaitsClose(c: nat, prior: Prior)
    | OwnsBoot(b: nat, gen: nat)
    | WaitsBoot(b: nat, gen: nat, again: bool)
    | InitReturned(gen: nat)
    | InitThrew

  datatype Proc = ModelsCall(mpc: ModelsPc) | InitCall(ipc: InitPc)

  datatype Shared = Shared(
    gen: nat, modelsInitialized: bool, isInitialized: bool,
    modelsPromise: Option<nat>, initPromise: Option<nat>, closePromise: Option<nat>,
    phases: seq<Phase>, boots: seq<Boot>, closes: seq<Status>)

  datatype State = State(sh: Shared, procs: seq<Proc>)

  const INIT := State(Shared(0, false, false, None, None, None, [], [], []), [])

  // ---------------------------------------------------------------- initializeModels

  /** From the entry to the first suspension.  `skip`: the hooks are skipped, so the phase body
      runs to its end in this segment. */
  function ModelsEntry(sh: Shared, skip: bool, again: bool): (Shared, ModelsPc) {
    if sh.modelsInitialized then (sh, ModelsReturned(sh.gen))
    else if sh.modelsPromise.Some? then (sh, WaitsPhase(sh.modelsPromise.value, sh.gen, again))
    else
      var p := |sh.phases|;
      var phase := Phase(sh.gen, if skip then Fulfilled else Pending, sh.gen);
      (sh.(phases := sh.phases + [phase], modelsPromise := Some(p), modelsInitialized := skip), OwnsPhase(p, sh.gen))
  }

  function ClearModels(sh: Shared, p: nat): Shared {
    if sh.modelsPromise == Some(p) then sh.(modelsPromise := None) else sh
  }

  function ModelsAwaits(pc: ModelsPc): Option<nat> {
    if pc.OwnsPhase? || pc.WaitsPhase? then Some(pc.p) else None
  }

  function ModelsResume(sh: Shared, pc: ModelsPc, skip: bool): (Shared, ModelsPc)
    requires ModelsAwaits(pc).Some? && pc.p < |sh.phases|
  {
    var rejected := sh.phases[pc.p].status.Rejected?;
    match pc
    case OwnsPhase(p, gen) => (ClearModels(sh, p), if rejected then ModelsThrew else ModelsReturned(gen))
    case WaitsPhase(p, gen, _) =>
      if rejected then (sh, ModelsThrew)
      else if sh.gen == gen && !sh.modelsInitialized then ModelsEntry(ClearModels(sh, p), skip, true)
      else (sh, ModelsReturned(gen))
  }

  /** The phase body ends: it sets the flag only in the generation it started in. */
  function SettlePhase(sh: Shared, p: nat, ok: bool): Shared
    requires p < |sh.phases|
  {
    var phase := sh.phases[p];
    sh.(phases := sh.phases[p := phase.(status := if ok then Fulfilled else Rejected, endGen := sh.gen)],
        modelsInitialized := sh.modelsInitialized || (ok && sh.gen == phase.startGen))
  }

  // ---------------------------------------------------------------- initialize

  function InitEntry(sh: Shared, skip: bool, prior: Prior): (Shared, InitPc) {
    if sh.closePromise.Some? then (sh, AwaitsClose(sh.closePromise.value, prior)) else InitAfterClose(sh, skip, prior)
  }

  function InitAfterClose(sh: Shared, skip: bool, prior: Prior): (Shared, InitPc) {
    if sh.isInitialized then (sh, InitReturned(sh.gen))
    else if sh.initPromise.Some? then
      (sh, WaitsBoot(sh.initPromise.value, sh.gen, prior.Waited? && prior.gen == sh.gen))
    else
      var (sh1, sub) := ModelsEntry(sh, skip, false);
      var b := |sh1.boots|;
      (sh1.(boots := sh1.boots + [Boot(sh.gen, Pending, sh.gen, InModels(sub))], initPromise := Some(b)), OwnsBoot(b, sh.gen))
  }

  function ClearInit(sh: Shared, b: nat): Shared {
    if sh.initPromise == Some(b) then sh.(initPromise := None) else sh
  }

  function InitAwaitsBoot(pc: InitPc): Option<nat> {
    if pc.OwnsBoot? || pc.WaitsBoot? then Some(pc.b) else None
  }

  function InitResume(sh: Shared, pc: InitPc, skip: bool): (Shared, InitPc)
    requires pc.AwaitsClose? ==> pc.c < |sh.closes|
    requires pc.AwaitsClose? || (InitAwaitsBoot(pc).Some? && pc.b < |sh.boots|)
  {
    match pc
    case AwaitsClose(c, prior) =>
      if sh.closes[c].Rejected? then (sh, InitThrew) else InitAfterClose(sh, skip, prior)
    case OwnsBoot(b, gen) =>
      if sh.boots[b].status.Rejected? then (ClearInit(sh, b), InitThrew)
      else (if !sh.isInitialized then ClearInit(sh, b) else sh, InitReturned(gen))
    case WaitsBoot(b, gen, _) =>
      if sh.boots[b].status.Rejected? then (sh, InitThrew)
      else if sh.gen == gen && !sh.isInitialized then InitEntry(ClearInit(sh, b), skip, Waited(gen, b))
      else (sh, InitReturned(gen))
  }

  /** The bootstrap body after its `await this.initializeModels(...)`. */
  function BootAfterModels(sh: Shared, b: nat): Shared
    requires b < |sh.boots| && sh.boots[b].stage.InModels?
  {
    var boot := sh.boots[b];
    if boot.stage.sub.ModelsThrew? then
      sh.(boots := sh.boots[b := boot.(status := Rejected, endGen := sh.gen)])
    else if sh.gen != boot.startGen || !sh.modelsInitialized then
      sh.(boots := sh.boots[b := boot.(status := Fulfilled, endGen := sh.gen)])
    else sh.(boots := sh.boots[b := boot.(stage := InInitializers)])
  }

  function SettleBoot(sh: Shared, b: nat, ok: bool): Shared
    requires b < |sh.boots|
  {
    var boot := sh.boots[b];
    sh.(boots := sh.boots[b := boot.(status := if ok then Fulfilled else Rejected, endGen := sh.gen)],
        isInitialized := sh.isInitialized || (ok && sh.gen == boot.startGen))
  }

  /** A bootstrap's own `initializeModels` activation resumes. */
  function ResumeSub(sh: Shared, b: nat, skip: bool): Shared
    requires b < |sh.boots| && sh.boots[b].stage.InModels?
    requires ModelsAwaits(sh.boots[b].stage.sub).Some? && sh.boots[b].stage.sub.p < |sh.phases|
  {
    var (sh1, sub) := ModelsResume(sh, sh.boots[b].stage.sub, skip);
    sh1.(boots := sh1.boots[b := sh1.boots[b].(stage := InModels(sub))])
  }

  /** `closeDatabaseConnections` settles; `bumped` tells whether its body reached the bump. */
  function SettleClose(sh: Shared, ok: bool, bumped: bool): Shared
    requires sh.closePromise.Some? && sh.closePromise.value < |sh.closes|
  {
    var sh1 := sh.(closes := sh.closes[sh.closePromise.value := if ok then Fulfilled else Rejected]);
    if bumped then sh1.(gen := sh.gen + 1, modelsInitialized := false, isInitialized := false) else sh1
  }

  // ---------------------------------------------------------------- the machine

  datatype Event =
    | CallInitializeModels(skip: bool)
    | CallInitialize(skip: bool)
    | PhaseSettles(p: nat, ok: bool)
    | BootResumesModels(b: nat, skip: bool)
    | BootLeavesModels(b: nat)
    | BootSettles(b: nat, ok: bool)
    | Resume(pid: nat, skip: bool)
    | CloseStarts
    | CloseSettles(ok: bool, bumped: bool)
    | CloseClears

  predicate Enabled(s: State, e: Event) {
    var sh := s.sh;
    match e
    case CallInitializeModels(_) => true
    case CallInitialize(_) => true
    case PhaseSettles(p, _) => p < |sh.phases| && sh.phases[p].status.Pending?
    case BootResumesModels(b, _) =>
      && b < |sh.boots| && sh.boots[b].status.Pending? && sh.boots[b].stage.InModels?
      && ModelsAwaits(sh.boots[b].stage.sub).Some? && sh.boots[b].stage.sub.p < |sh.phases|
      && !sh.phases[sh.boots[b].stage.sub.p].status.Pending?
    case BootLeavesModels(b) =>
      && b < |sh.boots| && sh.boots[b].status.Pending? && sh.boots[b].stage.InModels?
      && (sh.boots[b].stage.sub.ModelsReturned? || sh.boots[b].stage.sub.ModelsThrew?)
    case BootSettles(b, _) => b < |sh.boots| && sh.boots[b].status.Pending? && sh.boots[b].stage.InInitializers?
    case Resume(pid, _) =>
      && pid < |s.procs|
      && (match s.procs[pid]
          case ModelsCall(pc) =>
            ModelsAwaits(pc).Some? && pc.p < |sh.phases| && !sh.phases[pc.p].status.Pending?
          case InitCall(pc) =>
            if pc.AwaitsClose? then pc.c < |sh.closes| && !sh.closes[pc.c].Pending?
            else InitAwaitsBoot(pc).Some? && pc.b < |sh.boots| && !sh.boots[pc.b].status.Pending?)
    case CloseStarts => sh.closePromise.None?
    case CloseSettles(ok, bumped) =>
      && sh.closePromise.Some? && sh.closePromise.value < |sh.closes| && sh.closes[sh.closePromise.value].Pending?
      && (ok ==> bumped)
    case CloseClears =>
      sh.closePromise.Some? && sh.closePromise.value < |sh.closes| && !sh.closes[sh.closePromise.value].Pending?
  }

  function Apply(s: State, e: Event): State
    requires Enabled(s, e)
  {
    var sh := s.sh;
    match e
    case CallInitializeModels(skip) => var (sh', pc) := ModelsEntry(sh, skip, false); State(sh', s.procs + [ModelsCall(pc)])
    case CallInitialize(skip) => var (sh', pc) := InitEntry(sh, skip, Nothing); State(sh', s.procs + [InitCall(pc)])
    case PhaseSettles(p, ok) => s.(sh := SettlePhase(sh, p, ok))
    case BootResumesModels(b, skip) => s.(sh := ResumeSub(sh, b, skip))
    case BootLeavesModels(b) => s.(sh := BootAfterModels(sh, b))
    case BootSettles(b, ok) => s.(sh := SettleBoot(sh, b, ok))
    case Resume(pid, skip) =>
      (match s.procs[pid]
       case ModelsCall(pc) => var (sh', pc') := ModelsResume(sh, pc, skip); State(sh', s.procs[pid := ModelsCall(pc')])
       case InitCall(pc) => var (sh', pc') := InitResume(sh, pc, skip); State(sh', s.procs[pid := InitCall(pc')]))
    case CloseStarts => s.(sh := sh.(closes := sh.closes + [Pending], closePromise := Some(|sh.closes|)))
    case CloseSettles(ok, bumped) => s.(sh := SettleClose(sh, ok, bumped))
    case CloseClears => s.(sh := sh.(closePromise := None))
  }

  ghost predicate Run(states: seq<State>, events: seq<Event>) {
    && |states| == |events| + 1
    && states[0] == INIT
    && forall i :: 0 <= i < |events| ==> Enabled(states[i], events[i]) && states[i + 1] == Apply(states[i], events[i])
  }
}

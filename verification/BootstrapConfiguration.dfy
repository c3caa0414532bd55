/** The configuration object's own bootstrap methods, one method per uninterrupted segment, each
    proved to be the segment function of Bootstrap and to keep what every run needs. */
module BootstrapConfiguration {
  import opened Outcomes
  import opened Bootstrap
  import opened BootstrapSafety

  class Configuration {
    var modelInitializationGeneration: nat
    var modelsInitialized: bool
    var isInitialized: bool
    var initializeModelsPromise: Option<nat>
    var initializePromise: Option<nat>
    var closeDatabaseConnectionsPromise: Option<nat>
    // Every promise made so far, by kind.
    var phases: seq<Phase>
    var boots: seq<Boot>
    var closes: seq<Status>

    function Fields(): Shared
      reads this
    {
      Shared(modelInitializationGeneration, modelsInitialized, isInitialized,
             initializeModelsPromise, initializePromise, closeDatabaseConnectionsPromise, phases, boots, closes)
    }

    ghost predicate Valid()
      reads this
    {
      PhasesOk(Fields()) && BootsOk(Fields())
    }

    constructor ()
      ensures Valid() && Fields() == INIT.sh
    {
      modelInitializationGeneration, modelsInitialized, isInitialized := 0, false, false;
      initializeModelsPromise, initializePromise, closeDatabaseConnectionsPromise := None, None, None;
      phases, boots, closes := [], [], [];
    }

    /** Up to the first suspension; `again` tells that this call retries for a waiter. */
    method InitializeModels(skip: bool, again: bool) returns (next: ModelsPc)
      requires Valid()
      modifies this
      ensures Valid() && (Fields(), next) == ModelsEntry(old(Fields()), skip, again)
    {
      hide PhasesOk, BootsOk;
      ModelsEntryOk(Fields(), skip);
      var generation := modelInitializationGeneration;
      if modelsInitialized { return ModelsReturned(generation); }
      if initializeModelsPromise.Some? { return WaitsPhase(initializeModelsPromise.value, generation, again); }
      var promise := |phases|;
      if skip {
        phases := phases + [Phase(generation, Fulfilled, generation)];
        modelsInitialized := true;
      } else {
        phases := phases + [Phase(generation, Pending, generation)];
      }
      initializeModelsPromise := Some(promise);
      return OwnsPhase(promise, generation);
    }

    /** After the awaited model phase settled: the owner's `finally`, or a waiter's check. */
    method InitializeModelsResumes(pc: ModelsPc, skip: bool) returns (next: ModelsPc)
      requires Valid() && ModelsAwaits(pc).Some? && ModelsPcOk(Fields(), pc) && !phases[pc.p].status.Pending?
      modifies this
      ensures Valid() && ModelsPcOk(Fields(), next) && (Fields(), next) == ModelsResume(old(Fields()), pc, skip)
      ensures next.ModelsReturned? && modelInitializationGeneration == pc.gen ==> modelsInitialized
    {
      hide PhasesOk, BootsOk, ModelsEntry;
      assert pc.p < |phases|;
      hide ModelsPcOk;
      ModelsResumeOk(Fields(), pc, skip);
      ReturnedMeansInitialized(ModelsResume(Fields(), pc, skip).0, ModelsResume(Fields(), pc, skip).1);
      ClearModelsOk(Fields(), pc.p);
      var rejected := phases[pc.p].status.Rejected?;
      if pc.OwnsPhase? {
        if initializeModelsPromise == Some(pc.p) { initializeModelsPromise := None; }
        return if rejected then ModelsThrew else ModelsReturned(pc.gen);
      }
      if rejected { return ModelsThrew; }
      if modelInitializationGeneration == pc.gen && !modelsInitialized {
        if initializeModelsPromise == Some(pc.p) { initializeModelsPromise := None; }
        next := InitializeModels(skip, true);
        return;
      }
      return ModelsReturned(pc.gen);
    }

    lemma {:induction false} ReturnedMeansInitialized(sh: Shared, pc: ModelsPc)
      requires ModelsPcOk(sh, pc)
      ensures pc.ModelsReturned? && sh.gen == pc.gen ==> sh.modelsInitialized
    {}

    /** The model phase's own body ends, in whatever generation that is. */
    method ModelPhaseEnds(p: nat, ok: bool)
      requires Valid() && p < |phases| && phases[p].status.Pending?
      modifies this
      ensures Valid() && Fields() == SettlePhase(old(Fields()), p, ok)
      ensures modelsInitialized && !old(modelsInitialized) ==> ok && phases[p].startGen == modelInitializationGeneration
    {
      hide PhasesOk, BootsOk;
      SettlePhaseOk(Fields(), p, ok);
      if ok && modelInitializationGeneration == phases[p].startGen {
        modelsInitialized := true;
      }
      phases := phases[p := phases[p].(status := if ok then Fulfilled else Rejected, endGen := modelInitializationGeneration)];
    }

    /** Up to the first suspension. */
    method Initialize(skip: bool, prior: Prior) returns (next: InitPc)
      requires Valid() && PriorOk(Fields(), prior)
      modifies this
      ensures Valid() && (Fields(), next) == InitEntry(old(Fields()), skip, prior)
    {
      hide PhasesOk, BootsOk, PriorOk;
      if closeDatabaseConnectionsPromise.Some? { return AwaitsClose(closeDatabaseConnectionsPromise.value, prior); }
      next := InitializeAfterClose(skip, prior);
    }

    method InitializeAfterClose(skip: bool, prior: Prior) returns (next: InitPc)
      requires Valid() && PriorOk(Fields(), prior)
      modifies this
      ensures Valid() && (Fields(), next) == InitAfterClose(old(Fields()), skip, prior)
    {
      hide PhasesOk, BootsOk, PriorOk, ModelsEntry;
      InitAfterCloseOk(Fields(), skip, prior);
      var generation := modelInitializationGeneration;
      if isInitialized { return InitReturned(generation); }
      if initializePromise.Some? {
        return WaitsBoot(initializePromise.value, generation, prior.Waited? && prior.gen == generation);
      }
      ModelsEntryOk(Fields(), skip);
      var models := InitializeModels(skip, false);
      var promise := |boots|;
      boots := boots + [Boot(generation, Pending, generation, InModels(models))];
      initializePromise := Some(promise);
      return OwnsBoot(promise, generation);
    }

    /** After the awaited bootstrap settled: the owner's `catch` and tail, or a waiter's check. */
    method InitializeAfterBoot(pc: InitPc, skip: bool) returns (next: InitPc)
      requires Valid() && InitAwaitsBoot(pc).Some? && InitPcOk(Fields(), pc) && !boots[pc.b].status.Pending?
      modifies this
      ensures Valid() && InitPcOk(Fields(), next) && (Fields(), next) == InitResume(old(Fields()), pc, skip)
      ensures next.InitReturned? && modelInitializationGeneration == pc.gen && next.gen == pc.gen ==> isInitialized
    {
      hide PhasesOk, BootsOk, InitAfterClose;
      InitResumeOk(Fields(), pc, skip);
      ClearInitOk(Fields(), pc.b);
      var rejected := boots[pc.b].status.Rejected?;
      if pc.OwnsBoot? {
        if rejected {
          if initializePromise == Some(pc.b) { initializePromise := None; }
          return InitThrew;
        }
        if !isInitialized && initializePromise == Some(pc.b) { initializePromise := None; }
        return InitReturned(pc.gen);
      }
      if rejected { return InitThrew; }
      if modelInitializationGeneration == pc.gen && !isInitialized {
        if initializePromise == Some(pc.b) { initializePromise := None; }
        next := Initialize(skip, Waited(pc.gen, pc.b));
        return;
      }
      return InitReturned(pc.gen);
    }

    /** The bootstrap body after its model phase. */
    method BootstrapLeavesModels(b: nat)
      requires Valid() && b < |boots| && boots[b].status.Pending? && boots[b].stage.InModels?
      requires boots[b].stage.sub.ModelsReturned? || boots[b].stage.sub.ModelsThrew?
      modifies this
      ensures Valid() && Fields() == BootAfterModels(old(Fields()), b)
    {
      hide PhasesOk, BootsOk;
      BootAfterModelsOk(Fields(), b);
      if boots[b].stage.sub.ModelsThrew? {
        boots := boots[b := boots[b].(status := Rejected, endGen := modelInitializationGeneration)];
        return;
      }
      if modelInitializationGeneration != boots[b].startGen || !modelsInitialized {
        boots := boots[b := boots[b].(status := Fulfilled, endGen := modelInitializationGeneration)];
        return;
      }
      boots := boots[b := boots[b].(stage := InInitializers)];
    }

    /** The bootstrap body ends after its initializers. */
    method BootstrapEnds(b: nat, ok: bool)
      requires Valid() && b < |boots| && boots[b].status.Pending? && boots[b].stage.InInitializers?
      modifies this
      ensures Valid() && Fields() == SettleBoot(old(Fields()), b, ok)
      ensures isInitialized ==> modelsInitialized
    {
      SettleBootOk(Fields(), b, ok);
      if ok && modelInitializationGeneration == boots[b].startGen { isInitialized := true; }
      boots := boots[b := boots[b].(status := if ok then Fulfilled else Rejected, endGen := modelInitializationGeneration)];
    }

    /** `closeDatabaseConnections` starts, unless one is under way. */
    method CloseStarts()
      requires Valid() && closeDatabaseConnectionsPromise.None?
      modifies this`closeDatabaseConnectionsPromise, this`closes
      ensures Valid() && Fields() == old(Fields()).(closes := old(closes) + [Pending], closePromise := Some(|old(closes)|))
    {
      hide PhasesOk, BootsOk;
      CloseFieldOk(Fields(), closes + [Pending], Some(|closes|));
      closeDatabaseConnectionsPromise, closes := Some(|closes|), closes + [Pending];
    }

    /** Its `finally`. */
    method CloseClears()
      requires Valid()
      modifies this`closeDatabaseConnectionsPromise
      ensures Valid() && Fields() == old(Fields()).(closePromise := None)
    {
      hide PhasesOk, BootsOk;
      CloseFieldOk(Fields(), closes, None);
      closeDatabaseConnectionsPromise := None;
    }

    /** `closeDatabaseConnections` settles; `bumped` tells whether its body reached the bump. */
    method CloseSettles(ok: bool, bumped: bool)
      requires Valid() && closeDatabaseConnectionsPromise.Some? && closeDatabaseConnectionsPromise.value < |closes|
      requires ok ==> bumped
      modifies this
      ensures Valid() && Fields() == SettleClose(old(Fields()), ok, bumped)
      ensures bumped ==> !modelsInitialized && !isInitialized
    {
      hide PhasesOk, BootsOk;
      SettleCloseOk(Fields(), ok, bumped);
      closes := closes[closeDatabaseConnectionsPromise.value := if ok then Fulfilled else Rejected];
      if bumped {
        modelInitializationGeneration := modelInitializationGeneration + 1;
        modelsInitialized, isInitialized := false, false;
      }
    }
  }
}

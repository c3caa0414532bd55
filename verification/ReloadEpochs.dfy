/**
 * The supervised ESM reload benchmark: an epoch planner, the deterministic edits of the
 * fixture files, the child process that reloads until its import budget is spent, and the
 * supervisor that starts one child per epoch.
 *
 * A tag is modelled by the reload index it carries ("top-6" is 6).
 */
module ReloadEpochs {
  import opened Outcomes

  const FIXTURE_FILE_COUNT: nat := 3
  const DEFAULT_BUDGET: nat := 4096

  // ---- Edits ----------------------------------------------------------------------

  datatype Tags = Tags(top: nat, dep: nat)

  function TopLevelTagAt(editIndex: nat): nat { 3 * (editIndex / 3) }

  function DependencyTagAt(editIndex: nat): nat { 4 * (editIndex / 4) }

  function Edit(t: Tags, editIndex: nat): Tags {
    Tags(if editIndex % 3 == 0 then editIndex else t.top, if editIndex % 4 == 0 then editIndex else t.dep)
  }

  /** The files after the edits from..to-1, in order. */
  function Edited(t: Tags, from: nat, until: nat): Tags
    decreases until
  {
    if until <= from then t else Edit(Edited(t, from, until - 1), until - 1)
  }

  lemma {:induction false} EditMovesTags(k: nat)
    requires k > 0
    ensures Edit(Tags(TopLevelTagAt(k - 1), DependencyTagAt(k - 1)), k) == Tags(TopLevelTagAt(k), DependencyTagAt(k))
  {
    assert k % 3 != 0 ==> k / 3 == (k - 1) / 3;
    assert k % 4 != 0 ==> k / 4 == (k - 1) / 4;
  }

  /** After edits 0..k the files hold the tags the closed forms name, whatever they held before. */
  lemma {:induction false} TagsAfterEdits(t: Tags, k: nat)
    ensures Edited(t, 0, k + 1) == Tags(TopLevelTagAt(k), DependencyTagAt(k))
  {
    if k > 0 {
      TagsAfterEdits(t, k - 1);
      EditMovesTags(k);
    }
  }

  /** Applying the edit of a boundary again changes nothing that a later reload can see. */
  lemma {:induction false} BoundaryEditRepeats(t: Tags, s: nat, until: nat)
    requires s < until
    ensures Edited(Edited(t, 0, s + 1), s, until) == Edited(t, 0, until)
  {
    if until > s + 1 { BoundaryEditRepeats(t, s, until - 1); }
  }

  /** How many of from..to-1 are divisible by d. */
  function Multiples(d: nat, from: nat, until: nat): nat
    requires d > 0
    decreases until
  {
    if until <= from then 0
    else
      var last := if (until - 1) % d == 0 then 1 else 0;
      Multiples(d, from, until - 1) + last
  }

  function ExpectedTopLevelEdits(reloads: nat, edited: bool): int {
    if !edited then 0 else (reloads - 1) / 3 + 1
  }

  /** Counting every third reload index gives the closed form the matrix validation expects. */
  lemma {:induction false} TopLevelEditsAddUp(n: nat)
    ensures Multiples(3, 0, n) == ExpectedTopLevelEdits(n, true)
  {
    if n > 0 { TopLevelEditsAddUp(n - 1); }
  }

  lemma {:induction false} MultiplesSplit(d: nat, from: nat, mid: nat, until: nat)
    requires d > 0 && from <= mid <= until
    ensures Multiples(d, from, until) == Multiples(d, from, mid) + Multiples(d, mid, until)
  {
    if mid < until { MultiplesSplit(d, from, mid, until - 1); }
  }

  class Fixture {
    var topLevelTag: nat
    var dependencyTag: nat

    constructor ()
      ensures Contents() == Tags(0, 0)
    {
      topLevelTag, dependencyTag := 0, 0;
    }

    ghost function Contents(): Tags
      reads this
    {
      Tags(topLevelTag, dependencyTag)
    }

    method ApplyEdit(editIndex: nat) returns (topLevel: bool, dependency: bool)
      modifies this
      ensures Contents() == Edit(old(Contents()), editIndex)
      ensures topLevel == (editIndex % 3 == 0) && dependency == (editIndex % 4 == 0)
    {
      topLevel, dependency := false, false;
      if editIndex % 3 == 0 {
        topLevelTag := editIndex;
        topLevel := true;
      }
      if editIndex % 4 == 0 {
        dependencyTag := editIndex;
        dependency := true;
      }
    }
  }

  // ---- The epoch plan ------------------------------------------------------------------

  function Sum(epochs: seq<nat>): nat {
    if epochs == [] then 0 else Sum(epochs[..|epochs| - 1]) + epochs[|epochs| - 1]
  }

  /** The plan covers the run: all epochs but the last are full, the last is not empty. */
  ghost predicate IsPlan(epochs: seq<nat>, total: nat, capacity: nat) {
    && Sum(epochs) == total
    && (forall i :: 0 <= i < |epochs| - 1 ==> epochs[i] == capacity)
    && (epochs != [] ==> 1 <= epochs[|epochs| - 1] <= capacity)
  }

  // With no capacity the loop would never end; the capacity is at least 1.
  method PlanEpochs(totalReloads: nat, capacity: nat) returns (epochs: seq<nat>)
    requires capacity >= 1
    ensures IsPlan(epochs, totalReloads, capacity)
  {
    epochs := [];
    var remaining := totalReloads;
    while remaining > 0
      invariant remaining >= 0 && Sum(epochs) + remaining == totalReloads
      invariant forall i :: 0 <= i < |epochs| ==> 1 <= epochs[i] <= capacity
      invariant forall i :: 0 <= i < |epochs| - 1 ==> epochs[i] == capacity
      invariant epochs != [] && remaining > 0 ==> epochs[|epochs| - 1] == capacity
    {
      var count := if remaining < capacity then remaining else capacity;
      assert (epochs + [count])[..|epochs|] == epochs;
      epochs := epochs + [count];
      remaining := remaining - count;
    }
  }

  lemma {:induction false} FullSum(epochs: seq<nat>, capacity: nat)
    requires forall i :: 0 <= i < |epochs| ==> epochs[i] == capacity
    ensures Sum(epochs) == |epochs| * capacity
  {
    if epochs != [] { FullSum(epochs[..|epochs| - 1], capacity); }
  }

  lemma {:induction false} PlanLength(epochs: seq<nat>, total: nat, capacity: nat)
    requires IsPlan(epochs, total, capacity) && capacity >= 1
    ensures if total == 0 then epochs == [] else epochs != [] && (|epochs| - 1) * capacity < total <= |epochs| * capacity
  {
    if epochs != [] { FullSum(epochs[..|epochs| - 1], capacity); }
  }

  /** There is only one plan for a total and a capacity. */
  lemma {:induction false} PlanIsUnique(p: seq<nat>, q: seq<nat>, total: nat, capacity: nat)
    requires IsPlan(p, total, capacity) && IsPlan(q, total, capacity) && capacity >= 1
    ensures p == q
  {
    PlanLength(p, total, capacity);
    PlanLength(q, total, capacity);
    if total > 0 {
      SameLength(|p|, |q|, total, capacity);
      FullSum(p[..|p| - 1], capacity);
      FullSum(q[..|q| - 1], capacity);
    }
  }

  lemma {:induction false} SameLength(m: nat, n: nat, total: nat, capacity: nat)
    requires m > 0 && n > 0
    requires (m - 1) * capacity < total <= m * capacity && (n - 1) * capacity < total <= n * capacity
    ensures m == n
  {
    if m < n { Grows(m, n - 1, capacity); }
    if n < m { Grows(n, m - 1, capacity); }
  }

  lemma {:induction false} Grows(a: nat, b: nat, c: nat)
    requires a <= b
    ensures a * c <= b * c
  {}

  // ---- One child process ------------------------------------------------------------------

  datatype Report = Report(
    completedReloads: nat,
    importAttempts: nat,
    initialDependencyTag: nat,
    recycleCounts: Option<(nat, nat, nat)>,
    topLevelEditCount: nat,
    topLevelEditVisible: nat,
    dependencyEditCount: nat,
    dependencyEditVisible: nat
  )

  /** Reloads a child completes, and whether it stops on the budget. */
  function Recycles(budget: nat, maxReloads: nat): bool { maxReloads == 0 || budget / FIXTURE_FILE_COUNT < maxReloads }

  function Completes(budget: nat, maxReloads: nat): nat {
    if Recycles(budget, maxReloads) then budget / FIXTURE_FILE_COUNT else maxReloads
  }

  /** What a child started at `start` on files `t` reports. */
  ghost predicate ReportOf(r: Report, t: Tags, budget: nat, edited: bool, start: nat, maxReloads: nat) {
    var n := Completes(budget, maxReloads);
    && r.completedReloads == n && r.importAttempts == n * FIXTURE_FILE_COUNT && r.importAttempts <= budget
    && r.initialDependencyTag == t.dep
    && r.recycleCounts == (if Recycles(budget, maxReloads) then Some((n * FIXTURE_FILE_COUNT, budget, FIXTURE_FILE_COUNT)) else None)
    && r.topLevelEditCount == (if edited then Multiples(3, start, start + n) else 0)
    && r.topLevelEditVisible == r.topLevelEditCount
    && r.dependencyEditCount == (if edited then Multiples(4, start, start + n) else 0)
    && r.dependencyEditVisible == (if edited && start <= t.dep < start + n && t.dep % 4 == 0 then 1 else 0)
  }

  // The process-global import policy and the modules one process has loaded.
  class Process {
    const budget: nat
    var reservedImports: nat
    var helper: Option<nat>
    var widgetName: nat
    var widgetDependency: nat

    constructor (budget: nat)
      ensures this.budget == budget && reservedImports == 0 && helper.None?
    {
      this.budget := budget;
      reservedImports, helper, widgetName, widgetDependency := 0, None, 0, 0;
    }

    /** The helper is imported without cache busting, so a process keeps the first one it sees. */
    method LoadDefinitions(fixture: Fixture)
      modifies this
      ensures reservedImports == old(reservedImports)
      ensures helper == Some(if old(helper).Some? then old(helper).value else fixture.dependencyTag)
      ensures widgetName == fixture.topLevelTag && helper == Some(widgetDependency)
    {
      if helper.None? { helper := Some(fixture.dependencyTag); }
      widgetName, widgetDependency := fixture.topLevelTag, helper.value;
    }

    method ReserveDefinitionReloadBudget(requested: nat) returns (recycle: bool)
      modifies this`reservedImports
      ensures recycle <==> old(reservedImports) + requested > budget
      ensures reservedImports == old(reservedImports) + if recycle then 0 else requested
    {
      if reservedImports + requested > budget { return true; }
      reservedImports := reservedImports + requested;
      return false;
    }

    method ReloadDefinitions(fixture: Fixture) returns (recycle: bool)
      modifies this
      ensures recycle <==> old(reservedImports) + FIXTURE_FILE_COUNT > budget
      ensures recycle ==> reservedImports == old(reservedImports) && helper == old(helper)
      ensures !recycle ==>
                && reservedImports == old(reservedImports) + FIXTURE_FILE_COUNT
                && helper == Some(if old(helper).Some? then old(helper).value else fixture.dependencyTag)
                && widgetName == fixture.topLevelTag && helper == Some(widgetDependency)
    {
      recycle := ReserveDefinitionReloadBudget(FIXTURE_FILE_COUNT);
      if recycle { return; }
      LoadDefinitions(fixture);
    }
  }

  /** One child: edit, reload, count, until the reloads are done or the budget is spent. */
  method ChildMain(fixture: Fixture, epoch: bool, policyBudget: nat, edited: bool, startEditIndex: nat, maxReloads: nat) returns (outcome: Outcome<Report, string>)
    modifies fixture
    ensures var budget := if epoch && policyBudget > 0 then policyBudget else DEFAULT_BUDGET;
            var n := Completes(budget, maxReloads);
            var recycles := Recycles(budget, maxReloads);
            && (outcome.Ok? <==> epoch || !recycles)
            && (outcome.Ok? ==> ReportOf(outcome.value, old(fixture.Contents()), budget, edited, startEditIndex, maxReloads))
            && fixture.Contents() == (if !edited then old(fixture.Contents())
                                      else Edited(old(fixture.Contents()), startEditIndex, startEditIndex + n + (if recycles then 1 else 0)))
  {
    var child := new Process(if epoch && policyBudget > 0 then policyBudget else DEFAULT_BUDGET);
    child.LoadDefinitions(fixture);
    var initialDependencyTag := child.widgetDependency;
    var completed, topEdits, topVisible, depEdits, depVisible := 0, 0, 0, 0, 0;
    var recycleCounts: Option<(nat, nat, nat)> := None;
    ghost var t := fixture.Contents();
    while maxReloads == 0 || completed < maxReloads
      invariant fresh(child) && child.helper == Some(initialDependencyTag) && initialDependencyTag == t.dep
      invariant child.reservedImports == completed * FIXTURE_FILE_COUNT <= child.budget
      invariant maxReloads > 0 ==> completed <= maxReloads
      invariant fixture.Contents() == if edited then Edited(t, startEditIndex, startEditIndex + completed) else t
      invariant topEdits == (if edited then Multiples(3, startEditIndex, startEditIndex + completed) else 0) && topVisible == topEdits
      invariant depEdits == (if edited then Multiples(4, startEditIndex, startEditIndex + completed) else 0)
      invariant depVisible == if edited && startEditIndex <= t.dep < startEditIndex + completed && t.dep % 4 == 0 then 1 else 0
      invariant recycleCounts.None?
      decreases child.budget - child.reservedImports
    {
      var editIndex := startEditIndex + completed;
      var topLevel, dependency := false, false;
      if edited {
        topLevel, dependency := fixture.ApplyEdit(editIndex);
      }
      var recycle := child.ReloadDefinitions(fixture);
      if recycle {
        if !epoch { return Threw("DefinitionRecycleRequiredError"); }
        recycleCounts := Some((child.reservedImports, child.budget, FIXTURE_FILE_COUNT));
        break;
      }
      completed := completed + 1;
      if topLevel { topEdits := topEdits + 1; }
      if dependency { depEdits := depEdits + 1; }
      if topLevel && child.widgetName == TopLevelTagAt(editIndex) { topVisible := topVisible + 1; }
      if dependency && child.widgetDependency == DependencyTagAt(editIndex) { depVisible := depVisible + 1; }
    }
    outcome := Ok(Report(completed, completed * FIXTURE_FILE_COUNT, initialDependencyTag, recycleCounts, topEdits, topVisible, depEdits, depVisible));
  }

  // ---- The supervisor ------------------------------------------------------------------------

  datatype Row = Row(
    completedReloads: nat,
    dependencyVisibilityAcrossBoundaries: bool,
    epochs: seq<Report>,
    epochsWithinBudget: bool,
    importAttempts: nat,
    topLevelEditCount: nat,
    topLevelEditVisible: nat
  )

  /** The checks on an epoch report; a failed check throws. */
  function ValidEpochReport(report: Report, budget: nat, capacity: nat, count: nat, lastEpoch: bool): bool {
    && report.completedReloads == count && report.importAttempts == count * FIXTURE_FILE_COUNT
    && report.completedReloads <= capacity && report.importAttempts <= budget
    && report.recycleCounts.Some? == !lastEpoch
    && (!lastEpoch ==> report.recycleCounts == Some((capacity * FIXTURE_FILE_COUNT, budget, FIXTURE_FILE_COUNT)))
  }

  /** Every child passes: it completes its planned count and stops on the budget unless it is the last. */
  lemma {:induction false} EpochReportsAreValid(report: Report, t: Tags, budget: nat, count: nat, lastEpoch: bool, edited: bool, start: nat)
    requires var capacity := budget / FIXTURE_FILE_COUNT;
             1 <= count <= capacity && (!lastEpoch ==> count == capacity)
    requires ReportOf(report, t, budget, edited, start, if lastEpoch then count else count + 1)
    ensures ValidEpochReport(report, budget, budget / FIXTURE_FILE_COUNT, count, lastEpoch)
  {}

  ghost function FilesAfter(t: Tags, edited: bool, edits: nat): Tags {
    if edited then Edited(t, 0, edits) else t
  }

  /**
   * One epoch, on the files its predecessor left: that one had already made the edit of
   * `completed` when its budget ran out, unless this is the first epoch.
   */
  method RunEpoch(fixture: Fixture, budget: nat, count: nat, first: bool, lastEpoch: bool, completed: nat, edited: bool, ghost t: Tags) returns (outcome: Outcome<Report, string>)
    requires 1 <= count <= budget / FIXTURE_FILE_COUNT && (!lastEpoch ==> count == budget / FIXTURE_FILE_COUNT)
    requires first ==> completed == 0
    requires fixture.Contents() == FilesAfter(t, edited, if first then 0 else completed + 1)
    modifies fixture
    ensures fixture.Contents() == FilesAfter(t, edited, completed + count + if lastEpoch then 0 else 1)
    ensures outcome.Ok? && ValidEpochReport(outcome.value, budget, budget / FIXTURE_FILE_COUNT, count, lastEpoch)
    ensures outcome.value.topLevelEditCount == outcome.value.topLevelEditVisible == if edited then Multiples(3, completed, completed + count) else 0
    ensures edited && !first ==> outcome.value.initialDependencyTag == DependencyTagAt(completed)
  {
    hide Edited, Multiples, ValidEpochReport;
    var maxReloads := if lastEpoch then count else count + 1;
    outcome := ChildMain(fixture, true, budget, edited, completed, maxReloads);
    if outcome.Threw? { return; }
    EpochReportsAreValid(outcome.value, old(fixture.Contents()), budget, count, lastEpoch, edited, completed);
    if !ValidEpochReport(outcome.value, budget, budget / FIXTURE_FILE_COUNT, count, lastEpoch) { return Threw("unexpected epoch report"); }
    if edited && !first {
      TagsAfterEdits(t, completed);
      BoundaryEditRepeats(t, completed, completed + count + if lastEpoch then 0 else 1);
    }
    if edited && first { NoEdits(t); }
  }

  lemma {:induction false} NoEdits(t: Tags)
    ensures Edited(t, 0, 0) == t
  {}

  /**
   * The whole supervised run, on a budget that allows at least one reload: no child fails,
   * the epochs cover the run within the budget, edits made by a process that had to be
   * recycled are seen by the next one, and boundary edits are counted once.
   */
  method RunSupervised(fixture: Fixture, budget: nat, reloads: nat, edited: bool) returns (outcome: Outcome<Row, string>)
    requires budget >= FIXTURE_FILE_COUNT
    modifies fixture
    ensures outcome.Ok?
    ensures var row := outcome.value;
            && row.completedReloads == reloads && row.importAttempts == reloads * FIXTURE_FILE_COUNT
            && row.dependencyVisibilityAcrossBoundaries && row.epochsWithinBudget
            && row.topLevelEditCount == row.topLevelEditVisible == ExpectedTopLevelEdits(reloads, edited)
            && IsPlan(Counts(row.epochs), reloads, budget / FIXTURE_FILE_COUNT)
            && (forall i :: 0 <= i < |row.epochs| ==> row.epochs[i].importAttempts <= budget)
            && (forall i :: 0 <= i < |row.epochs| ==> (row.epochs[i].recycleCounts.Some? <==> i < |row.epochs| - 1))
            && (forall i :: edited && 1 <= i < |row.epochs| ==>
                  row.epochs[i].initialDependencyTag == DependencyTagAt(Sum(Counts(row.epochs[..i]))))
    ensures edited && reloads > 0 ==> fixture.Contents() == Tags(TopLevelTagAt(reloads - 1), DependencyTagAt(reloads - 1))
    ensures !edited ==> fixture.Contents() == old(fixture.Contents())
  {
    hide Edited, Multiples, Sum, Counts;
    var capacity := budget / FIXTURE_FILE_COUNT;
    var plan := PlanEpochs(reloads, capacity);
    var completed, visibility := 0, true;
    var epochs: seq<Report> := [];
    var importAttempts, topEdits, topVisible, within := 0, 0, 0, true;
    ghost var t := fixture.Contents();
    NoEdits(t);
    StartCounts(epochs, plan);
    for epochIndex := 0 to |plan|
      invariant |epochs| == epochIndex && Counts(epochs) == plan[..epochIndex] && completed == Sum(plan[..epochIndex])
      invariant forall i :: 0 <= i < epochIndex ==> epochs[i].importAttempts <= budget && epochs[i].recycleCounts.Some? == (i < |plan| - 1)
      invariant forall i :: edited && 1 <= i < epochIndex ==> epochs[i].initialDependencyTag == DependencyTagAt(Sum(plan[..i]))
      invariant visibility && within && importAttempts == completed * FIXTURE_FILE_COUNT
      invariant topEdits == topVisible == if edited then Multiples(3, 0, completed) else 0
      invariant epochIndex == 0 ==> completed == 0
      invariant fixture.Contents() == FilesAfter(t, edited, completed + if 0 < epochIndex < |plan| then 1 else 0)
    {
      var count := plan[epochIndex];
      var lastEpoch := epochIndex == |plan| - 1;
      var result := RunEpoch(fixture, budget, count, epochIndex == 0, lastEpoch, completed, edited, t);
      if result.Threw? { return Threw("epoch failed"); }
      var report := result.value;
      if edited && epochIndex > 0 && report.initialDependencyTag != DependencyTagAt(completed) { visibility := false; }
      NextCounts(epochs, report, plan);
      MultiplesSplit(3, 0, completed, completed + count);
      epochs := epochs + [report];
      within := within && report.importAttempts <= budget;
      importAttempts := importAttempts + report.importAttempts;
      topEdits, topVisible := topEdits + report.topLevelEditCount, topVisible + report.topLevelEditVisible;
      completed := completed + report.completedReloads;
    }
    assert plan[..|plan|] == plan;
    TopLevelEditsAddUp(reloads);
    if edited && reloads > 0 { TagsAfterEdits(t, reloads - 1); }
    PrefixCounts(epochs, plan);
    outcome := Ok(Row(completed, visibility, epochs, within, importAttempts, topEdits, topVisible));
  }

  lemma {:induction false} StartCounts(epochs: seq<Report>, plan: seq<nat>)
    requires epochs == []
    ensures Counts(epochs) == plan[..0] && Sum(plan[..0]) == 0 && Multiples(3, 0, 0) == 0
  {}

  lemma {:induction false} NextCounts(epochs: seq<Report>, report: Report, plan: seq<nat>)
    requires |epochs| < |plan| && Counts(epochs) == plan[..|epochs|] && report.completedReloads == plan[|epochs|]
    ensures Counts(epochs + [report]) == plan[..|epochs| + 1]
    ensures Sum(plan[..|epochs| + 1]) == Sum(plan[..|epochs|]) + plan[|epochs|]
  {
    assert plan[..|epochs| + 1][..|epochs|] == plan[..|epochs|];
  }

  lemma {:induction false} PrefixCounts(epochs: seq<Report>, plan: seq<nat>)
    requires Counts(epochs) == plan
    ensures forall i :: 0 <= i <= |plan| ==> Counts(epochs[..i]) == plan[..i]
  {}

  function Counts(epochs: seq<Report>): seq<nat> {
    seq(|epochs|, i requires 0 <= i < |epochs| => epochs[i].completedReloads)
  }
}

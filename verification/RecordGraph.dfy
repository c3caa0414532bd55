/** The walk over loaded records and the batched ability checks it feeds
    (`_frontendModelCollectRecordsForName`, `frontendModelComputeAbilities` in
    src/frontend-model-controller.js).  The record graph may be cyclic. */
module RecordGraph {
  import opened Outcomes

  type Ref = nat
  type Action = string

  /** A relationship is not loaded, a list of records (or nulls), or one record (or null). */
  datatype Loaded = NotLoaded | Many(records: seq<Option<Ref>>) | One(record: Option<Ref>)

  datatype Node = Node(modelName: string, id: Option<string>, relationships: seq<Loaded>)

  type Graph = map<Ref, Node>

  function Related(loaded: Loaded): seq<Option<Ref>> {
    match loaded
    case NotLoaded => []
    case Many(records) => records
    case One(record) => [record]
  }

  /** The records one relationship away. */
  ghost predicate Links(g: Graph, a: Ref, b: Ref) {
    a in g && exists loaded :: loaded in g[a].relationships && Some(b) in Related(loaded)
  }

  /** A record links to the members of its loaded lists and to its loaded single records. */
  lemma {:induction false} LinksAreLoaded(g: Graph, a: Ref, b: Ref)
    ensures Links(g, a, b) <==>
      && a in g
      && exists loaded :: loaded in g[a].relationships && (loaded == One(Some(b)) || (loaded.Many? && Some(b) in loaded.records))
  {
    if Links(g, a, b) {
      var loaded :| loaded in g[a].relationships && Some(b) in Related(loaded);
      assert loaded == One(Some(b)) || (loaded.Many? && Some(b) in loaded.records);
    }
    if a in g {
      forall loaded | loaded in g[a].relationships && (loaded == One(Some(b)) || (loaded.Many? && Some(b) in loaded.records))
        ensures Some(b) in Related(loaded)
      {}
    }
  }

  ghost predicate Closed(g: Graph) {
    forall a, loaded, b :: a in g && loaded in g[a].relationships && Some(b) in Related(loaded) ==> b in g
  }

  ghost predicate IsPath(g: Graph, path: seq<Ref>) {
    |path| > 0 && forall i :: 0 <= i < |path| - 1 ==> Links(g, path[i], path[i + 1])
  }

  /** `b` can be reached from `a` through loaded relationships. */
  ghost predicate Reaches(g: Graph, a: Ref, b: Ref) {
    exists path :: IsPath(g, path) && path[0] == a && path[|path| - 1] == b
  }

  lemma {:induction false} ReachesItself(g: Graph, a: Ref)
    ensures Reaches(g, a, a)
  {
    assert IsPath(g, [a]);
  }

  lemma {:induction false} ReachesThrough(g: Graph, a: Ref, b: Ref, c: Ref)
    requires Links(g, a, b) && Reaches(g, b, c)
    ensures Reaches(g, a, c)
  {
    var path :| IsPath(g, path) && path[0] == b && path[|path| - 1] == c;
    assert IsPath(g, [a] + path);
  }

  /** What a set closed under links contains, it contains all the way. */
  lemma {:induction false} ClosedContainsPath(g: Graph, s: set<Ref>, path: seq<Ref>)
    requires IsPath(g, path) && path[0] in s
    requires forall a, b :: a in s && Links(g, a, b) ==> b in s
    ensures path[|path| - 1] in s
  {
    if |path| > 1 {
      assert IsPath(g, path[1..]);
      ClosedContainsPath(g, s, path[1..]);
    }
  }

  predicate Distinct(s: seq<Ref>) { forall i, j :: 0 <= i < j < |s| ==> s[i] != s[j] }

  // ---------------------------------------------------------------- the walk

  ghost function LinkedTo(g: Graph, r: Ref): set<Ref> { set b | b in g && Links(g, r, b) }

  ghost function Sources(records: seq<Option<Ref>>): set<Ref> {
    set o | o in records && o.Some? :: o.value
  }

  /** `seen` grew by records reached from the sources, each with all its links seen as well. */
  ghost predicate Grew(g: Graph, before: set<Ref>, after: set<Ref>, sources: set<Ref>) {
    && before <= after
    && forall n :: n in after - before ==> Expanded(g, n, after) && ReachedFrom(g, sources, n)
  }

  ghost predicate Expanded(g: Graph, n: Ref, seen: set<Ref>) { forall b :: Links(g, n, b) ==> b in seen }

  ghost predicate ReachedFrom(g: Graph, sources: set<Ref>, n: Ref) { exists a :: a in sources && Reaches(g, a, n) }

  lemma {:induction false} GrewFurther(g: Graph, first: set<Ref>, second: set<Ref>, third: set<Ref>, sources: set<Ref>, more: set<Ref>)
    requires Grew(g, first, second, sources) && Grew(g, second, third, more) && more <= sources
    ensures Grew(g, first, third, sources)
  {
    forall n | n in third - first ensures Expanded(g, n, third) && ReachedFrom(g, sources, n) {
      if n in second {
        assert Expanded(g, n, second);
      } else {
        assert ReachedFrom(g, more, n);
      }
    }
  }

  /** A record whose links were all walked was walked itself. */
  lemma {:induction false} GrewByRecord(g: Graph, before: set<Ref>, after: set<Ref>, r: Ref)
    requires Grew(g, before + {r}, after, LinkedTo(g, r)) && Expanded(g, r, after)
    ensures Grew(g, before, after, {r})
  {
    ReachesItself(g, r);
    forall n | n in after - before ensures Expanded(g, n, after) && ReachedFrom(g, {r}, n) {
      if n != r {
        assert ReachedFrom(g, LinkedTo(g, r), n);
        var a :| a in LinkedTo(g, r) && Reaches(g, a, n);
        ReachesThrough(g, r, a, n);
      }
      assert Reaches(g, r, n);
    }
  }

  class Collector {
    const g: Graph
    const modelName: string
    var seen: set<Ref>
    var out: seq<Ref>

    constructor (g: Graph, modelName: string)
      ensures this.g == g && this.modelName == modelName && seen == {} && out == []
    {
      this.g, this.modelName, seen, out := g, modelName, {}, [];
    }

    /** `out` lists exactly the seen records of the wanted name, once each. */
    ghost predicate Valid()
      reads this
    {
      && Closed(g) && seen <= g.Keys
      && Distinct(out) && (forall n :: n in out <==> n in seen && g[n].modelName == modelName)
    }

    method Walk(record: Option<Ref>)
      requires Valid() && (record.Some? ==> record.value in g)
      modifies this
      ensures Valid() && Sources([record]) <= seen
      ensures Grew(g, old(seen), seen, Sources([record]))
      decreases g.Keys - seen, 0
    {
      assert forall o :: o in [record] ==> o == record;
      if record.None? { return; }
      var r := record.value;
      assert Sources([record]) == {r};
      if r in seen { return; }
      seen := seen + {r};
      if g[r].modelName == modelName { out := out + [r]; }
      var relationships := g[r].relationships;
      for k := 0 to |relationships|
        invariant Valid() && Grew(g, old(seen) + {r}, seen, LinkedTo(g, r))
        invariant forall loaded :: loaded in relationships[..k] ==> Sources(Related(loaded)) <= seen
      {
        var loaded := relationships[k];
        ghost var mid := seen;
        assert Sources(Related(loaded)) <= LinkedTo(g, r);
        match loaded {
          case NotLoaded =>
          case Many(records) => WalkAll(records);
          case One(child) => Walk(child);
        }
        GrewFurther(g, old(seen) + {r}, mid, seen, LinkedTo(g, r), Sources(Related(loaded)));
      }
      assert relationships[..|relationships|] == relationships;
      GrewByRecord(g, old(seen), seen, r);
    }

    method WalkAll(records: seq<Option<Ref>>)
      requires Valid() && Sources(records) <= g.Keys
      modifies this
      ensures Valid() && Sources(records) <= seen
      ensures Grew(g, old(seen), seen, Sources(records))
      decreases g.Keys - seen, 1
    {
      for k := 0 to |records|
        invariant Valid() && Sources(records[..k]) <= seen
        invariant Grew(g, old(seen), seen, Sources(records))
      {
        ghost var mid := seen;
        Walk(records[k]);
        GrewFurther(g, old(seen), mid, seen, Sources(records), Sources([records[k]]));
        assert records[..k + 1] == records[..k] + [records[k]];
      }
      assert records[..|records|] == records;
    }
  }

  /** Reachable from one of the roots. */
  ghost predicate Reachable(g: Graph, roots: seq<Ref>, n: Ref) { exists a :: a in roots && Reaches(g, a, n) }

  /** Terminates on every graph and returns each reachable record of the name exactly once. */
  method CollectRecordsForName(g: Graph, roots: seq<Ref>, modelName: string) returns (out: seq<Ref>)
    requires Closed(g) && forall a :: a in roots ==> a in g
    ensures Distinct(out)
    ensures forall n :: n in out <==> n in g && g[n].modelName == modelName && Reachable(g, roots, n)
  {
    var collector := new Collector(g, modelName);
    var records := seq(|roots|, i requires 0 <= i < |roots| => Some(roots[i]));
    RootsAreSources(roots, records);
    collector.WalkAll(records);
    out := collector.out;
    SeenIsReachable(g, roots, collector.seen);
  }

  lemma {:induction false} RootsAreSources(roots: seq<Ref>, records: seq<Option<Ref>>)
    requires |records| == |roots| && forall i :: 0 <= i < |roots| ==> records[i] == Some(roots[i])
    ensures Sources(records) == set a | a in roots
  {
    forall a | a in roots ensures a in Sources(records) { assert Some(a) in records; }
  }

  /** A walk from all roots has seen exactly what is reachable. */
  lemma {:induction false} SeenIsReachable(g: Graph, roots: seq<Ref>, seen: set<Ref>)
    requires Grew(g, {}, seen, (set a | a in roots)) && (set a | a in roots) <= seen
    ensures forall n :: n in seen <==> Reachable(g, roots, n)
  {
    forall n | n in seen ensures Reachable(g, roots, n) {
      assert n in seen - {};
      assert ReachedFrom(g, (set a | a in roots), n);
    }
    forall n | Reachable(g, roots, n) ensures n in seen {
      var a :| a in roots && Reaches(g, a, n);
      var path :| IsPath(g, path) && path[0] == a && path[|path| - 1] == n;
      forall b, c | b in seen && Links(g, b, c) ensures c in seen { assert b in seen - {} && Expanded(g, b, seen); }
      ClosedContainsPath(g, seen, path);
    }
  }

  // ---------------------------------------------------------------- batched abilities

  datatype AbilityEntry = AbilityEntry(modelName: string, actions: seq<Action>)

  /** What the current ability allows, per model name and action; an action without rules is
      missing and makes `accessibleFor` throw.  `classes` are the names that resolve to a class. */
  datatype Ability = Ability(classes: set<string>, grants: map<(string, Action), set<string>>)

  /** The answer for one record asked on its own; no rules means no access. */
  predicate Allowed(g: Graph, ability: Ability, r: Ref, action: Action)
    requires r in g
  {
    && g[r].id.Some? && (g[r].modelName, action) in ability.grants
    && g[r].id.value in ability.grants[(g[r].modelName, action)]
  }

  /** The answer is yes exactly for an id the grants of the action hold; without rules, and without an
      id, it is no. */
  lemma {:induction false} AllowedIffGranted(g: Graph, ability: Ability, r: Ref, action: Action)
    requires r in g
    ensures (g[r].modelName, action) !in ability.grants ==> !Allowed(g, ability, r, action)
    ensures g[r].id.None? ==> !Allowed(g, ability, r, action)
    ensures g[r].id.Some? && (g[r].modelName, action) in ability.grants ==>
      (Allowed(g, ability, r, action) <==> g[r].id.value in ability.grants[(g[r].modelName, action)])
  {
  }

  /** The cohort of a name: its reachable records; it is skipped when none has an id. */
  ghost predicate CohortHasId(g: Graph, roots: seq<Ref>, modelName: string) {
    exists n :: n in g && g[n].modelName == modelName && g[n].id.Some? && Reachable(g, roots, n)
  }

  /** Some entry asks about this action for this record, and its cohort is not skipped. */
  ghost predicate Asked(g: Graph, ability: Ability, entries: seq<AbilityEntry>, roots: seq<Ref>, r: Ref, action: Action) {
    && r in g && Reachable(g, roots, r)
    && g[r].modelName in ability.classes && CohortHasId(g, roots, g[r].modelName)
    && exists e :: e in entries && e.modelName == g[r].modelName && action in e.actions
  }

  /** One authorised query for a cohort's ids. */
  datatype Query = Query(modelName: string, action: Action, ids: set<string>)

  ghost function CohortIds(g: Graph, roots: seq<Ref>, modelName: string): set<string> {
    set n | n in g && g[n].modelName == modelName && g[n].id.Some? && Reachable(g, roots, n) :: g[n].id.value
  }

  /** The queries of an entry: one per action for the whole cohort, none for a skipped cohort. */
  ghost function QueriesOf(g: Graph, ability: Ability, entry: AbilityEntry, roots: seq<Ref>): seq<Query> {
    if entry.modelName in ability.classes && CohortHasId(g, roots, entry.modelName) then
      seq(|entry.actions|, i requires 0 <= i < |entry.actions| => Query(entry.modelName, entry.actions[i], CohortIds(g, roots, entry.modelName)))
    else []
  }

  ghost function AllQueries(g: Graph, ability: Ability, entries: seq<AbilityEntry>, roots: seq<Ref>): seq<Query> {
    if entries == [] then []
    else AllQueries(g, ability, entries[..|entries| - 1], roots) + QueriesOf(g, ability, entries[|entries| - 1], roots)
  }

  class Abilities {
    var computed: map<(Ref, Action), bool>
    var queries: seq<Query>

    constructor ()
      ensures computed == map[] && queries == []
    {
      computed, queries := map[], [];
    }

    /** `accessibleFor(action, ability).where(ids).pluck(...)`; None when it throws. */
    method Pluck(ability: Ability, modelName: string, action: Action, ids: set<string>) returns (allowed: Option<set<string>>)
      modifies this`queries
      ensures queries == old(queries) + [Query(modelName, action, ids)]
      ensures allowed == if (modelName, action) in ability.grants then Some(ability.grants[(modelName, action)] * ids) else None
    {
      queries := queries + [Query(modelName, action, ids)];
      return if (modelName, action) in ability.grants then Some(ability.grants[(modelName, action)] * ids) else None;
    }

    /** Exactly the asked answers are (over)written, each with the answer for the record alone. */
    method ComputeAbilities(g: Graph, entries: seq<AbilityEntry>, roots: seq<Ref>, ability: Option<Ability>)
      requires Closed(g) && forall a :: a in roots ==> a in g
      modifies this
      ensures ability.None? ==> computed == old(computed)
      ensures ability.Some? ==> Answers(g, ability.value, entries, roots, old(computed), computed)
      ensures queries == old(queries) + if ability.Some? then AllQueries(g, ability.value, entries, roots) else []
    {
      hide QueriesOf, Reachable, Allowed, Closed, Answers, Asked;
      if ability.None? { return; }
      NothingToAnswer(g, ability.value, entries, roots, computed);
      if |entries| == 0 || |roots| == 0 { return; }
      for k := 0 to |entries|
        invariant Answers(g, ability.value, entries[..k], roots, old(computed), computed)
        invariant queries == old(queries) + AllQueries(g, ability.value, entries[..k], roots)
      {
        ghost var before := computed;
        assert entries[..k + 1][..k] == entries[..k];
        ComputeEntry(g, entries[k], roots, ability.value);
        AnswerOneMore(g, ability.value, entries, k, roots, old(computed), before, computed);
      }
      assert entries[..|entries|] == entries;
    }

    /** One batched query for the whole cohort; an ability without rules denies everyone. */
    method ComputeAction(g: Graph, modelName: string, action: Action, candidates: seq<Ref>, ids: set<string>, ability: Ability)
      requires forall n :: n in candidates ==> n in g && g[n].modelName == modelName && (g[n].id.Some? ==> g[n].id.value in ids)
      modifies this
      ensures forall r: Ref, a: Action ::
        if r in candidates && a == action
        then (r, a) in computed && computed[(r, a)] == Allowed(g, ability, r, a)
        else SameAt(computed, old(computed), (r, a))
      ensures queries == old(queries) + [Query(modelName, action, ids)]
    {
      var plucked := Pluck(ability, modelName, action, ids);
      var allowedIds := if plucked.Some? then plucked.value else {};
      for j := 0 to |candidates|
        invariant queries == old(queries) + [Query(modelName, action, ids)]
        invariant forall r: Ref, a: Action ::
          if r in candidates[..j] && a == action
          then (r, a) in computed && computed[(r, a)] == Allowed(g, ability, r, a)
          else SameAt(computed, old(computed), (r, a))
      {
        var r := candidates[j];
        computed := computed[(r, action) := g[r].id.Some? && g[r].id.value in allowedIds];
      }
    }

    method ComputeEntry(g: Graph, entry: AbilityEntry, roots: seq<Ref>, ability: Ability)
      requires Closed(g) && forall a :: a in roots ==> a in g
      modifies this
      ensures Answers(g, ability, [entry], roots, old(computed), computed)
      ensures queries == old(queries) + QueriesOf(g, ability, entry, roots)
    {
      hide Allowed, Reachable, Closed, Distinct;
      if entry.modelName !in ability.classes { return; }
      var candidates := CollectRecordsForName(g, roots, entry.modelName);
      if |candidates| == 0 { return; }
      var ids := set n | n in candidates && g[n].id.Some? :: g[n].id.value;
      assert forall n :: n in candidates && g[n].id.Some? ==> g[n].id.value in ids;
      assert ids == CohortIds(g, roots, entry.modelName);
      if ids == {} {
        assert forall n :: n in candidates ==> g[n].id.None?;
        return;
      }
      ghost var asked: seq<Query> := [];
      hide CohortIds, CohortHasId, QueriesOf;
      for k := 0 to |entry.actions|
        invariant queries == old(queries) + asked && |asked| == k
        invariant forall i :: 0 <= i < k ==> asked[i] == Query(entry.modelName, entry.actions[i], ids)
        invariant forall r: Ref, action: Action ::
          if r in candidates && action in entry.actions[..k]
          then (r, action) in computed && computed[(r, action)] == Allowed(g, ability, r, action)
          else SameAt(computed, old(computed), (r, action))
      {
        ComputeAction(g, entry.modelName, entry.actions[k], candidates, ids, ability);
        asked := asked + [Query(entry.modelName, entry.actions[k], ids)];
      }
      CohortAsks(g, ability, entry, roots, ids, asked);
    }
  }

  lemma {:induction false} CohortAsks(g: Graph, ability: Ability, entry: AbilityEntry, roots: seq<Ref>, ids: set<string>, asked: seq<Query>)
    requires entry.modelName in ability.classes && ids == CohortIds(g, roots, entry.modelName) != {} && |asked| == |entry.actions|
    requires forall i :: 0 <= i < |asked| ==> asked[i] == Query(entry.modelName, entry.actions[i], ids)
    ensures CohortHasId(g, roots, entry.modelName) && asked == QueriesOf(g, ability, entry, roots)
  {
    var id :| id in ids;
    assert CohortHasId(g, roots, entry.modelName);
  }

  /** Without entries or roots nothing is asked and nothing is queried. */
  lemma {:induction false} NothingToAnswer(g: Graph, ability: Ability, entries: seq<AbilityEntry>, roots: seq<Ref>, computed: map<(Ref, Action), bool>)
    ensures Answers(g, ability, [], roots, computed, computed)
    ensures roots == [] ==> Answers(g, ability, entries, roots, computed, computed) && AllQueries(g, ability, entries, roots) == []
    decreases entries
  {
    if entries != [] { NothingToAnswer(g, ability, entries[..|entries| - 1], roots, computed); }
  }

  predicate SameAt(m: map<(Ref, Action), bool>, m': map<(Ref, Action), bool>, key: (Ref, Action)) {
    (key in m <==> key in m') && (key in m ==> m[key] == m'[key])
  }

  /** The answers `entries` ask for, written over `before`. */
  ghost predicate Answers(g: Graph, ability: Ability, entries: seq<AbilityEntry>, roots: seq<Ref>,
                          before: map<(Ref, Action), bool>, after: map<(Ref, Action), bool>)
  {
    forall r: Ref, action: Action ::
      if Asked(g, ability, entries, roots, r, action)
      then (r, action) in after && after[(r, action)] == Allowed(g, ability, r, action)
      else SameAt(after, before, (r, action))
  }

  lemma {:induction false} AnswerOneMore(g: Graph, ability: Ability, entries: seq<AbilityEntry>, k: nat, roots: seq<Ref>,
                      first: map<(Ref, Action), bool>, second: map<(Ref, Action), bool>, third: map<(Ref, Action), bool>)
    requires k < |entries| && Answers(g, ability, entries[..k], roots, first, second) && Answers(g, ability, [entries[k]], roots, second, third)
    ensures Answers(g, ability, entries[..k + 1], roots, first, third)
  {
    assert entries[..k + 1] == entries[..k] + [entries[k]];
    forall r: Ref, action: Action
      ensures Asked(g, ability, entries[..k + 1], roots, r, action) <==>
        Asked(g, ability, entries[..k], roots, r, action) || Asked(g, ability, [entries[k]], roots, r, action)
    {
    }
  }
}

/** How often the tables of a path are joined.  A call for one path hands the query a nested
    object, which joins every prefix of the path again; paths are recorded only as a whole. */
module JoinProofs {
  import opened Outcomes
  import opened QueryCompiler
  import opened QueryProofs

  /** The call joins the table of this path. */
  predicate Covers(join: Join, path: Path) { path in TreePaths([], JoinObject(join)) }

  /** No table is joined by two calls. */
  ghost predicate JoinedAtMostOnce(joins: seq<Join>) {
    forall i, j, path :: 0 <= i < j < |joins| ==> !(Covers(joins[i], path) && Covers(joins[j], path))
  }

  // ---------------------------------------------------------------- what a call covers

  lemma {:induction false} CoversInTree(join: Join, path: Path)
    ensures Covers(join, path) <==> InTree(JoinObject(join), path)
  {
    TreePathsAreThePaths([], JoinObject(join), path);
    assert path[0..] == path && path[..0] == [];
  }

  lemma {:induction false} ChainPaths(path: Path, p: Path)
    ensures InTree(JoinObjectFromPath(path), p) <==> 0 < |p| <= |path| && path[..|p|] == p
  {
    if path != [] && p != [] {
      ChainPaths(path[1..], p[1..]);
      var node := JoinObjectFromPath(path)[0];
      assert forall n :: n in JoinObjectFromPath(path) <==> n == node;
      if |p| <= |path| {
        assert path[..|p|] == [path[0]] + path[1..][..|p| - 1];
        assert p == [p[0]] + p[1..];
      }
    }
  }

  /** A call for a single path joins each of its non-empty prefixes. */
  lemma {:induction false} PathCoversItsPrefixes(path: Path, p: Path)
    ensures Covers(JoinPath(path), p) <==> 0 < |p| <= |path| && path[..|p|] == p
  {
    CoversInTree(JoinPath(path), p);
    ChainPaths(path, p);
  }

  /** The first relationships of what is asked for. */
  function Firsts(nodes: seq<JoinNode>): set<string> { set node | node in nodes :: node.name }

  lemma {:induction false} CoversFirsts(join: Join, f: string)
    ensures Covers(join, [f]) <==> f in Firsts(JoinObject(join))
  {
    CoversInTree(join, [f]);
  }

  lemma {:induction false} CoversFirstOfPath(join: Join, path: Path)
    requires Covers(join, path)
    ensures path != [] && path[0] in Firsts(JoinObject(join)) && Covers(join, [path[0]])
  {
    CoversInTree(join, path);
    CoversFirsts(join, path[0]);
  }

  // ---------------------------------------------------------------- what the ops ask for

  /** What a call of the request asks to be joined: a path to refer to, or the explicit tree. */
  datatype Demand = Need(path: Path) | Explicit(nodes: seq<JoinNode>)

  ghost function WhereDemands(schema: Schema, cls: string, path: Path, where: seq<Entry>): seq<Demand>
    decreases where, 0
  {
    if where == [] then []
    else
      EntryDemands(schema, cls, path, where[0]) +
      (if AcceptableEntry(schema, cls, where[0]) then WhereDemands(schema, cls, path, where[1..]) else [])
  }

  ghost function EntryDemands(schema: Schema, cls: string, path: Path, e: Entry): seq<Demand>
    decreases e, 1
  {
    if QueryableColumn(Class(schema, cls), e.key).Some? then [Need(path)]
    else if e.value.Object? && Target(schema, cls, e.key).Some? then
      WhereDemands(schema, Target(schema, cls, e.key).value, path + [e.key], e.value.entries)
    else []
  }

  /** Read off the op and the schema alone. */
  ghost function DemandsOf(schema: Schema, op: Op): seq<Demand> {
    match op
    case WhereOp(where) => WhereDemands(schema, schema.root, [], where)
    case RootGroupsOp(_) => []
    case JoinsOp(nodes) => if TreeError(schema, schema.root, nodes).None? then [Explicit(nodes)] else []
    case SearchOp(path, key, _, _) => ColumnDemands(schema, path, key)
    case GroupOp(path, key) => ColumnDemands(schema, path, key)
    case SortOp(path, key, _) =>
      var cls := ClassAt(schema, schema.root, path);
      if cls.Some? && key in Class(schema, cls.value).translated then
        if Lookup(Class(schema, cls.value).translations, key).Some? then [Need(path + ["currentTranslation"])] else []
      else ColumnDemands(schema, path, key)
  }

  ghost function ColumnDemands(schema: Schema, path: Path, key: string): seq<Demand> {
    var cls := ClassAt(schema, schema.root, path);
    if cls.Some? && QueryableColumn(Class(schema, cls.value), key).Some? then [Need(path)] else []
  }

  ghost function AllDemands(schema: Schema, ops: seq<Op>): seq<Demand> {
    if ops == [] then [] else DemandsOf(schema, ops[0]) + AllDemands(schema, ops[1..])
  }

  // ---------------------------------------------------------------- the joins they lead to

  /** Only the joins of a query. */
  datatype Joins = Joins(calls: seq<Join>, recorded: set<Path>)

  function JoinsOf(q: Query): Joins { Joins(q.joins, q.joinedPaths) }

  function Meet(js: Joins, d: Demand): Joins {
    match d
    case Need(path) =>
      if path == [] || path in js.recorded then js else Joins(js.calls + [JoinPath(path)], js.recorded + {path})
    case Explicit(nodes) => Joins(js.calls + [JoinTree(nodes)], js.recorded + TreePaths([], nodes))
  }

  function MeetAll(js: Joins, ds: seq<Demand>): Joins
    decreases |ds|
  {
    if ds == [] then js else Meet(MeetAll(js, ds[..|ds| - 1]), ds[|ds| - 1])
  }

  lemma {:induction false} MeetConcat(js: Joins, a: seq<Demand>, b: seq<Demand>)
    ensures MeetAll(js, a + b) == MeetAll(MeetAll(js, a), b)
    decreases |b|
  {
    if b == [] {
      assert a + b == a;
    } else {
      var init := b[..|b| - 1];
      assert (a + b)[..|a + b| - 1] == a + init;
      MeetConcat(js, a, init);
    }
  }

  lemma {:induction false} MeetOne(js: Joins, d: Demand)
    ensures MeetAll(js, [d]) == Meet(js, d)
  {
    assert [d][..0] == [];
  }

  lemma {:induction false} WhereMeets(q: Query, env: Env, schema: Schema, cls: string, path: Path, where: seq<Entry>)
    ensures JoinsOf(ApplyWhere(q, env, schema, cls, path, where).0) == MeetAll(JoinsOf(q), WhereDemands(schema, cls, path, where))
    decreases where, 0
  {
    if where != [] {
      var (q1, error) := ApplyWhereEntry(q, env, schema, cls, path, where[0]);
      EntryMeets(q, env, schema, cls, path, where[0]);
      EntryCompilesItsMeaning(q, env, schema, cls, path, where[0], Row((p, c) => SqlNull, (op, a, b) => false));
      var first := EntryDemands(schema, cls, path, where[0]);
      if error.None? {
        WhereMeets(q1, env, schema, cls, path, where[1..]);
        MeetConcat(JoinsOf(q), first, WhereDemands(schema, cls, path, where[1..]));
      } else {
        assert first + [] == first;
      }
    }
  }

  lemma {:induction false} EntryMeets(q: Query, env: Env, schema: Schema, cls: string, path: Path, e: Entry)
    ensures JoinsOf(ApplyWhereEntry(q, env, schema, cls, path, e).0) == MeetAll(JoinsOf(q), EntryDemands(schema, cls, path, e))
    decreases e, 1
  {
    if QueryableColumn(Class(schema, cls), e.key).Some? {
      MeetOne(JoinsOf(q), Need(path));
    } else if e.value.Object? && Target(schema, cls, e.key).Some? {
      WhereMeets(q, env, schema, Target(schema, cls, e.key).value, path + [e.key], e.value.entries);
    }
  }

  lemma {:induction false} RootGroupsJoinNothing(q: Query, columns: seq<string>)
    ensures JoinsOf(ApplyRootGroups(q, columns)) == JoinsOf(q)
    decreases columns
  {
    if columns != [] { RootGroupsJoinNothing(EnsureGroup(q, [], columns[0], false), columns[1..]); }
  }

  lemma {:induction false} OpMeets(q: Query, env: Env, schema: Schema, op: Op)
    ensures JoinsOf(ApplyOp(q, env, schema, op).0) == MeetAll(JoinsOf(q), DemandsOf(schema, op))
  {
    hide TreePaths, SearchTarget, ClassAt, QueryableColumn, MeetAll;
    MeetNothing(JoinsOf(q));
    match op {
      case WhereOp(where) => WhereMeets(q, env, schema, schema.root, [], where);
      case RootGroupsOp(columns) => RootGroupsJoinNothing(q, columns);
      case JoinsOp(nodes) => MeetOne(JoinsOf(q), Explicit(nodes));
      case SearchOp(path, key, _, _) =>
        SearchTargetIsClassAt(schema, schema.root, path);
        MeetOne(JoinsOf(q), Need(path));
      case GroupOp(path, key) =>
        SearchTargetIsClassAt(schema, schema.root, path);
        MeetOne(JoinsOf(q), Need(path));
      case SortOp(path, key, _) =>
        SearchTargetIsClassAt(schema, schema.root, path);
        MeetOne(JoinsOf(q), Need(path));
        MeetOne(JoinsOf(q), Need(path + ["currentTranslation"]));
    }
  }

  lemma {:induction false} MeetNothing(js: Joins)
    ensures MeetAll(js, []) == js
  {}

  /** The joins of any sequence of calls, failing ones included, are those its demands lead to. */
  lemma {:induction false} OpsMeetTheirDemands(q: Query, env: Env, schema: Schema, ops: seq<Op>)
    ensures JoinsOf(ApplyOps(q, env, schema, ops)) == MeetAll(JoinsOf(q), AllDemands(schema, ops))
    decreases ops
  {
    if ops != [] {
      var q1 := ApplyOp(q, env, schema, ops[0]).0;
      OpMeets(q, env, schema, ops[0]);
      OpsMeetTheirDemands(q1, env, schema, ops[1..]);
      MeetConcat(JoinsOf(q), DemandsOf(schema, ops[0]), AllDemands(schema, ops[1..]));
    }
  }

  // ---------------------------------------------------------------- when no table is joined twice

  const NO_JOINS := Joins([], {})

  function FirstsOf(d: Demand): set<string> {
    match d
    case Need(path) => if path == [] then {} else {path[0]}
    case Explicit(nodes) => Firsts(nodes)
  }

  /** An earlier demand asked for this very path. */
  ghost predicate AskedBefore(ds: seq<Demand>, path: Path) {
    exists d :: d in ds && (d == Need(path) || (d.Explicit? && InTree(d.nodes, path)))
  }

  /** Demand `k` makes a call: it is an explicit tree, or a path no earlier demand asked for. */
  ghost predicate MakesACall(ds: seq<Demand>, k: nat)
    requires k < |ds|
  {
    ds[k].Need? ==> ds[k].path != [] && !AskedBefore(ds[..k], ds[k].path)
  }

  /** Every demand that makes a call starts with relationships that no earlier demand starts with. */
  ghost predicate FreshFirsts(ds: seq<Demand>) {
    forall i, k :: 0 <= i < k < |ds| && MakesACall(ds, k) ==> FirstsOf(ds[i]) !! FirstsOf(ds[k])
  }

  ghost predicate SomeCovers(joins: seq<Join>, path: Path) { exists join :: join in joins && Covers(join, path) }

  /** What is recorded was asked for, and the first relationships joined are those asked for. */
  ghost predicate Tracks(js: Joins, ds: seq<Demand>) {
    && (forall path :: path in js.recorded <==> path != [] && AskedBefore(ds, path))
    && (forall f :: SomeCovers(js.calls, [f]) <==> exists d :: d in ds && f in FirstsOf(d))
  }

  lemma {:induction false} AskedOneMore(ds: seq<Demand>, d: Demand, path: Path)
    ensures AskedBefore(ds + [d], path) <==> AskedBefore(ds, path) || d == Need(path) || (d.Explicit? && InTree(d.nodes, path))
  {
    hide InTree;
    assert d in ds + [d];
    forall e ensures e in ds + [d] <==> e in ds || e == d {}
  }

  lemma {:induction false} CoversOneMore(joins: seq<Join>, join: Join, path: Path)
    ensures SomeCovers(joins + [join], path) <==> SomeCovers(joins, path) || Covers(join, path)
  {
    assert (joins + [join])[|joins|] in joins + [join];
  }

  lemma {:induction false} DemandsAreTracked(ds: seq<Demand>)
    ensures Tracks(MeetAll(NO_JOINS, ds), ds)
    decreases |ds|
  {
    if ds != [] {
      var init, d := ds[..|ds| - 1], ds[|ds| - 1];
      DemandsAreTracked(init);
      assert ds == init + [d];
      OneMoreTracked(MeetAll(NO_JOINS, init), init, d);
    }
  }

  lemma {:induction false} OneMoreTracked(js: Joins, ds: seq<Demand>, d: Demand)
    requires Tracks(js, ds)
    ensures Tracks(Meet(js, d), ds + [d])
  {
    hide InTree, TreePaths, Covers, SomeCovers;
    var js' := Meet(js, d);
    forall path ensures path in js'.recorded <==> path != [] && AskedBefore(ds + [d], path) {
      AskedOneMore(ds, d, path);
      if d.Explicit? { RecordedInTree(d.nodes, path); }
    }
    forall f ensures SomeCovers(js'.calls, [f]) <==> exists e :: e in ds + [d] && f in FirstsOf(e) {
      if d.Need? && d.path != [] && d.path in js.recorded { AskedStarts(ds, d.path); }
      if js'.calls != js.calls {
        var join := if d.Need? then JoinPath(d.path) else JoinTree(d.nodes);
        CoversOneMore(js.calls, join, [f]);
        CoversFirsts(join, f);
        CallStarts(d);
      }
    }
  }

  lemma {:induction false} RecordedInTree(nodes: seq<JoinNode>, path: Path)
    ensures path in TreePaths([], nodes) <==> InTree(nodes, path)
    ensures InTree(nodes, path) ==> path != []
  {
    TreePathsAreThePaths([], nodes, path);
    assert path[0..] == path && path[..0] == [];
  }

  /** Whoever asked for a path started with its first relationship. */
  lemma {:induction false} AskedStarts(ds: seq<Demand>, path: Path)
    requires path != [] && AskedBefore(ds, path)
    ensures exists d :: d in ds && path[0] in FirstsOf(d)
  {
    var d :| d in ds && (d == Need(path) || (d.Explicit? && InTree(d.nodes, path)));
    assert path[0] in FirstsOf(d);
  }

  /** The call a demand makes starts as the demand does. */
  lemma {:induction false} CallStarts(d: Demand)
    ensures d.Need? && d.path != [] ==> Firsts(JoinObject(JoinPath(d.path))) == FirstsOf(d)
    ensures d.Explicit? ==> Firsts(JoinObject(JoinTree(d.nodes))) == FirstsOf(d)
  {
    if d.Need? && d.path != [] {
      assert JoinObject(JoinPath(d.path)) == [JoinNode(d.path[0], JoinObjectFromPath(d.path[1..]))];
    }
  }

  lemma {:induction false} OnceOneMore(joins: seq<Join>, join: Join)
    ensures JoinedAtMostOnce(joins + [join]) <==>
      JoinedAtMostOnce(joins) && forall f :: f in Firsts(JoinObject(join)) ==> !SomeCovers(joins, [f])
  {
    var all := joins + [join];
    if JoinedAtMostOnce(all) {
      forall i, j, path | 0 <= i < j < |joins| ensures !(Covers(joins[i], path) && Covers(joins[j], path)) {
        assert all[i] == joins[i] && all[j] == joins[j];
      }
      forall f | f in Firsts(JoinObject(join)) ensures !SomeCovers(joins, [f]) {
        CoversFirsts(join, f);
        forall earlier | earlier in joins ensures !Covers(earlier, [f]) {
          var i :| 0 <= i < |joins| && joins[i] == earlier;
          assert all[i] == earlier && all[|joins|] == join;
        }
      }
    }
    if JoinedAtMostOnce(joins) && forall f :: f in Firsts(JoinObject(join)) ==> !SomeCovers(joins, [f]) {
      forall i, j, path | 0 <= i < j < |all| ensures !(Covers(all[i], path) && Covers(all[j], path)) {
        if j == |joins| {
          assert all[i] == joins[i] && joins[i] in joins;
          if Covers(joins[i], path) && Covers(join, path) {
            CoversFirstOfPath(joins[i], path);
            CoversFirstOfPath(join, path);
          }
        }
      }
    }
  }

  lemma {:induction false} OnceIffFreshFirsts(ds: seq<Demand>)
    ensures JoinedAtMostOnce(MeetAll(NO_JOINS, ds).calls) <==> FreshFirsts(ds)
    decreases |ds|
  {
    if ds != [] {
      var n := |ds| - 1;
      var init, d := ds[..n], ds[n];
      OnceIffFreshFirsts(init);
      FreshFirstsOneMore(ds);
      DemandsAreTracked(init);
      var js := MeetAll(NO_JOINS, init);
      if MakesACall(ds, n) {
        var join := if d.Need? then JoinPath(d.path) else JoinTree(d.nodes);
        assert MeetAll(NO_JOINS, ds).calls == js.calls + [join];
        OnceOneMore(js.calls, join);
        CallStarts(d);
        forall i | 0 <= i < n ensures init[i] in init && init[i] == ds[i] {}
      }
    }
  }

  lemma {:induction false} FreshFirstsOneMore(ds: seq<Demand>)
    requires ds != []
    ensures var n := |ds| - 1;
      FreshFirsts(ds) <==> FreshFirsts(ds[..n]) && (MakesACall(ds, n) ==> forall i :: 0 <= i < n ==> FirstsOf(ds[i]) !! FirstsOf(ds[n]))
  {
    var n := |ds| - 1;
    forall k: nat | k < n ensures MakesACall(ds[..n], k) <==> MakesACall(ds, k) {
      assert ds[..n][..k] == ds[..k];
    }
  }

  /** Over every sequence of calls on a fresh query: no table is joined twice if and only if every
      demand that makes a join call starts with relationships no earlier demand starts with. */
  lemma {:induction false} JoinedAtMostOnceIff(env: Env, schema: Schema, ops: seq<Op>)
    ensures JoinedAtMostOnce(ApplyOps(EMPTY_QUERY, env, schema, ops).joins) <==> FreshFirsts(AllDemands(schema, ops))
  {
    OpsMeetTheirDemands(EMPTY_QUERY, env, schema, ops);
    OnceIffFreshFirsts(AllDemands(schema, ops));
  }

  // ---------------------------------------------------------------- requests that join a table twice

  /** A column of a relationship, and a column of a relationship below it. */
  lemma {:induction false} NestedWhereJoinsTwice(env: Env, schema: Schema)
    requires Target(schema, schema.root, "project") == Some("Project") && Target(schema, "Project", "owner") == Some("User")
    requires QueryableColumn(Class(schema, schema.root), "project").None? && QueryableColumn(Class(schema, "Project"), "owner").None?
    requires QueryableColumn(Class(schema, "Project"), "name").Some? && QueryableColumn(Class(schema, "User"), "name").Some?
    ensures var where := [Entry("project", Object([Entry("name", Text("x")), Entry("owner", Object([Entry("name", Text("y"))]))]))];
      !JoinedAtMostOnce(ApplyOps(EMPTY_QUERY, env, schema, [WhereOp(where)]).joins)
  {
    var owner := [Entry("name", Text("y"))];
    var project := [Entry("name", Text("x")), Entry("owner", Object(owner))];
    var where := [Entry("project", Object(project))];
    var a, b := Need(["project"]), Need(["project", "owner"]);
    assert [] + ["project"] == ["project"] && ["project"] + ["owner"] == ["project", "owner"];
    assert owner[1..] == [] && where[1..] == [] && project[1..][1..] == [];
    assert WhereDemands(schema, "User", ["project", "owner"], owner) == [b];
    assert WhereDemands(schema, "Project", ["project"], project[1..]) == [b];
    assert WhereDemands(schema, "Project", ["project"], project) == [a, b];
    assert WhereDemands(schema, schema.root, [], where) == [a, b];
    assert [WhereOp(where)][1..] == [];
    assert AllDemands(schema, [WhereOp(where)]) == [a, b];
    assert [a, b][..1] == [a];
    assert MakesACall([a, b], 1);
    assert "project" in FirstsOf([a, b][0]) && "project" in FirstsOf([a, b][1]);
    JoinedAtMostOnceIff(env, schema, [WhereOp(where)]);
  }

  /** A filter on a relationship, then the same relationship joined explicitly. */
  lemma {:induction false} ExplicitJoinAfterNeedJoinsTwice(env: Env, schema: Schema, key: string, op: Operator, value: Where, name: string)
    requires Target(schema, schema.root, name).Some?
    requires QueryableColumn(Class(schema, Target(schema, schema.root, name).value), key).Some?
    ensures !JoinedAtMostOnce(ApplyOps(EMPTY_QUERY, env, schema, [SearchOp([name], key, op, value), JoinsOp([JoinNode(name, [])])]).joins)
  {
    var ops := [SearchOp([name], key, op, value), JoinsOp([JoinNode(name, [])])];
    var a, b := Need([name]), Explicit([JoinNode(name, [])]);
    assert [name][1..] == [];
    assert ClassAt(schema, schema.root, [name]) == Target(schema, schema.root, name);
    assert ops[1..] == [ops[1]] && ops[1..][1..] == [];
    assert b.nodes[1..] == [] && TreeError(schema, schema.root, b.nodes).None?;
    assert DemandsOf(schema, ops[1]) == [b];
    assert AllDemands(schema, ops[1..]) == [b];
    assert AllDemands(schema, ops) == [a, b];
    assert JoinNode(name, []) in b.nodes;
    assert name in FirstsOf([a, b][0]) && name in FirstsOf([a, b][1]);
    assert MakesACall([a, b], 1);
    JoinedAtMostOnceIff(env, schema, ops);
  }
}

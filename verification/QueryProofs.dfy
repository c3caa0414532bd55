/** What the compiled query means, and what every sequence of calls keeps. */
module QueryProofs {
  import opened Outcomes
  import opened QueryCompiler

  // ---------------------------------------------------------------- meaning of conditions

  /** A joined row: the value of each column of each joined table, and how the database orders and
      matches values. */
  datatype Row = Row(cell: (Path, string) -> SqlValue, compares: (Operator, SqlValue, SqlValue) -> bool)

  /** Whether the row passes the condition as a filter; SQL's unknown does not pass. */
  ghost predicate Passes(row: Row, condition: Condition) {
    match condition
    case Never => false
    case Always => true
    case IsNull(path, column) => row.cell(path, column) == SqlNull
    case IsNotNull(path, column) => row.cell(path, column) != SqlNull
    case Compare(path, column, op, value) =>
      && row.cell(path, column) != SqlNull && value != SqlNull
      && (match op
          case Eq => row.cell(path, column) == value
          case NotEq => row.cell(path, column) != value
          case _ => row.compares(op, row.cell(path, column), value))
    case In(path, column, values) => row.cell(path, column) != SqlNull && row.cell(path, column) in values
    case NotIn(path, column, values) =>
      row.cell(path, column) != SqlNull && SqlNull !in values && row.cell(path, column) !in values
  }

  ghost predicate PassesAll(row: Row, conditions: seq<Condition>) {
    forall condition :: condition in conditions ==> Passes(row, condition)
  }

  // ---------------------------------------------------------------- meaning of where records

  /** A cell matches a `where` value: null means NULL, an array means one of its elements unless
      some element cannot match the column at all, anything else means equality. */
  ghost predicate Matches(env: Env, c: ModelClass, column: string, value: Where, cell: SqlValue) {
    match value
    case Null => cell == SqlNull
    case List(items) =>
      && cell != SqlNull
      && (forall item :: item in items ==> Normalize(env, c, column, item).Literal?)
      && exists item :: item in items && Normalize(env, c, column, item) == Literal(cell)
    case _ => cell != SqlNull && Normalize(env, c, column, value) == Literal(cell)
  }

  /** The recursive meaning of a `where` record on a joined row. */
  ghost predicate Means(env: Env, schema: Schema, cls: string, path: Path, where: seq<Entry>, row: Row)
    decreases where, 0
  {
    forall i :: 0 <= i < |where| ==> MeansEntry(env, schema, cls, path, where[i], row)
  }

  ghost predicate MeansEntry(env: Env, schema: Schema, cls: string, path: Path, e: Entry, row: Row)
    decreases e, 1
  {
    var column := QueryableColumn(Class(schema, cls), e.key);
    if column.Some? then Matches(env, Class(schema, cls), column.value, e.value, row.cell(path, column.value))
    else
      && e.value.Object? && Target(schema, cls, e.key).Some?
      && Means(env, schema, Target(schema, cls, e.key).value, path + [e.key], e.value.entries, row)
  }

  /** Every key is a queryable column or a plain object under a known relationship. */
  ghost predicate Acceptable(schema: Schema, cls: string, where: seq<Entry>)
    decreases where, 0
  {
    forall i :: 0 <= i < |where| ==> AcceptableEntry(schema, cls, where[i])
  }

  ghost predicate AcceptableEntry(schema: Schema, cls: string, e: Entry)
    decreases e, 1
  {
    || QueryableColumn(Class(schema, cls), e.key).Some?
    || (e.value.Object? && Target(schema, cls, e.key).Some? && Acceptable(schema, Target(schema, cls, e.key).value, e.value.entries))
  }

  /** Normalization rejects exactly the objects a column cannot hold, and tells two texts apart
      exactly when they differ, save that on a date column two dates are compared as instants. */
  lemma {:induction false} NormalizationKeepsApart(env: Env, c: ModelClass, column: string, value: Where, a: string, b: string)
    ensures Normalize(env, c, column, value).NoMatch? <==>
      value.Object? && !(column in c.columnTypes && HoldsObjects(c.columnTypes[column]))
    ensures Normalize(env, c, column, Text(a)) == Normalize(env, c, column, Text(b)) <==>
      if column in c.columnTypes && IsDateType(c.columnTypes[column]) && env.parseDate(a).Some? && env.parseDate(b).Some?
      then env.parseDate(a) == env.parseDate(b) else a == b
  {
    if a == b { assert Normalize(env, c, column, Text(a)) == Normalize(env, c, column, Text(b)); }
  }

  /** Every value stands for itself, save that a date text on a date column stands for its instant
      and an object on a column that holds objects for its JSON. */
  lemma {:induction false} NormalizationStandsFor(env: Env, c: ModelClass, column: string, value: Where)
    ensures value.Null? ==> Normalize(env, c, column, value) == Literal(SqlNull)
    ensures value.Atom? || value.List? ==> Normalize(env, c, column, value) == Literal(SqlOther(value))
    ensures value.Text? ==>
      var isDate := column in c.columnTypes && IsDateType(c.columnTypes[column]);
      match Normalize(env, c, column, value)
      case Literal(SqlDate(millis)) => isDate && env.parseDate(value.text) == Some(millis)
      case Literal(SqlText(text)) => text == value.text && (isDate ==> env.parseDate(text).None?)
      case _ => false
    ensures value.Object? && Normalize(env, c, column, value).Literal? ==>
      Normalize(env, c, column, value) == Literal(SqlText(env.stringify(value.entries)))
  {
  }

  lemma {:induction false} ColumnConditionMeans(env: Env, c: ModelClass, path: Path, column: string, value: Where, row: Row)
    ensures Passes(row, ColumnCondition(env, c, path, column, value)) <==> Matches(env, c, column, value, row.cell(path, column))
  {
    if value.List? {
      var ns := NormalizeAll(env, c, column, value.items);
      forall item | item in value.items ensures Normalize(env, c, column, item) in ns {
        var i :| 0 <= i < |value.items| && value.items[i] == item;
        assert ns[i] == Normalize(env, c, column, item);
      }
      if |value.items| != 0 && NoMatch !in ns {
        forall i | 0 <= i < |ns| ensures Literals(ns)[i] == ns[i].value && ns[i] in ns {}
        if row.cell(path, column) in Literals(ns) {
          var i :| 0 <= i < |ns| && Literals(ns)[i] == row.cell(path, column);
          assert Normalize(env, c, column, value.items[i]) == Literal(row.cell(path, column));
        }
      } else if NoMatch in ns {
        var i :| 0 <= i < |ns| && ns[i] == NoMatch;
        assert value.items[i] in value.items;
      }
    }
  }

  /** What an equality search finds: null means NULL, an array one of its elements. */
  ghost predicate Finds(value: Where, cell: SqlValue) {
    match value
    case Null => cell == SqlNull
    case List(items) => cell != SqlNull && exists item :: item in items && Quoted(item) == cell
    case _ => cell == Quoted(value)
  }

  /** An equality search passes the rows it finds. Its negation passes the rows it does not find,
      save that a NULL cell passes only null's and an empty array's negation and a null element
      lets nothing pass. */
  lemma {:induction false} SearchConditionMeans(row: Row, path: Path, column: string, value: Where)
    ensures Passes(row, SearchCondition(path, column, Eq, value)) <==> Finds(value, row.cell(path, column))
    ensures value.Null? ==>
      (Passes(row, SearchCondition(path, column, NotEq, value)) <==> !Finds(value, row.cell(path, column)))
    ensures !value.Null? && !value.List? ==>
      (Passes(row, SearchCondition(path, column, NotEq, value)) <==>
       row.cell(path, column) != SqlNull && !Finds(value, row.cell(path, column)))
    ensures value.List? ==>
      (Passes(row, SearchCondition(path, column, NotEq, value)) <==>
       value.items == [] || (row.cell(path, column) != SqlNull && Null !in value.items && !Finds(value, row.cell(path, column))))
  {
    if value.List? {
      var quoted := QuotedAll(value.items);
      forall item | item in value.items ensures Quoted(item) in quoted {
        var i :| 0 <= i < |value.items| && value.items[i] == item;
        assert quoted[i] == Quoted(item);
      }
      forall q | q in quoted ensures exists item :: item in value.items && Quoted(item) == q {
        var i :| 0 <= i < |quoted| && quoted[i] == q;
        assert value.items[i] in value.items && Quoted(value.items[i]) == q;
      }
    }
  }

  /** The conditions a `where` record appends, as a suffix of the query's conditions. */
  function Appended(q: Query, q': Query): seq<Condition>
    requires |q.conditions| <= |q'.conditions|
  {
    q'.conditions[|q.conditions|..]
  }

  /** Conditions are only appended. */
  ghost predicate Appends(q: Query, q': Query) {
    |q.conditions| <= |q'.conditions| && q'.conditions[..|q.conditions|] == q.conditions
  }

  lemma {:induction false} AppendsTransitive(q: Query, q1: Query, q2: Query)
    requires Appends(q, q1) && Appends(q1, q2)
    ensures Appends(q, q2) && Appended(q, q2) == Appended(q, q1) + Appended(q1, q2)
  {
  }

  lemma {:induction false} PassesConcat(row: Row, a: seq<Condition>, b: seq<Condition>)
    ensures PassesAll(row, a + b) <==> PassesAll(row, a) && PassesAll(row, b)
  {
    assert forall condition :: condition in a + b <==> condition in a || condition in b;
  }

  /** A `where` record is rejected exactly when it is unacceptable, and when it is accepted a
      joined row passes the appended conditions exactly when the record's meaning holds on it. */
  lemma {:induction false} WhereCompilesItsMeaning(q: Query, env: Env, schema: Schema, cls: string, path: Path, where: seq<Entry>, row: Row)
    ensures var (q', error) := ApplyWhere(q, env, schema, cls, path, where);
      && Appends(q, q')
      && (error.None? <==> Acceptable(schema, cls, where))
      && (error.None? ==> (PassesAll(row, Appended(q, q')) <==> Means(env, schema, cls, path, where, row)))
    decreases where, 0
  {
    if where != [] {
      var (q1, error) := ApplyWhereEntry(q, env, schema, cls, path, where[0]);
      EntryCompilesItsMeaning(q, env, schema, cls, path, where[0], row);
      if error.None? {
        var (q', error') := ApplyWhere(q1, env, schema, cls, path, where[1..]);
        WhereCompilesItsMeaning(q1, env, schema, cls, path, where[1..], row);
        AppendsTransitive(q, q1, q');
        PassesConcat(row, Appended(q, q1), Appended(q1, q'));
        FirstAndRest(env, schema, cls, path, where, row);
      }
    }
  }

  lemma {:induction false} FirstAndRest(env: Env, schema: Schema, cls: string, path: Path, where: seq<Entry>, row: Row)
    requires where != []
    ensures Means(env, schema, cls, path, where, row) <==>
      MeansEntry(env, schema, cls, path, where[0], row) && Means(env, schema, cls, path, where[1..], row)
    ensures Acceptable(schema, cls, where) <==> AcceptableEntry(schema, cls, where[0]) && Acceptable(schema, cls, where[1..])
  {
    hide MeansEntry, AcceptableEntry;
    forall i | 0 < i < |where| ensures where[i] == where[1..][i - 1] {}
  }

  lemma {:induction false} EntryCompilesItsMeaning(q: Query, env: Env, schema: Schema, cls: string, path: Path, e: Entry, row: Row)
    ensures var (q', error) := ApplyWhereEntry(q, env, schema, cls, path, e);
      && Appends(q, q')
      && (error.None? <==> AcceptableEntry(schema, cls, e))
      && (error.None? ==> (PassesAll(row, Appended(q, q')) <==> MeansEntry(env, schema, cls, path, e, row)))
    decreases e, 1
  {
    var c := Class(schema, cls);
    var column := QueryableColumn(c, e.key);
    if column.Some? {
      ColumnConditionMeans(env, c, path, column.value, e.value, row);
      var (q', _) := ApplyWhereEntry(q, env, schema, cls, path, e);
      assert Appended(q, q') == [ColumnCondition(env, c, path, column.value, e.value)];
    } else if e.value.Object? && Target(schema, cls, e.key).Some? {
      WhereCompilesItsMeaning(q, env, schema, Target(schema, cls, e.key).value, path + [e.key], e.value.entries, row);
    }
  }

  // ---------------------------------------------------------------- joins precede their use

  /** The path is the root or was joined. */
  predicate Joined(q: Query, path: Path) { path == [] || path in q.joinedPaths }

  predicate RefersTo(condition: Condition) { !condition.Never? && !condition.Always? }

  /** The column belongs, at the class the path leads to, to an attribute its resource exposes. */
  ghost predicate FromExposed(schema: Schema, path: Path, column: string) {
    exists attribute :: ExposedColumn(schema, path, column, attribute)
  }

  predicate ExposedColumn(schema: Schema, path: Path, column: string, attribute: string) {
    && ClassAt(schema, schema.root, path).Some?
    && var c := Class(schema, ClassAt(schema, schema.root, path).value);
       && Exposed(c, attribute)
       && (Lookup(c.columnOf, attribute) == Some(column) || Lookup(c.attributeOf, column) == Some(attribute))
  }

  /** The call records the path as joined. */
  predicate Records(join: Join, path: Path) {
    match join
    case JoinPath(p) => p == path
    case JoinTree(nodes) => path in TreePaths([], nodes)
  }

  /** Every referenced path is joined; requested columns are exposed; the recorded paths are those
      the join calls were made for; no single-path call is made for a recorded path; groups do not
      repeat.  How often the tables of a path are joined is the subject of JoinProofs. */
  ghost predicate Usable(schema: Schema, q: Query) {
    && (forall c :: c in q.conditions && RefersTo(c) ==> Joined(q, c.path) && FromExposed(schema, c.path, c.column))
    && (forall g :: g in q.groups ==> Joined(q, g.path) && (g.requested ==> FromExposed(schema, g.path, g.column)))
    && (forall o :: o in q.orders ==> Joined(q, o.path) && (!o.translated ==> FromExposed(schema, o.path, o.column)))
    && OneCallPerRecordedPath(q)
    && (forall i, j :: 0 <= i < j < |q.groups| ==>
          q.groups[i].path != q.groups[j].path || q.groups[i].column != q.groups[j].column)
  }

  ghost predicate OneCallPerRecordedPath(q: Query) {
    && (forall path :: path in q.joinedPaths <==> exists join :: join in q.joins && Records(join, path))
    && [] !in q.joinedPaths
    && (forall i, j :: 0 <= i < j < |q.joins| && q.joins[j].JoinPath? ==> !Records(q.joins[i], q.joins[j].path))
  }

  lemma {:induction false} QueryableIsExposed(schema: Schema, path: Path, key: string)
    requires ClassAt(schema, schema.root, path).Some?
    ensures var c := Class(schema, ClassAt(schema, schema.root, path).value);
      QueryableColumn(c, key).Some? ==> FromExposed(schema, path, QueryableColumn(c, key).value)
  {
    var c := Class(schema, ClassAt(schema, schema.root, path).value);
    if QueryableColumn(c, key).Some? {
      var attribute := if Lookup(c.aliases, key).Some? then Lookup(c.aliases, key).value else Lookup(c.attributeOf, key).value;
      assert ExposedColumn(schema, path, QueryableColumn(c, key).value, attribute);
    }
  }

  lemma {:induction false} EnsureJoinUsable(schema: Schema, q: Query, path: Path)
    requires Usable(schema, q)
    ensures var q' := EnsureJoin(q, path);
      Usable(schema, q') && Joined(q', path) && q'.conditions == q.conditions && q'.groups == q.groups && q'.orders == q.orders
  {
    hide FromExposed;
    var q' := EnsureJoin(q, path);
    if q' != q {
      forall p ensures p in q'.joinedPaths <==> exists join :: join in q'.joins && Records(join, p) {
        if p == path { assert JoinPath(path) in q'.joins && Records(JoinPath(path), p); }
        if exists join :: join in q.joins && Records(join, p) {
          var join :| join in q.joins && Records(join, p);
          assert join in q'.joins;
        }
      }
      forall i | 0 <= i < |q.joins| ensures !Records(q.joins[i], path) {
        assert q.joins[i] in q.joins;
      }
    }
  }

  lemma {:induction false} AddConditionUsable(schema: Schema, q: Query, condition: Condition)
    requires Usable(schema, q)
    requires RefersTo(condition) ==> Joined(q, condition.path) && FromExposed(schema, condition.path, condition.column)
    ensures Usable(schema, AddCondition(q, condition))
  {
    hide FromExposed, OneCallPerRecordedPath;
    assert OneCallPerRecordedPath(AddCondition(q, condition)) by { JoinsOnlyMatter(q, AddCondition(q, condition)); }
  }

  lemma {:induction false} JoinsOnlyMatter(q: Query, q': Query)
    requires q'.joins == q.joins && q'.joinedPaths == q.joinedPaths && OneCallPerRecordedPath(q)
    ensures OneCallPerRecordedPath(q')
  {
  }

  lemma {:induction false} ClassAtExtended(schema: Schema, cls: string, path: Path, name: string)
    requires ClassAt(schema, cls, path).Some?
    ensures ClassAt(schema, cls, path + [name]) == Target(schema, ClassAt(schema, cls, path).value, name)
    decreases |path|
  {
    if path != [] {
      ClassAtExtended(schema, Target(schema, cls, path[0]).value, path[1..], name);
      assert (path + [name])[1..] == path[1..] + [name];
    } else {
      assert [name][1..] == [] && path + [name] == [name];
    }
  }

  lemma {:induction false} SearchTargetIsClassAt(schema: Schema, cls: string, path: Path)
    ensures SearchTarget(schema, cls, path).Ok? <==> ClassAt(schema, cls, path).Some?
    ensures SearchTarget(schema, cls, path).Ok? ==> ClassAt(schema, cls, path) == Some(SearchTarget(schema, cls, path).value)
    decreases |path|
  {
    if path != [] && Target(schema, cls, path[0]).Some? {
      SearchTargetIsClassAt(schema, Target(schema, cls, path[0]).value, path[1..]);
    }
  }

  lemma {:induction false} WhereUsable(q: Query, env: Env, schema: Schema, cls: string, path: Path, where: seq<Entry>)
    requires Usable(schema, q) && ClassAt(schema, schema.root, path) == Some(cls)
    ensures Usable(schema, ApplyWhere(q, env, schema, cls, path, where).0)
    decreases where, 0
  {
    hide Usable;
    if where != [] {
      WhereEntryUsable(q, env, schema, cls, path, where[0]);
      var (q1, error) := ApplyWhereEntry(q, env, schema, cls, path, where[0]);
      if error.None? { WhereUsable(q1, env, schema, cls, path, where[1..]); }
    }
  }

  lemma {:induction false} WhereEntryUsable(q: Query, env: Env, schema: Schema, cls: string, path: Path, e: Entry)
    requires Usable(schema, q) && ClassAt(schema, schema.root, path) == Some(cls)
    ensures Usable(schema, ApplyWhereEntry(q, env, schema, cls, path, e).0)
    decreases e, 1
  {
    hide Usable, FromExposed;
    var c := Class(schema, cls);
    var column := QueryableColumn(c, e.key);
    if column.Some? {
      QueryableIsExposed(schema, path, e.key);
      EnsureJoinUsable(schema, q, path);
      AddConditionUsable(schema, EnsureJoin(q, path), ColumnCondition(env, c, path, column.value, e.value));
    } else if e.value.Object? && Target(schema, cls, e.key).Some? {
      ClassAtExtended(schema, schema.root, path, e.key);
      WhereUsable(q, env, schema, Target(schema, cls, e.key).value, path + [e.key], e.value.entries);
    }
  }

  lemma {:induction false} EnsureGroupUsable(schema: Schema, q: Query, path: Path, column: string, requested: bool)
    requires Usable(schema, q) && Joined(q, path) && (requested ==> FromExposed(schema, path, column))
    ensures Usable(schema, EnsureGroup(q, path, column, requested))
  {
    hide FromExposed, OneCallPerRecordedPath;
    var q' := EnsureGroup(q, path, column, requested);
    JoinsOnlyMatter(q, q');
    if q' != q {
      forall i | 0 <= i < |q.groups| ensures q.groups[i].path != path || q.groups[i].column != column {
        assert q.groups[i] in q.groups;
      }
    }
  }

  lemma {:induction false} RootGroupsUsable(schema: Schema, q: Query, columns: seq<string>)
    requires Usable(schema, q)
    ensures Usable(schema, ApplyRootGroups(q, columns))
    decreases columns
  {
    hide Usable;
    if columns != [] {
      EnsureGroupUsable(schema, q, [], columns[0], false);
      RootGroupsUsable(schema, EnsureGroup(q, [], columns[0], false), columns[1..]);
    }
  }

  lemma {:induction false} AddOrderUsable(schema: Schema, q: Query, order: Order)
    requires Usable(schema, q) && Joined(q, order.path) && (!order.translated ==> FromExposed(schema, order.path, order.column))
    ensures Usable(schema, q.(orders := q.orders + [order]))
  {
    hide FromExposed, OneCallPerRecordedPath;
    JoinsOnlyMatter(q, q.(orders := q.orders + [order]));
  }

  // ---------------------------------------------------------------- explicit joins

  /** The path follows names down the explicit join tree. */
  ghost predicate InTree(nodes: seq<JoinNode>, path: Path)
    decreases |path|
  {
    path != [] && exists node :: node in nodes && node.name == path[0] && (|path| == 1 || InTree(node.children, path[1..]))
  }

  /** Explicit joins record exactly the non-empty paths of their tree. */
  lemma {:induction false} TreePathsAreThePaths(prefix: Path, nodes: seq<JoinNode>, path: Path)
    ensures path in TreePaths(prefix, nodes) <==>
      |prefix| < |path| && path[..|prefix|] == prefix && InTree(nodes, path[|prefix|..])
    decreases nodes
  {
    if nodes != [] {
      var node := nodes[0];
      var down := prefix + [node.name];
      TreePathsAreThePaths(down, node.children, path);
      TreePathsAreThePaths(prefix, nodes[1..], path);
      if |prefix| < |path| && path[..|prefix|] == prefix {
        var rest := path[|prefix|..];
        assert rest[1..] == path[|prefix| + 1..];
        assert InTree(nodes, rest) <==>
          InTree(nodes[1..], rest) || (node.name == rest[0] && (|rest| == 1 || InTree(node.children, rest[1..])));
        assert path[..|prefix| + 1] == prefix + [rest[0]];
        if path == down { assert |rest| == 1; }
      }
    }
  }

  lemma {:induction false} InTreePrefix(nodes: seq<JoinNode>, path: Path, k: nat)
    requires InTree(nodes, path) && 0 < k <= |path|
    ensures InTree(nodes, path[..k])
    decreases |path|
  {
    var node :| node in nodes && node.name == path[0] && (|path| == 1 || InTree(node.children, path[1..]));
    if k > 1 {
      InTreePrefix(node.children, path[1..], k - 1);
      assert path[..k][1..] == path[1..][..k - 1];
    }
  }

  /** The recorded paths are closed under non-empty prefixes. */
  lemma {:induction false} TreePathsArePrefixClosed(nodes: seq<JoinNode>, path: Path, k: nat)
    requires path in TreePaths([], nodes) && 0 < k <= |path|
    ensures path[..k] in TreePaths([], nodes)
  {
    TreePathsAreThePaths([], nodes, path);
    TreePathsAreThePaths([], nodes, path[..k]);
    assert path[0..] == path && path[..k][0..] == path[..k];
    InTreePrefix(nodes, path, k);
  }

  lemma {:induction false} JoinsUsable(schema: Schema, q: Query, nodes: seq<JoinNode>)
    requires Usable(schema, q)
    ensures Usable(schema, ApplyJoins(q, schema, nodes).0)
  {
    hide FromExposed, TreePaths;
    var q' := ApplyJoins(q, schema, nodes).0;
    if q' != q {
      TreePathsAreThePaths([], nodes, []);
      forall p ensures p in q'.joinedPaths <==> exists join :: join in q'.joins && Records(join, p) {
        assert JoinTree(nodes) in q'.joins && (Records(JoinTree(nodes), p) <==> p in TreePaths([], nodes));
        if exists join :: join in q.joins && Records(join, p) {
          var join :| join in q.joins && Records(join, p);
          assert join in q'.joins;
        }
      }
    }
  }

  // ---------------------------------------------------------------- every sequence of calls

  lemma {:induction false} OpUsable(q: Query, env: Env, schema: Schema, op: Op)
    requires Usable(schema, q)
    ensures Usable(schema, ApplyOp(q, env, schema, op).0)
  {
    hide Usable, FromExposed;
    match op {
      case WhereOp(where) => WhereUsable(q, env, schema, schema.root, [], where);
      case RootGroupsOp(columns) => RootGroupsUsable(schema, q, columns);
      case JoinsOp(nodes) => JoinsUsable(schema, q, nodes);
      case SearchOp(path, key, operator, value) =>
        SearchTargetIsClassAt(schema, schema.root, path);
        if SearchTarget(schema, schema.root, path).Ok? {
          QueryableIsExposed(schema, path, key);
          EnsureJoinUsable(schema, q, path);
          var column := QueryableColumn(Class(schema, SearchTarget(schema, schema.root, path).value), key);
          if column.Some? { AddConditionUsable(schema, EnsureJoin(q, path), SearchCondition(path, column.value, operator, value)); }
        }
      case GroupOp(path, key) =>
        SearchTargetIsClassAt(schema, schema.root, path);
        if SearchTarget(schema, schema.root, path).Ok? {
          QueryableIsExposed(schema, path, key);
          EnsureJoinUsable(schema, q, path);
          var column := QueryableColumn(Class(schema, SearchTarget(schema, schema.root, path).value), key);
          if column.Some? { EnsureGroupUsable(schema, EnsureJoin(q, path), path, column.value, true); }
        }
      case SortOp(path, key, direction) => SortUsable(q, schema, path, key, direction);
    }
  }

  lemma {:induction false} SortUsable(q: Query, schema: Schema, path: Path, key: string, direction: string)
    requires Usable(schema, q)
    ensures Usable(schema, ApplySort(q, schema, path, key, direction).0)
  {
    hide Usable, FromExposed;
    SearchTargetIsClassAt(schema, schema.root, path);
    if SearchTarget(schema, schema.root, path).Ok? {
      var c := Class(schema, SearchTarget(schema, schema.root, path).value);
      var translation := path + ["currentTranslation"];
      if key in c.translated {
        EnsureJoinUsable(schema, q, translation);
        if Lookup(c.translations, key).Some? {
          AddOrderUsable(schema, EnsureJoin(q, translation), Order(translation, Lookup(c.translations, key).value, direction, true));
        }
      } else {
        QueryableIsExposed(schema, path, key);
        EnsureJoinUsable(schema, q, path);
        var column := QueryableColumn(c, key);
        if column.Some? { AddOrderUsable(schema, EnsureJoin(q, path), Order(path, column.value, direction, false)); }
      }
    }
  }

  /** After any sequence of calls on a fresh query, failing calls included, every table reference
      is joined, every requested column exposed, and no call was made for a recorded path. */
  lemma {:induction false} EveryQueryIsUsable(q: Query, env: Env, schema: Schema, ops: seq<Op>)
    requires Usable(schema, q)
    ensures Usable(schema, ApplyOps(q, env, schema, ops))
    ensures Usable(schema, EMPTY_QUERY)
    decreases ops
  {
    if ops != [] {
      OpUsable(q, env, schema, ops[0]);
      EveryQueryIsUsable(ApplyOp(q, env, schema, ops[0]).0, env, schema, ops[1..]);
    }
  }
}

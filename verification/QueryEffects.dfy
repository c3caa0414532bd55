/** What each call on a query means: the columns it may name, the rows a search passes, and what a
    group, a sort and an explicit join add. */
module QueryEffects {
  import opened Outcomes
  import opened QueryCompiler
  import opened QueryProofs

  // ---------------------------------------------------------------- columns

  /** The key names this column of this attribute: as the attribute's name, or else as the column's. */
  predicate NamesColumn(c: ModelClass, key: string, attribute: string, column: string) {
    && attribute != "" && column != ""
    && if key in c.aliases && c.aliases[key] != "" then c.aliases[key] == attribute && attribute in c.columnOf && c.columnOf[attribute] == column
       else key == column && key in c.attributeOf && c.attributeOf[key] == attribute
  }

  predicate IsExposed(c: ModelClass, attribute: string) { c.exposed.None? || attribute in c.exposed.value }

  /** A key is queryable exactly as the column of an exposed attribute that it names. */
  lemma {:induction false} QueryableIffItNamesAnExposedColumn(c: ModelClass, key: string, column: string)
    ensures QueryableColumn(c, key) == Some(column) <==>
      exists attribute :: NamesColumn(c, key, attribute, column) && IsExposed(c, attribute)
  {
    if key in c.aliases && c.aliases[key] != "" {
      assert NamesColumn(c, key, c.aliases[key], column) <==> ResolveColumnName(c, key) == Some(column);
    } else if key in c.attributeOf {
      assert NamesColumn(c, key, c.attributeOf[key], column) <==> ResolveColumnName(c, key) == Some(column);
    }
  }

  /** The column a path and a key refer to, if the path resolves and the key is queryable there. */
  function ColumnAt(schema: Schema, path: Path, key: string): Option<string> {
    var cls := ClassAt(schema, schema.root, path);
    if cls.None? then None else QueryableColumn(Class(schema, cls.value), key)
  }

  // ---------------------------------------------------------------- column types

  ghost predicate Holds(s: string, part: string) { exists before, after :: s == before + part + after }

  lemma {:induction false} HoldsAtHeadOrBelow(s: string, part: string)
    requires s != ""
    ensures Holds(s, part) <==> (|part| <= |s| && s[..|part|] == part) || Holds(s[1..], part)
  {
    if |part| <= |s| && s[..|part|] == part { assert s == [] + part + s[|part|..]; }
    if Holds(s[1..], part) {
      var before, after :| s[1..] == before + part + after;
      HoldsBelow(s, before, part, after);
    }
    if Holds(s, part) {
      var before, after :| s == before + part + after;
      if before == [] {
        assert s[..|part|] == part;
      } else {
        assert s[1..] == before[1..] + part + after;
      }
    }
  }

  lemma {:induction false} HoldsBelow(s: string, before: string, part: string, after: string)
    requires s != "" && s[1..] == before + part + after
    ensures Holds(s, part)
  {
    assert s == ([s[0]] + before) + part + after;
  }

  lemma {:induction false} IncludesIffItHolds(s: string, part: string)
    ensures Includes(s, part) <==> Holds(s, part)
    decreases |s|
  {
    hide Holds;
    if s != "" {
      HoldsAtHeadOrBelow(s, part);
      IncludesIffItHolds(s[1..], part);
    } else {
      HoldsInNothing(part);
    }
  }

  lemma {:induction false} HoldsInNothing(part: string)
    ensures Holds("", part) <==> part == ""
  {
    if part == "" { assert "" == "" + part + ""; }
  }

  predicate IsObjectType(columnType: string) {
    || columnType == "char" || columnType == "varchar" || columnType == "nvarchar" || columnType == "string" || columnType == "enum"
    || columnType == "json" || columnType == "jsonb" || columnType == "citext" || columnType == "binary" || columnType == "varbinary"
  }

  /** Date columns are those whose type has date or timestamp in it; objects fit the columns whose type
      has text in it and ten types more. */
  lemma {:induction false} ColumnTypesBySubstring(columnType: string)
    ensures IsDateType(columnType) <==> Holds(columnType, "date") || Holds(columnType, "timestamp")
    ensures HoldsObjects(columnType) <==> Holds(columnType, "text") || IsObjectType(columnType)
  {
    hide Includes, Holds;
    IncludesIffItHolds(columnType, "date");
    IncludesIffItHolds(columnType, "datetime");
    IncludesIffItHolds(columnType, "timestamp");
    IncludesIffItHolds(columnType, "text");
    DatetimeHoldsDate(columnType);
  }

  lemma {:induction false} DatetimeHoldsDate(columnType: string)
    ensures Holds(columnType, "datetime") ==> Holds(columnType, "date")
  {
    if Holds(columnType, "datetime") {
      var before, after :| columnType == before + "datetime" + after;
      assert "datetime" == "date" + "time";
      assert columnType == before + "date" + ("time" + after);
    }
  }

  // ---------------------------------------------------------------- search

  /** What a search finds: equality and its negation, or the database's own comparison. */
  ghost predicate FindsBy(row: Row, op: Operator, value: Where, cell: SqlValue) {
    match op
    case Eq => Finds(value, cell)
    case NotEq =>
      (match value
       case Null => cell != SqlNull
       case List(items) => items == [] || (cell != SqlNull && Null !in items && !Finds(value, cell))
       case _ => cell != SqlNull && !Finds(value, cell))
    case _ => cell != SqlNull && value != Null && row.compares(op, cell, Quoted(value))
  }

  lemma {:induction false} SearchPasses(row: Row, path: Path, column: string, op: Operator, value: Where)
    ensures Passes(row, SearchCondition(path, column, op, value)) <==> FindsBy(row, op, value, row.cell(path, column))
  {
    hide Finds;
    SearchConditionMeans(row, path, column, value);
  }

  /** A search is accepted exactly when it refers to a queryable column, and then filters that
      column, joined, by its own operator and value. */
  lemma {:induction false} SearchCompilesItsMeaning(q: Query, schema: Schema, path: Path, key: string, op: Operator, value: Where, row: Row)
    ensures var (q', error) := ApplySearch(q, schema, path, key, op, value);
      var column := ColumnAt(schema, path, key);
      && (error.None? <==> column.Some?)
      && (error.Some? ==> q' == q)
      && (error.None? ==>
            && Appends(q, q') && Joined(q', path) && q'.groups == q.groups && q'.orders == q.orders
            && (PassesAll(row, Appended(q, q')) <==> FindsBy(row, op, value, row.cell(path, column.value))))
  {
    hide ClassAt, SearchTarget, QueryableColumn, Passes, Finds, FindsBy, SearchCondition;
    SearchTargetIsClassAt(schema, schema.root, path);
    var column := ColumnAt(schema, path, key);
    if column.Some? {
      SearchPasses(row, path, column.value, op, value);
      var (q', _) := ApplySearch(q, schema, path, key, op, value);
      assert Appended(q, q') == [SearchCondition(path, column.value, op, value)];
      assert forall c :: c in Appended(q, q') <==> c == SearchCondition(path, column.value, op, value);
    }
  }

  // ---------------------------------------------------------------- group

  /** A group is accepted exactly when it refers to a queryable column, which it joins and groups by. */
  lemma {:induction false} GroupAddsItsColumn(q: Query, schema: Schema, path: Path, key: string)
    ensures var (q', error) := ApplyGroup(q, schema, path, key);
      var column := ColumnAt(schema, path, key);
      && (error.None? <==> column.Some?)
      && (error.Some? ==> q' == q)
      && (error.None? ==>
            && Joined(q', path) && q'.conditions == q.conditions && q'.orders == q.orders
            && forall p, c :: Grouped(q', p, c) <==> Grouped(q, p, c) || (p == path && c == column.value))
  {
    SearchTargetIsClassAt(schema, schema.root, path);
    var column := ColumnAt(schema, path, key);
    if column.Some? { EnsureGroupAdds(EnsureJoin(q, path), path, column.value, true); }
  }

  lemma {:induction false} EnsureGroupAdds(q: Query, path: Path, column: string, requested: bool)
    ensures var q' := EnsureGroup(q, path, column, requested);
      forall p, c :: Grouped(q', p, c) <==> Grouped(q, p, c) || (p == path && c == column)
  {
    var q' := EnsureGroup(q, path, column, requested);
    if q' != q {
      var g := Group(path, column, requested);
      assert g in q'.groups;
      forall p, c ensures Grouped(q', p, c) <==> Grouped(q, p, c) || (p == path && c == column) {
        if h :| h in q.groups && h.path == p && h.column == c { assert h in q'.groups; }
      }
    }
  }

  /** Every root column is grouped by, and nothing else is added. */
  lemma {:induction false} RootGroupsAddTheirColumns(q: Query, columns: seq<string>)
    ensures var q' := ApplyRootGroups(q, columns);
      && q'.conditions == q.conditions && q'.orders == q.orders && q'.joins == q.joins
      && forall p, c :: Grouped(q', p, c) <==> Grouped(q, p, c) || (p == [] && c in columns)
    decreases columns
  {
    hide Grouped;
    if columns != [] {
      EnsureGroupAdds(q, [], columns[0], false);
      RootGroupsAddTheirColumns(EnsureGroup(q, [], columns[0], false), columns[1..]);
    }
  }

  // ---------------------------------------------------------------- sort

  /** A sort orders by its column in its direction, a translated one by the translation's column. */
  lemma {:induction false} SortOrdersByItsColumn(q: Query, schema: Schema, path: Path, key: string, direction: string)
    ensures var (q', error) := ApplySort(q, schema, path, key, direction);
      var cls := ClassAt(schema, schema.root, path);
      var isTranslated := cls.Some? && key in Class(schema, cls.value).translated;
      && (isTranslated ==>
            var translations := Class(schema, cls.value).translations;
            && (error.None? <==> key in translations && translations[key] != "")
            && (error.None? ==>
                  && Joined(q', path + ["currentTranslation"])
                  && q'.orders == q.orders + [Order(path + ["currentTranslation"], translations[key], direction, true)]))
      && (!isTranslated ==>
            && (error.None? <==> ColumnAt(schema, path, key).Some?)
            && (error.None? ==>
                  && Joined(q', path)
                  && q'.orders == q.orders + [Order(path, ColumnAt(schema, path, key).value, direction, false)]))
      && (error.Some? ==> q' == q)
      && q'.conditions == q.conditions && q'.groups == q.groups
  {
    SearchTargetIsClassAt(schema, schema.root, path);
  }

  // ---------------------------------------------------------------- explicit joins

  /** Every path of the tree resolves to a class. */
  ghost predicate AllResolve(schema: Schema, cls: string, nodes: seq<JoinNode>) {
    forall path :: InTree(nodes, path) ==> ClassAt(schema, cls, path).Some?
  }

  lemma {:induction false} InTreeOfFirstOrRest(nodes: seq<JoinNode>, path: Path)
    requires nodes != []
    ensures InTree(nodes, path) <==>
      InTree(nodes[1..], path) || (path != [] && path[0] == nodes[0].name && (|path| == 1 || InTree(nodes[0].children, path[1..])))
  {
    assert nodes == [nodes[0]] + nodes[1..];
  }

  lemma {:induction false} AllResolveIfFirstAndRestDo(schema: Schema, cls: string, nodes: seq<JoinNode>)
    requires nodes != [] && Target(schema, cls, nodes[0].name).Some? && AllResolve(schema, cls, nodes[1..])
    requires AllResolve(schema, Target(schema, cls, nodes[0].name).value, nodes[0].children)
    ensures AllResolve(schema, cls, nodes)
  {
    hide InTree;
    forall path | InTree(nodes, path) ensures ClassAt(schema, cls, path).Some? {
      InTreeOfFirstOrRest(nodes, path);
      if |path| == 1 { assert path[1..] == []; }
    }
  }

  lemma {:induction false} FirstAndRestResolveIfAllDo(schema: Schema, cls: string, nodes: seq<JoinNode>)
    requires nodes != [] && AllResolve(schema, cls, nodes)
    ensures AllResolve(schema, cls, nodes[1..]) && Target(schema, cls, nodes[0].name).Some?
    ensures AllResolve(schema, Target(schema, cls, nodes[0].name).value, nodes[0].children)
  {
    hide InTree;
    var name := nodes[0].name;
    forall path | InTree(nodes[1..], path) ensures ClassAt(schema, cls, path).Some? { InTreeOfFirstOrRest(nodes, path); }
    InTreeOfFirstOrRest(nodes, [name]);
    assert ClassAt(schema, cls, [name]).Some?;
    forall path | InTree(nodes[0].children, path) ensures ClassAt(schema, Target(schema, cls, name).value, path).Some? {
      var longer := [name] + path;
      InTreeOfFirstOrRest(nodes, longer);
      assert longer[1..] == path && InTree(nodes, longer);
    }
  }

  lemma {:induction false} TreeErrorIff(schema: Schema, cls: string, nodes: seq<JoinNode>)
    ensures TreeError(schema, cls, nodes).None? <==> AllResolve(schema, cls, nodes)
    decreases nodes
  {
    if nodes != [] {
      hide AllResolve;
      var target := Target(schema, cls, nodes[0].name);
      TreeErrorIff(schema, cls, nodes[1..]);
      if AllResolve(schema, cls, nodes) { FirstAndRestResolveIfAllDo(schema, cls, nodes); }
      if target.Some? {
        TreeErrorIff(schema, target.value, nodes[0].children);
        if TreeError(schema, cls, nodes).None? { AllResolveIfFirstAndRestDo(schema, cls, nodes); }
      }
    }
  }

  /** Explicit joins are accepted exactly when every path of their tree resolves, and then joined as
      one call; otherwise nothing is joined. */
  lemma {:induction false} ExplicitJoinsAreAllOrNothing(q: Query, schema: Schema, nodes: seq<JoinNode>)
    ensures var (q', error) := ApplyJoins(q, schema, nodes);
      && (error.None? <==> AllResolve(schema, schema.root, nodes))
      && (error.None? ==> q'.joins == q.joins + [JoinTree(nodes)] && forall path :: InTree(nodes, path) ==> Joined(q', path))
      && (error.Some? ==> q' == q)
  {
    TreeErrorIff(schema, schema.root, nodes);
    forall path ensures InTree(nodes, path) ==> path in TreePaths([], nodes) {
      TreePathsAreThePaths([], nodes, path);
      assert path[0..] == path && path[..0] == [];
    }
  }
}

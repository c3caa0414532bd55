/** The query compiler's methods as they update one query in place, each proved to be the function
    of QueryCompiler and to keep the query usable. */
module QueryBuilder {
  import opened Outcomes
  import opened QueryCompiler
  import opened QueryProofs

  class Builder {
    const env: Env
    const schema: Schema
    var joins: seq<Join>
    var joinedPaths: set<Path>
    var conditions: seq<Condition>
    var groups: seq<Group>
    var orders: seq<Order>

    function Built(): Query
      reads this
    {
      Query(joins, joinedPaths, conditions, groups, orders)
    }

    ghost predicate Valid()
      reads this
    {
      Usable(schema, Built())
    }

    constructor (env: Env, schema: Schema)
      ensures Valid() && Built() == EMPTY_QUERY && this.env == env && this.schema == schema
    {
      this.env, this.schema := env, schema;
      joins, joinedPaths, conditions, groups, orders := [], {}, [], [], [];
    }

    method EnsureJoinPath(path: Path)
      requires Valid()
      modifies this
      ensures Valid() && Built() == EnsureJoin(old(Built()), path) && Joined(Built(), path)
      ensures |joins| <= |old(joins)| + 1
    {
      EnsureJoinUsable(schema, Built(), path);
      if |path| < 1 { return; }
      if path in joinedPaths { return; }
      joins := joins + [JoinPath(path)];
      joinedPaths := joinedPaths + {path};
    }

    /** The loop over one nested `where` record. */
    method ApplyWhereForPath(cls: string, path: Path, where: seq<Entry>) returns (error: Option<Error>)
      requires Valid() && ClassAt(schema, schema.root, path) == Some(cls)
      modifies this
      ensures Valid() && (Built(), error) == ApplyWhere(old(Built()), env, schema, cls, path, where)
      decreases where
    {
      hide Usable;
      var c := Class(schema, cls);
      for k := 0 to |where|
        invariant Valid()
        invariant ApplyWhere(old(Built()), env, schema, cls, path, where) == ApplyWhere(Built(), env, schema, cls, path, where[k..])
      {
        var e := where[k];
        assert where[k..][0] == e && where[k..][1..] == where[k + 1..];
        WhereEntryUsable(Built(), env, schema, cls, path, e);
        var column := QueryableColumn(c, e.key);
        if column.Some? {
          EnsureJoinPath(path);
          conditions := conditions + [ColumnCondition(env, c, path, column.value, e.value)];
          continue;
        }
        if e.value.Object? {
          if e.key !in c.relationships { return Some(UnknownRelationship(cls, e.key)); }
          if c.relationships[e.key].None? { return Some(NoTargetClass(cls, e.key)); }
          ClassAtExtended(schema, schema.root, path, e.key);
          var nested := ApplyWhereForPath(c.relationships[e.key].value, path + [e.key], e.value.entries);
          if nested.Some? { return nested; }
          continue;
        }
        return Some(UnknownColumn(cls, e.key));
      }
      return None;
    }

    /** Collects the paths of an explicit join tree, or the error of its first bad node. */
    method CollectJoinPaths(cls: string, path: Path, nodes: seq<JoinNode>) returns (paths: set<Path>, error: Option<Error>)
      ensures error == TreeError(schema, cls, nodes)
      ensures error.None? ==> paths == TreePaths(path, nodes)
      decreases nodes
    {
      paths, error := {}, None;
      var c := Class(schema, cls);
      for k := 0 to |nodes|
        invariant TreeError(schema, cls, nodes) == TreeError(schema, cls, nodes[k..])
        invariant paths + TreePaths(path, nodes[k..]) == TreePaths(path, nodes)
      {
        var node := nodes[k];
        assert nodes[k..][0] == node && nodes[k..][1..] == nodes[k + 1..];
        if node.name !in c.relationships { return {}, Some(UnknownRelationship(cls, node.name)); }
        if c.relationships[node.name].None? { return {}, Some(NoTargetClass(cls, node.name)); }
        var below, belowError := CollectJoinPaths(c.relationships[node.name].value, path + [node.name], node.children);
        if belowError.Some? { return {}, belowError; }
        paths := paths + {path + [node.name]} + below;
      }
    }

    method ApplyExplicitJoins(nodes: seq<JoinNode>) returns (error: Option<Error>)
      requires Valid()
      modifies this
      ensures Valid() && (Built(), error) == ApplyJoins(old(Built()), schema, nodes)
    {
      hide Usable;
      JoinsUsable(schema, Built(), nodes);
      var paths;
      paths, error := CollectJoinPaths(schema.root, [], nodes);
      if error.Some? { return; }
      joins := joins + [JoinTree(nodes)];
      joinedPaths := joinedPaths + paths;
    }

    method SearchTargetClass(path: Path) returns (target: Outcome<string, Error>)
      ensures target == SearchTarget(schema, schema.root, path)
    {
      var cls := schema.root;
      for k := 0 to |path|
        invariant SearchTarget(schema, schema.root, path) == SearchTarget(schema, cls, path[k..])
      {
        var relationships := Class(schema, cls).relationships;
        if path[k] !in relationships { return Threw(UnknownRelationship(cls, path[k])); }
        if relationships[path[k]].None? { return Threw(NoTargetClass(cls, path[k])); }
        assert path[k..][1..] == path[k + 1..];
        cls := relationships[path[k]].value;
      }
      return Ok(cls);
    }

    method Search(path: Path, key: string, op: Operator, value: Where) returns (error: Option<Error>)
      requires Valid()
      modifies this
      ensures Valid() && (Built(), error) == ApplySearch(old(Built()), schema, path, key, op, value)
    {
      hide Usable;
      OpUsable(Built(), env, schema, SearchOp(path, key, op, value));
      var target := SearchTargetClass(path);
      if target.Threw? { return Some(target.error); }
      var column := QueryableColumn(Class(schema, target.value), key);
      if column.None? { return Some(UnknownColumn(target.value, key)); }
      EnsureJoinPath(path);
      conditions := conditions + [SearchCondition(path, column.value, op, value)];
      return None;
    }

    method EnsureGroupColumn(path: Path, column: string, requested: bool)
      modifies this
      ensures Built() == EnsureGroup(old(Built()), path, column, requested)
    {
      if Grouped(Built(), path, column) { return; }
      groups := groups + [Group(path, column, requested)];
    }

    method GroupBy(path: Path, key: string) returns (error: Option<Error>)
      requires Valid()
      modifies this
      ensures Valid() && (Built(), error) == ApplyGroup(old(Built()), schema, path, key)
    {
      hide Usable;
      OpUsable(Built(), env, schema, GroupOp(path, key));
      var target := SearchTargetClass(path);
      if target.Threw? { return Some(target.error); }
      var column := QueryableColumn(Class(schema, target.value), key);
      if column.None? { return Some(UnknownColumn(target.value, key)); }
      EnsureJoinPath(path);
      EnsureGroupColumn(path, column.value, true);
      return None;
    }

    method GroupByRootColumns(columns: seq<string>)
      requires Valid()
      modifies this
      ensures Valid() && Built() == ApplyRootGroups(old(Built()), columns)
    {
      hide Usable;
      RootGroupsUsable(schema, Built(), columns);
      for k := 0 to |columns|
        invariant ApplyRootGroups(old(Built()), columns) == ApplyRootGroups(Built(), columns[k..])
      {
        assert columns[k..][0] == columns[k] && columns[k..][1..] == columns[k + 1..];
        EnsureGroupColumn([], columns[k], false);
      }
    }

    method SortBy(path: Path, key: string, direction: string) returns (error: Option<Error>)
      requires Valid()
      modifies this
      ensures Valid() && (Built(), error) == ApplySort(old(Built()), schema, path, key, direction)
    {
      hide Usable;
      SortUsable(Built(), schema, path, key, direction);
      var target := SearchTargetClass(path);
      if target.Threw? { return Some(target.error); }
      var c := Class(schema, target.value);
      var column := QueryableColumn(c, key);
      if key in c.translated {
        var translationColumn := Lookup(c.translations, key);
        if translationColumn.None? { return Some(UnknownColumn(target.value, key)); }
        EnsureJoinPath(path + ["currentTranslation"]);
        orders := orders + [Order(path + ["currentTranslation"], translationColumn.value, direction, true)];
        return None;
      }
      if column.None? { return Some(UnknownColumn(target.value, key)); }
      EnsureJoinPath(path);
      orders := orders + [Order(path, column.value, direction, false)];
      return None;
    }
  }
}

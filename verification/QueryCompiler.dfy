/** The frontend-model query compiler of src/frontend-model-controller.js: nested `where`
    records, searches, groups, sorts and explicit joins appended to one query. */
module QueryCompiler {
  import opened Outcomes

  type Path = seq<string>

  // ---------------------------------------------------------------- schema

  /** What the compiler asks of a model class.  `aliases` is `resolveAttributeName`; column types
      are lower-cased; a relationship may lack a target class; without resource metadata
      (`exposed` None) every attribute is exposed. */
  datatype ModelClass = ModelClass(
    aliases: map<string, string>, columnOf: map<string, string>, attributeOf: map<string, string>,
    columnTypes: map<string, string>, exposed: Option<set<string>>,
    relationships: map<string, Option<string>>, translations: map<string, string>, translated: set<string>)

  datatype Schema = Schema(classes: map<string, ModelClass>, root: string)

  function Class(schema: Schema, cls: string): ModelClass {
    if cls in schema.classes then schema.classes[cls]
    else ModelClass(map[], map[], map[], map[], None, map[], map[], {})
  }

  /** A map lookup used as a JavaScript condition: missing and empty are both falsy. */
  function Lookup(m: map<string, string>, key: string): Option<string> {
    if key in m && m[key] != "" then Some(m[key]) else None
  }

  predicate Exposed(c: ModelClass, attribute: string) {
    c.exposed.Some? ==> attribute in c.exposed.value
  }

  function ResolveColumnName(c: ModelClass, key: string): Option<string> {
    if Lookup(c.aliases, key).Some? then Lookup(c.columnOf, Lookup(c.aliases, key).value)
    else if key != "" && Lookup(c.attributeOf, key).Some? then Some(key)
    else None
  }

  /** `resolveFrontendModelQueryableColumnName`. */
  function QueryableColumn(c: ModelClass, key: string): Option<string> {
    var attribute := if Lookup(c.aliases, key).Some? then Lookup(c.aliases, key) else Lookup(c.attributeOf, key);
    if attribute.Some? && !Exposed(c, attribute.value) then None else ResolveColumnName(c, key)
  }

  /** The class a relationship of `cls` leads to. */
  function Target(schema: Schema, cls: string, name: string): Option<string> {
    var relationships := Class(schema, cls).relationships;
    if name in relationships then relationships[name] else None
  }

  /** The class a relationship path leads to, if every step exists. */
  function ClassAt(schema: Schema, cls: string, path: Path): Option<string>
    decreases |path|
  {
    if path == [] then Some(cls)
    else if Target(schema, cls, path[0]).None? then None
    else ClassAt(schema, Target(schema, cls, path[0]).value, path[1..])
  }

  // ---------------------------------------------------------------- values

  /** A JSON `where` value; `Atom` is anything that is not null, a string, an array or a plain object. */
  datatype Where = Null | Text(text: string) | Atom(json: string) | List(items: seq<Where>) | Object(entries: seq<Entry>)

  datatype Entry = Entry(key: string, value: Where)

  /** A value in a column or in SQL text. */
  datatype SqlValue = SqlNull | SqlText(text: string) | SqlDate(millis: int) | SqlOther(value: Where)

  datatype Normalized = NoMatch | Literal(value: SqlValue)

  /** Date parsing in the environment's time zone, and `JSON.stringify`. */
  datatype Env = Env(parseDate: string -> Option<int>, stringify: seq<Entry> -> string)

  predicate Includes(s: string, part: string) {
    |part| <= |s| && (s[..|part|] == part || (s != "" && Includes(s[1..], part)))
  }

  predicate IsDateType(columnType: string) {
    Includes(columnType, "date") || Includes(columnType, "datetime") || Includes(columnType, "timestamp")
  }

  predicate HoldsObjects(columnType: string) {
    || Includes(columnType, "text")
    || columnType in {"char", "varchar", "nvarchar", "string", "enum", "json", "jsonb", "citext", "binary", "varbinary"}
  }

  /** `normalizeFrontendModelWhereColumnValue`. */
  function Normalize(env: Env, c: ModelClass, column: string, value: Where): Normalized {
    match value
    case Null => Literal(SqlNull)
    case Text(text) =>
      if column in c.columnTypes && IsDateType(c.columnTypes[column]) && env.parseDate(text).Some?
      then Literal(SqlDate(env.parseDate(text).value)) else Literal(SqlText(text))
    case Object(entries) =>
      if column in c.columnTypes && HoldsObjects(c.columnTypes[column]) then Literal(SqlText(env.stringify(entries))) else NoMatch
    case _ => Literal(SqlOther(value))
  }

  // ---------------------------------------------------------------- the query

  datatype Operator = Eq | NotEq | Gt | Gteq | Like | Lt | Lteq

  datatype Condition =
    | Never                                                        // 1=0
    | Always                                                       // 1=1
    | IsNull(path: Path, column: string)
    | IsNotNull(path: Path, column: string)
    | Compare(path: Path, column: string, op: Operator, value: SqlValue)
    | In(path: Path, column: string, values: seq<SqlValue>)
    | NotIn(path: Path, column: string, values: seq<SqlValue>)

  /** One `query.joins(...)` call: for a single path, or with the explicit join tree of the request. */
  datatype Join = JoinPath(path: Path) | JoinTree(nodes: seq<JoinNode>)

  /** A node of the explicit joins; a leaf is `true` (or an empty object). */
  datatype JoinNode = JoinNode(name: string, children: seq<JoinNode>)

  /** `buildFrontendModelJoinObjectFromPath`: one nested node per step. */
  function JoinObjectFromPath(path: Path): seq<JoinNode> {
    if path == [] then [] else [JoinNode(path[0], JoinObjectFromPath(path[1..]))]
  }

  /** The object a call hands to the query, which joins one table per node of it. */
  function JoinObject(join: Join): seq<JoinNode> {
    match join
    case JoinPath(path) => JoinObjectFromPath(path)
    case JoinTree(nodes) => nodes
  }

  datatype Query = Query(
    joins: seq<Join>, joinedPaths: set<Path>, conditions: seq<Condition>,
    groups: seq<Group>, orders: seq<Order>)

  /** A GROUP BY column; `requested` tells a requested column from a default root column. */
  datatype Group = Group(path: Path, column: string, requested: bool)

  datatype Order = Order(path: Path, column: string, direction: string, translated: bool)

  datatype Error =
    | UnknownRelationship(cls: string, name: string)
    | NoTargetClass(cls: string, name: string)
    | UnknownColumn(cls: string, name: string)

  const EMPTY_QUERY := Query([], {}, [], [], [])

  /** `ensureFrontendModelJoinPath`. */
  function EnsureJoin(q: Query, path: Path): Query {
    if |path| < 1 || path in q.joinedPaths then q
    else q.(joins := q.joins + [JoinPath(path)], joinedPaths := q.joinedPaths + {path})
  }

  function AddCondition(q: Query, condition: Condition): Query { q.(conditions := q.conditions + [condition]) }

  // ---------------------------------------------------------------- where

  function Literals(ns: seq<Normalized>): seq<SqlValue>
    requires NoMatch !in ns
  {
    seq(|ns|, i requires 0 <= i < |ns| => ns[i].value)
  }

  function NormalizeAll(env: Env, c: ModelClass, column: string, items: seq<Where>): seq<Normalized> {
    seq(|items|, i requires 0 <= i < |items| => Normalize(env, c, column, items[i]))
  }

  /** The condition a queryable column emits. */
  function ColumnCondition(env: Env, c: ModelClass, path: Path, column: string, value: Where): Condition {
    match value
    case List(items) =>
      var ns := NormalizeAll(env, c, column, items);
      if |items| == 0 || NoMatch in ns then Never else In(path, column, Literals(ns))
    case Null => IsNull(path, column)
    case _ =>
      var n := Normalize(env, c, column, value);
      if n.NoMatch? then Never else Compare(path, column, Eq, n.value)
  }

  /** One `where` record; an error leaves what the earlier keys appended. */
  function ApplyWhere(q: Query, env: Env, schema: Schema, cls: string, path: Path, where: seq<Entry>): (Query, Option<Error>)
    decreases where, 0
  {
    if where == [] then (q, None)
    else
      var (q1, error) := ApplyWhereEntry(q, env, schema, cls, path, where[0]);
      if error.Some? then (q1, error) else ApplyWhere(q1, env, schema, cls, path, where[1..])
  }

  function ApplyWhereEntry(q: Query, env: Env, schema: Schema, cls: string, path: Path, e: Entry): (Query, Option<Error>)
    decreases e, 1
  {
    var c := Class(schema, cls);
    var column := QueryableColumn(c, e.key);
    if column.Some? then
      (AddCondition(EnsureJoin(q, path), ColumnCondition(env, c, path, column.value, e.value)), None)
    else if e.value.Object? then
      if e.key !in c.relationships then (q, Some(UnknownRelationship(cls, e.key)))
      else if c.relationships[e.key].None? then (q, Some(NoTargetClass(cls, e.key)))
      else ApplyWhere(q, env, schema, c.relationships[e.key].value, path + [e.key], e.value.entries)
    else (q, Some(UnknownColumn(cls, e.key)))
  }

  // ---------------------------------------------------------------- search, group, sort, joins

  /** `frontendModelSearchTargetModelClass`. */
  function SearchTarget(schema: Schema, cls: string, path: Path): Outcome<string, Error>
    decreases |path|
  {
    if path == [] then Ok(cls)
    else if path[0] !in Class(schema, cls).relationships then Threw(UnknownRelationship(cls, path[0]))
    else if Class(schema, cls).relationships[path[0]].None? then Threw(NoTargetClass(cls, path[0]))
    else SearchTarget(schema, Class(schema, cls).relationships[path[0]].value, path[1..])
  }

  /** `driver.quote` of a value as it stands. */
  function Quoted(value: Where): SqlValue {
    match value
    case Null => SqlNull
    case Text(text) => SqlText(text)
    case _ => SqlOther(value)
  }

  function QuotedAll(items: seq<Where>): seq<SqlValue> { seq(|items|, i requires 0 <= i < |items| => Quoted(items[i])) }

  function SearchCondition(path: Path, column: string, op: Operator, value: Where): Condition {
    match (op, value)
    case (Eq, List(items)) => if items == [] then Never else In(path, column, QuotedAll(items))
    case (NotEq, List(items)) => if items == [] then Always else NotIn(path, column, QuotedAll(items))
    case (Eq, Null) => IsNull(path, column)
    case (NotEq, Null) => IsNotNull(path, column)
    case _ => Compare(path, column, op, Quoted(value))
  }

  function ApplySearch(q: Query, schema: Schema, path: Path, key: string, op: Operator, value: Where): (Query, Option<Error>) {
    var target := SearchTarget(schema, schema.root, path);
    if target.Threw? then (q, Some(target.error))
    else
      var column := QueryableColumn(Class(schema, target.value), key);
      if column.None? then (q, Some(UnknownColumn(target.value, key)))
      else (AddCondition(EnsureJoin(q, path), SearchCondition(path, column.value, op, value)), None)
  }

  predicate Grouped(q: Query, path: Path, column: string) {
    exists g :: g in q.groups && g.path == path && g.column == column
  }

  /** `ensureFrontendModelGroupColumn`. */
  function EnsureGroup(q: Query, path: Path, column: string, requested: bool): Query {
    if Grouped(q, path, column) then q else q.(groups := q.groups + [Group(path, column, requested)])
  }

  function ApplyGroup(q: Query, schema: Schema, path: Path, key: string): (Query, Option<Error>) {
    var target := SearchTarget(schema, schema.root, path);
    if target.Threw? then (q, Some(target.error))
    else
      var column := QueryableColumn(Class(schema, target.value), key);
      if column.None? then (q, Some(UnknownColumn(target.value, key)))
      else (EnsureGroup(EnsureJoin(q, path), path, column.value, true), None)
  }

  /** `applyFrontendModelRootGroupColumns`: all columns of the root, in the order given. */
  function ApplyRootGroups(q: Query, columns: seq<string>): Query
    decreases columns
  {
    if columns == [] then q else ApplyRootGroups(EnsureGroup(q, [], columns[0], false), columns[1..])
  }

  function ApplySort(q: Query, schema: Schema, path: Path, key: string, direction: string): (Query, Option<Error>) {
    var target := SearchTarget(schema, schema.root, path);
    if target.Threw? then (q, Some(target.error))
    else
      var c := Class(schema, target.value);
      if key in c.translated then
        if Lookup(c.translations, key).None? then (q, Some(UnknownColumn(target.value, key)))
        else
          var joined := EnsureJoin(q, path + ["currentTranslation"]);
          (joined.(orders := joined.orders + [Order(path + ["currentTranslation"], Lookup(c.translations, key).value, direction, true)]), None)
      else
        var column := QueryableColumn(c, key);
        if column.None? then (q, Some(UnknownColumn(target.value, key)))
        else
          var joined := EnsureJoin(q, path);
          (joined.(orders := joined.orders + [Order(path, column.value, direction, false)]), None)
  }

  /** The paths an explicit join tree records below `path`. */
  function TreePaths(path: Path, nodes: seq<JoinNode>): set<Path>
    decreases nodes
  {
    if nodes == [] then {}
    else {path + [nodes[0].name]} + TreePaths(path + [nodes[0].name], nodes[0].children) + TreePaths(path, nodes[1..])
  }

  function TreeError(schema: Schema, cls: string, nodes: seq<JoinNode>): Option<Error>
    decreases nodes
  {
    if nodes == [] then None
    else
      var node := nodes[0];
      if node.name !in Class(schema, cls).relationships then Some(UnknownRelationship(cls, node.name))
      else if Class(schema, cls).relationships[node.name].None? then Some(NoTargetClass(cls, node.name))
      else
        var below := TreeError(schema, Class(schema, cls).relationships[node.name].value, node.children);
        if below.Some? then below else TreeError(schema, cls, nodes[1..])
  }

  function ApplyJoins(q: Query, schema: Schema, nodes: seq<JoinNode>): (Query, Option<Error>) {
    var error := TreeError(schema, schema.root, nodes);
    if error.Some? then (q, error)
    else (q.(joins := q.joins + [JoinTree(nodes)], joinedPaths := q.joinedPaths + TreePaths([], nodes)), None)
  }

  // ---------------------------------------------------------------- a request

  datatype Op =
    | WhereOp(where: seq<Entry>)
    | SearchOp(path: Path, key: string, op: Operator, value: Where)
    | GroupOp(path: Path, key: string)
    | RootGroupsOp(columns: seq<string>)
    | SortOp(path: Path, key: string, direction: string)
    | JoinsOp(nodes: seq<JoinNode>)

  function ApplyOp(q: Query, env: Env, schema: Schema, op: Op): (Query, Option<Error>) {
    match op
    case WhereOp(where) => ApplyWhere(q, env, schema, schema.root, [], where)
    case SearchOp(path, key, operator, value) => ApplySearch(q, schema, path, key, operator, value)
    case GroupOp(path, key) => ApplyGroup(q, schema, path, key)
    case RootGroupsOp(columns) => (ApplyRootGroups(q, columns), None)
    case SortOp(path, key, direction) => ApplySort(q, schema, path, key, direction)
    case JoinsOp(nodes) => ApplyJoins(q, schema, nodes)
  }

  /** Any sequence of calls on one query. */
  function ApplyOps(q: Query, env: Env, schema: Schema, ops: seq<Op>): Query
    decreases ops
  {
    if ops == [] then q else ApplyOps(ApplyOp(q, env, schema, ops[0]).0, env, schema, ops[1..])
  }
}

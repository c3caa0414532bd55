/** `autoSerializeFrontendModelsInPayload` of src/frontend-model-controller.js: replaces backend
    records inside a custom-command payload, on a heap of shared and possibly cyclic containers.

    The source recurses through plain objects and arrays; only plain objects are remembered in
    `seen`, so a cycle made of arrays alone is the one thing it does not survive. */
module PayloadWalker {
  import opened Outcomes

  type Ref = nat

  /** A JavaScript value.  `Opaque` is any object that is neither plain, nor an array, nor a
      backend record: it passes through. */
  datatype Value = Null | Undefined | Primitive(text: string) | Opaque(id: Ref) | Model(record: Ref) | List(list: Ref) | Plain(container: Ref)

  datatype Heap = Heap(arrays: map<Ref, seq<Value>>, objects: map<Ref, seq<(string, Value)>>)

  /** The walked copy.  `Kept` is a value passed through, `Original` the unwalked container that a
      cyclic back-reference yields. */
  datatype Walked =
    | Kept(value: Value)
    | Marker(attributes: string, modelName: string)
    | WalkedArray(items: seq<Walked>)
    | WalkedObject(keys: seq<string>, values: seq<Walked>)
    | Original(container: Ref)

  datatype SerializeError = SerializeError(message: string)

  /** `resource.serialize(record, action)` and the record's model name. */
  datatype Resource = Resource(serialize: Ref -> Outcome<string, SerializeError>, modelName: Ref -> string)

  ghost predicate Allocated(h: Heap, v: Value) {
    && (v.List? ==> v.list in h.arrays)
    && (v.Plain? ==> v.container in h.objects)
  }

  /** Array `b` is an element of array `a`. */
  ghost predicate Nested(h: Heap, a: Ref, b: Ref) { a in h.arrays && List(b) in h.arrays[a] }

  ghost predicate ArrayPath(h: Heap, path: seq<Ref>) {
    |path| > 1 && forall i :: 0 <= i < |path| - 1 ==> Nested(h, path[i], path[i + 1])
  }

  /** Array `b` lies inside array `a`, with nothing but arrays between them. */
  ghost predicate Contains(h: Heap, a: Ref, b: Ref) {
    exists path :: ArrayPath(h, path) && path[0] == a && path[|path| - 1] == b
  }

  /** References resolve, and no array contains itself through arrays alone. */
  ghost predicate WellFormed(h: Heap) {
    && (forall a, v :: a in h.arrays && v in h.arrays[a] ==> Allocated(h, v))
    && (forall o, e :: o in h.objects && e in h.objects[o] ==> Allocated(h, e.1))
    && (forall a :: !Contains(h, a, a))
  }

  ghost function Contained(h: Heap, a: Ref): set<Ref> { set b | b in h.arrays && Contains(h, a, b) }

  ghost function Depth(h: Heap, v: Value): nat {
    if v.List? then |Contained(h, v.list)| + 1 else 0
  }

  lemma {:induction false} ContainsNested(h: Heap, a: Ref, b: Ref, c: Ref)
    requires Nested(h, a, b) && Contains(h, b, c)
    ensures Contains(h, a, c)
  {
    var path :| ArrayPath(h, path) && path[0] == b && path[|path| - 1] == c;
    assert ArrayPath(h, [a] + path);
  }

  lemma {:induction false} SubsetIsSmaller(a: set<Ref>, b: set<Ref>)
    requires a < b
    ensures |a| < |b|
  {
    assert b == a + (b - a);
  }

  /** Without cycles of arrays, the arrays an array contains rank it above its elements. */
  lemma {:induction false} ElementsAreLower(h: Heap, a: Ref)
    requires WellFormed(h) && a in h.arrays
    ensures forall v :: v in h.arrays[a] ==> Depth(h, v) <= |Contained(h, a)|
  {
    forall v | v in h.arrays[a] && v.List? ensures |Contained(h, v.list)| < |Contained(h, a)| {
      var b := v.list;
      assert v == List(b);
      assert Nested(h, a, b) && ArrayPath(h, [a, b]) && Contains(h, a, b);
      forall c | c in Contained(h, b) ensures c in Contained(h, a) { ContainsNested(h, a, b, c); }
      assert Allocated(h, v);
      assert b in Contained(h, a) && b !in Contained(h, b);
      SubsetIsSmaller(Contained(h, b), Contained(h, a));
    }
  }

  function Keys(entries: seq<(string, Value)>): seq<string> { seq(|entries|, i requires 0 <= i < |entries| => entries[i].0) }

  function Values(entries: seq<(string, Value)>): seq<Value> { seq(|entries|, i requires 0 <= i < |entries| => entries[i].1) }

  /** What the walker descends into. */
  function Children(h: Heap, v: Value): seq<Value> {
    if v.List? && v.list in h.arrays then h.arrays[v.list]
    else if v.Plain? && v.container in h.objects then Values(h.objects[v.container])
    else []
  }

  ghost function MaxDepth(h: Heap, vs: seq<Value>): (d: nat)
    ensures forall v :: v in vs ==> Depth(h, v) <= d
    ensures vs != [] ==> exists v :: v in vs && Depth(h, v) == d
    ensures vs == [] ==> d == 0
  {
    if vs == [] then 0
    else
      var rest := MaxDepth(h, vs[1..]);
      assert forall v :: v in vs ==> v == vs[0] || v in vs[1..];
      if Depth(h, vs[0]) > rest then Depth(h, vs[0]) else rest
  }

  /** The measure: plain containers not yet on the recursion stack, then array depth. */
  ghost function Unseen(h: Heap, seen: set<Ref>): nat { |h.objects.Keys - seen| }

  lemma {:induction false} UnseenShrinks(h: Heap, seen: set<Ref>, o: Ref)
    requires o in h.objects && o !in seen
    ensures Unseen(h, seen + {o}) < Unseen(h, seen)
  {
    assert h.objects.Keys - (seen + {o}) == (h.objects.Keys - seen) - {o};
  }

  lemma {:induction false} ListDescends(h: Heap, list: Ref)
    requires WellFormed(h) && list in h.arrays
    ensures forall v :: v in h.arrays[list] ==> Allocated(h, v)
    ensures MaxDepth(h, h.arrays[list]) < Depth(h, List(list))
  {
    ElementsAreLower(h, list);
  }

  lemma {:induction false} ObjectDescends(h: Heap, container: Ref, seen: set<Ref>)
    requires WellFormed(h) && container in h.objects && container !in seen
    ensures forall v :: v in Values(h.objects[container]) ==> Allocated(h, v)
    ensures Unseen(h, seen + {container}) < Unseen(h, seen)
  {
    UnseenShrinks(h, seen, container);
  }

  // ---------------------------------------------------------------- the walk as a function

  function Walk(h: Heap, res: Resource, v: Value, seen: set<Ref>): Outcome<Walked, SerializeError>
    requires WellFormed(h) && Allocated(h, v)
    decreases Unseen(h, seen), Depth(h, v), 0
  {
    match v
    case Model(record) =>
      var attributes := res.serialize(record);
      if attributes.Ok? then Ok(Marker(attributes.value, res.modelName(record))) else Threw(attributes.error)
    case List(list) =>
      ListDescends(h, list);
      var items := WalkAll(h, res, h.arrays[list], seen);
      if items.Ok? then Ok(WalkedArray(items.value)) else Threw(items.error)
    case Plain(container) =>
      if container in seen then Ok(Original(container))
      else
        ObjectDescends(h, container, seen);
        var values := WalkAll(h, res, Values(h.objects[container]), seen + {container});
        if values.Ok? then Ok(WalkedObject(Keys(h.objects[container]), values.value)) else Threw(values.error)
    case _ => Ok(Kept(v))
  }

  function WalkAll(h: Heap, res: Resource, vs: seq<Value>, seen: set<Ref>): (r: Outcome<seq<Walked>, SerializeError>)
    requires WellFormed(h) && forall v :: v in vs ==> Allocated(h, v)
    ensures r.Ok? ==> |r.value| == |vs|
    decreases Unseen(h, seen), MaxDepth(h, vs), |vs| + 1
  {
    if vs == [] then Ok([])
    else
      assert MaxDepth(h, vs[1..]) <= MaxDepth(h, vs);
      var first := Walk(h, res, vs[0], seen);
      if first.Threw? then Threw(first.error)
      else
        var rest := WalkAll(h, res, vs[1..], seen);
        if rest.Threw? then Threw(rest.error) else Ok([first.value] + rest.value)
  }

  lemma {:induction false} WalkAllPointwise(h: Heap, res: Resource, vs: seq<Value>, seen: set<Ref>, i: nat)
    requires WellFormed(h) && (forall v :: v in vs ==> Allocated(h, v)) && i < |vs|
    requires WalkAll(h, res, vs, seen).Ok?
    ensures Walk(h, res, vs[i], seen) == Ok(WalkAll(h, res, vs, seen).value[i])
  {
    if i > 0 { WalkAllPointwise(h, res, vs[1..], seen, i - 1); }
  }

  lemma {:induction false} WalkAllPrefix(h: Heap, res: Resource, vs: seq<Value>, seen: set<Ref>, items: seq<Walked>)
    requires WellFormed(h) && (forall v :: v in vs ==> Allocated(h, v)) && |items| <= |vs|
    requires forall j :: 0 <= j < |items| ==> Walk(h, res, vs[j], seen) == Ok(items[j])
    ensures |items| == |vs| ==> WalkAll(h, res, vs, seen) == Ok(items)
    ensures |items| < |vs| && Walk(h, res, vs[|items|], seen).Threw? ==>
      WalkAll(h, res, vs, seen) == Threw(Walk(h, res, vs[|items|], seen).error)
  {
    if items != [] {
      WalkAllPrefix(h, res, vs[1..], seen, items[1..]);
      assert items == [items[0]] + items[1..];
    }
  }

  /** What `seen` holds while the children of `v` are walked. */
  function Passed(v: Value, seen: set<Ref>): set<Ref> { if v.Plain? then seen + {v.container} else seen }

  /** The walk of `v` recurses into its children. */
  predicate Descends(v: Value, seen: set<Ref>) { v.List? || (v.Plain? && v.container !in seen) }

  /** The walked children of a copy. */
  function Parts(r: Walked): seq<Walked> {
    match r
    case WalkedArray(items) => items
    case WalkedObject(_, values) => values
    case _ => []
  }

  /** Children are allocated and lower in the measure. */
  lemma {:induction false} ChildDescends(h: Heap, v: Value, seen: set<Ref>, i: nat)
    requires WellFormed(h) && Allocated(h, v) && Descends(v, seen) && i < |Children(h, v)|
    ensures var child := Children(h, v)[i];
      && Allocated(h, child)
      && (Unseen(h, Passed(v, seen)) < Unseen(h, seen)
          || (Unseen(h, Passed(v, seen)) == Unseen(h, seen) && Depth(h, child) < Depth(h, v)))
  {
    if v.Plain? {
      UnseenShrinks(h, seen, v.container);
      assert h.objects[v.container][i] in h.objects[v.container];
    } else {
      ElementsAreLower(h, v.list);
    }
  }

  lemma {:induction false} PartsAreWalkAll(h: Heap, res: Resource, v: Value, seen: set<Ref>)
    requires WellFormed(h) && Allocated(h, v) && Descends(v, seen) && Walk(h, res, v, seen).Ok?
    ensures forall c :: c in Children(h, v) ==> Allocated(h, c)
    ensures WalkAll(h, res, Children(h, v), Passed(v, seen)) == Ok(Parts(Walk(h, res, v, seen).value))
  {
    forall c | c in Children(h, v) ensures Allocated(h, c) {
      var i :| 0 <= i < |Children(h, v)| && Children(h, v)[i] == c;
      ChildDescends(h, v, seen, i);
    }
  }

  /** The parts of a copy are the copies of the children. */
  lemma {:induction false} PartsAreWalks(h: Heap, res: Resource, v: Value, seen: set<Ref>, i: nat)
    requires WellFormed(h) && Allocated(h, v) && Descends(v, seen) && Walk(h, res, v, seen).Ok?
    requires i < |Children(h, v)|
    ensures |Parts(Walk(h, res, v, seen).value)| == |Children(h, v)|
    ensures Allocated(h, Children(h, v)[i])
    ensures Walk(h, res, Children(h, v)[i], Passed(v, seen)) == Ok(Parts(Walk(h, res, v, seen).value)[i])
  {
    hide WellFormed, Allocated;
    PartsAreWalkAll(h, res, v, seen);
    WalkAllPointwise(h, res, Children(h, v), Passed(v, seen), i);
  }

  // ---------------------------------------------------------------- the walker with its mutable stack

  class Walker {
    var seen: set<Ref>

    constructor ()
      ensures seen == {}
    {
      seen := {};
    }

    /** Leaves `seen` as it found it, whether it returns or throws. */
    method AutoSerialize(h: Heap, res: Resource, v: Value) returns (r: Outcome<Walked, SerializeError>)
      requires WellFormed(h) && Allocated(h, v)
      modifies this
      ensures seen == old(seen)
      ensures r == Walk(h, res, v, old(seen))
      decreases Unseen(h, seen), Depth(h, v), 0
    {
      hide WalkAll, MaxDepth, WellFormed, Depth, Unseen;
      match v {
        case Null => return Ok(Kept(v));
        case Undefined => return Ok(Kept(v));
        case Model(record) =>
          var attributes := res.serialize(record);
          return if attributes.Ok? then Ok(Marker(attributes.value, res.modelName(record))) else Threw(attributes.error);
        case List(list) =>
          ListDescends(h, list);
          var items := AutoSerializeAll(h, res, h.arrays[list]);
          return if items.Ok? then Ok(WalkedArray(items.value)) else Threw(items.error);
        case Plain(container) =>
          if container in seen { return Ok(Original(container)); }
          ObjectDescends(h, container, seen);
          ghost var before := seen;
          seen := seen + {container};
          var values := AutoSerializeAll(h, res, Values(h.objects[container]));
          seen := seen - {container};
          assert seen == before;
          return if values.Ok? then Ok(WalkedObject(Keys(h.objects[container]), values.value)) else Threw(values.error);
        case _ => return Ok(Kept(v));
      }
    }

    method AutoSerializeAll(h: Heap, res: Resource, vs: seq<Value>) returns (r: Outcome<seq<Walked>, SerializeError>)
      requires WellFormed(h) && forall v :: v in vs ==> Allocated(h, v)
      modifies this
      ensures seen == old(seen)
      ensures r == WalkAll(h, res, vs, old(seen))
      decreases Unseen(h, seen), MaxDepth(h, vs), |vs| + 1
    {
      hide WellFormed, Allocated, Walk, WalkAll, Depth;
      var items: seq<Walked> := [];
      for k := 0 to |vs|
        invariant seen == old(seen) && |items| == k
        invariant forall j :: 0 <= j < k ==> Walk(h, res, vs[j], seen) == Ok(items[j])
      {
        WalkAllPrefix(h, res, vs, seen, items);
        var item := AutoSerialize(h, res, vs[k]);
        if item.Threw? { return Threw(item.error); }
        items := items + [item.value];
      }
      WalkAllPrefix(h, res, vs, seen, items);
      return Ok(items);
    }
  }

  // ---------------------------------------------------------------- what the copy keeps

  /** The copy mirrors the original: same keys and lengths, leaves untouched, every backend record
      replaced by the marker of its own serialization. */
  ghost predicate Mirrors(h: Heap, res: Resource, v: Value, r: Walked)
    decreases r
  {
    && (match r
        case Kept(value) => value == v && !v.Model? && !v.List? && !v.Plain?
        case Marker(attributes, name) => v.Model? && res.serialize(v.record) == Ok(attributes) && name == res.modelName(v.record)
        case WalkedArray(_) => v.List? && v.list in h.arrays
        case WalkedObject(keys, _) => v.Plain? && v.container in h.objects && keys == Keys(h.objects[v.container])
        case Original(container) => v == Plain(container))
    && (r.Original? || |Parts(r)| == |Children(h, v)|)
    && forall i :: 0 <= i < |Parts(r)| && i < |Children(h, v)| ==> Mirrors(h, res, Children(h, v)[i], Parts(r)[i])
  }

  /** Somewhere the copy is not a copy but one of these original containers. */
  ghost predicate HoldsOriginal(r: Walked, these: iset<Ref>)
    decreases r
  {
    (r.Original? && r.container in these) || exists i :: 0 <= i < |Parts(r)| && HoldsOriginal(Parts(r)[i], these)
  }

  lemma {:induction false} CopyMirrors(h: Heap, res: Resource, v: Value, seen: set<Ref>)
    requires WellFormed(h) && Allocated(h, v) && Walk(h, res, v, seen).Ok?
    ensures Mirrors(h, res, v, Walk(h, res, v, seen).value)
    decreases Unseen(h, seen), Depth(h, v)
  {
    var r := Walk(h, res, v, seen).value;
    if Descends(v, seen) {
      PartsAreWalkAll(h, res, v, seen);
      forall i | 0 <= i < |Children(h, v)| ensures Mirrors(h, res, Children(h, v)[i], Parts(r)[i]) {
        ChildDescends(h, v, seen, i);
        PartsAreWalks(h, res, v, seen, i);
        CopyMirrors(h, res, Children(h, v)[i], Passed(v, seen));
      }
    }
  }

  // ---------------------------------------------------------------- cycles, exactly

  /** The walk that follows child numbers `path` from `v` ends at one of these plain objects, one
      that is in `seen` or was passed on the way. */
  ghost predicate Closes(h: Heap, v: Value, path: seq<nat>, seen: set<Ref>, these: iset<Ref>)
    decreases |path|
  {
    if path == [] then v.Plain? && v.container in seen && v.container in these
    else
      && Descends(v, seen)
      && path[0] < |Children(h, v)| && Closes(h, Children(h, v)[path[0]], path[1..], Passed(v, seen), these)
  }

  /** A cycle through one of these plain objects is reachable. */
  ghost predicate CyclicAt(h: Heap, v: Value, these: iset<Ref>) { exists path :: Closes(h, v, path, {}, these) }

  ghost const ANY_CONTAINER: iset<Ref> := iset c: Ref | true

  ghost predicate Cyclic(h: Heap, v: Value) { CyclicAt(h, v, ANY_CONTAINER) }

  lemma {:induction false} OriginalOnACycle(h: Heap, res: Resource, v: Value, seen: set<Ref>, these: iset<Ref>) returns (path: seq<nat>)
    requires WellFormed(h) && Allocated(h, v) && Walk(h, res, v, seen).Ok? && HoldsOriginal(Walk(h, res, v, seen).value, these)
    ensures Closes(h, v, path, seen, these)
    decreases Unseen(h, seen), Depth(h, v)
  {
    hide WellFormed, Allocated, Children, Depth, Unseen;
    var r := Walk(h, res, v, seen).value;
    if r.Original? { return []; }
    var i: nat :| i < |Parts(r)| && HoldsOriginal(Parts(r)[i], these);
    SameLength(h, res, v, seen);
    ChildDescends(h, v, seen, i);
    PartsAreWalks(h, res, v, seen, i);
    var rest := OriginalOnACycle(h, res, Children(h, v)[i], Passed(v, seen), these);
    path := [i] + rest;
    assert path[1..] == rest;
  }

  lemma {:induction false} SameLength(h: Heap, res: Resource, v: Value, seen: set<Ref>)
    requires WellFormed(h) && Allocated(h, v) && Walk(h, res, v, seen).Ok? && Parts(Walk(h, res, v, seen).value) != []
    ensures Descends(v, seen) && |Parts(Walk(h, res, v, seen).value)| == |Children(h, v)|
  {
  }

  lemma {:induction false} CycleYieldsOriginal(h: Heap, res: Resource, v: Value, seen: set<Ref>, path: seq<nat>, these: iset<Ref>)
    requires WellFormed(h) && Allocated(h, v) && Walk(h, res, v, seen).Ok? && Closes(h, v, path, seen, these)
    ensures HoldsOriginal(Walk(h, res, v, seen).value, these)
    decreases |path|
  {
    if path != [] {
      PartsAreWalks(h, res, v, seen, path[0]);
      CycleYieldsOriginal(h, res, Children(h, v)[path[0]], Passed(v, seen), path[1..], these);
    }
  }

  /** The copy holds one of these originals exactly when a cycle through one of them is reachable. */
  lemma {:induction false} OriginalsAreOnCycles(h: Heap, res: Resource, v: Value, these: iset<Ref>)
    requires WellFormed(h) && Allocated(h, v) && Walk(h, res, v, {}).Ok?
    ensures HoldsOriginal(Walk(h, res, v, {}).value, these) <==> CyclicAt(h, v, these)
  {
    if HoldsOriginal(Walk(h, res, v, {}).value, these) {
      var path := OriginalOnACycle(h, res, v, {}, these);
    } else if CyclicAt(h, v, these) {
      var path :| Closes(h, v, path, {}, these);
      CycleYieldsOriginal(h, res, v, {}, path, these);
    }
  }

  // ---------------------------------------------------------------- records left in the copy

  /** Following child numbers `path` from `v`, however often containers repeat, ends at a record. */
  ghost predicate LeadsToRecord(h: Heap, v: Value, path: seq<nat>)
    decreases |path|
  {
    if path == [] then v.Model?
    else path[0] < |Children(h, v)| && LeadsToRecord(h, Children(h, v)[path[0]], path[1..])
  }

  ghost predicate ReachesRecord(h: Heap, v: Value) { exists path :: LeadsToRecord(h, v, path) }

  /** A backend record is left somewhere in the copy: a value passed through or an original
      container from which a record can still be reached. */
  ghost predicate HoldsRecord(h: Heap, r: Walked)
    decreases r
  {
    || (r.Kept? && ReachesRecord(h, r.value))
    || (r.Original? && ReachesRecord(h, Plain(r.container)))
    || exists i :: 0 <= i < |Parts(r)| && HoldsRecord(h, Parts(r)[i])
  }

  ghost function WithRecords(h: Heap): iset<Ref> { iset c: Ref | ReachesRecord(h, Plain(c)) }

  lemma {:induction false} KeptHasNoRecord(h: Heap, v: Value)
    requires !v.Model? && !v.List? && !v.Plain?
    ensures !ReachesRecord(h, v)
  {
    forall path ensures !LeadsToRecord(h, v, path) {}
  }

  lemma {:induction false} RecordsAreInOriginals(h: Heap, res: Resource, v: Value, r: Walked)
    requires Mirrors(h, res, v, r)
    ensures HoldsRecord(h, r) <==> HoldsOriginal(r, WithRecords(h))
    decreases r
  {
    if r.Kept? { KeptHasNoRecord(h, v); }
    forall i | 0 <= i < |Parts(r)|
      ensures HoldsRecord(h, Parts(r)[i]) <==> HoldsOriginal(Parts(r)[i], WithRecords(h))
    {
      RecordsAreInOriginals(h, res, Children(h, v)[i], Parts(r)[i]);
    }
  }

  /** A backend record is left in the copy exactly when a cycle is reachable through a plain object
      that leads to a record, however much is shared. */
  lemma {:induction false} RecordIsLeftIffOnACycle(h: Heap, res: Resource, v: Value)
    requires WellFormed(h) && Allocated(h, v) && Walk(h, res, v, {}).Ok?
    ensures HoldsRecord(h, Walk(h, res, v, {}).value) <==> CyclicAt(h, v, WithRecords(h))
  {
    CopyMirrors(h, res, v, {});
    RecordsAreInOriginals(h, res, v, Walk(h, res, v, {}).value);
    OriginalsAreOnCycles(h, res, v, WithRecords(h));
  }

  /** The copy mirrors the payload and holds an original exactly when a cycle is reachable; the copy
      of an acyclic payload, however much is shared, holds no record anywhere. */
  lemma {:induction false} CopyIsCleanIffAcyclic(h: Heap, res: Resource, v: Value)
    requires WellFormed(h) && Allocated(h, v) && Walk(h, res, v, {}).Ok?
    ensures Mirrors(h, res, v, Walk(h, res, v, {}).value)
    ensures HoldsOriginal(Walk(h, res, v, {}).value, ANY_CONTAINER) <==> Cyclic(h, v)
    ensures !Cyclic(h, v) ==> !HoldsRecord(h, Walk(h, res, v, {}).value)
  {
    CopyMirrors(h, res, v, {});
    OriginalsAreOnCycles(h, res, v, ANY_CONTAINER);
    RecordIsLeftIffOnACycle(h, res, v);
    forall path | Closes(h, v, path, {}, WithRecords(h)) ensures Closes(h, v, path, {}, ANY_CONTAINER) {
      ClosesAtMore(h, v, path, {}, WithRecords(h), ANY_CONTAINER);
    }
  }

  lemma {:induction false} ClosesAtMore(h: Heap, v: Value, path: seq<nat>, seen: set<Ref>, these: iset<Ref>, more: iset<Ref>)
    requires Closes(h, v, path, seen, these) && these <= more
    ensures Closes(h, v, path, seen, more)
    decreases |path|
  {
    if path != [] { ClosesAtMore(h, Children(h, v)[path[0]], path[1..], Passed(v, seen), these, more); }
  }

  /** An object that holds itself and a record: the copy holds the original, record included. */
  lemma {:induction false} SelfReferenceLeavesARecord(res: Resource)
    requires res.serialize(7).Ok?
    ensures var h := Heap(map[], map[0 := [("self", Plain(0)), ("record", Model(7))]]);
      WellFormed(h) && Allocated(h, Plain(0)) && Walk(h, res, Plain(0), {}).Ok?
      && HoldsRecord(h, Walk(h, res, Plain(0), {}).value)
  {
    var h := Heap(map[], map[0 := [("self", Plain(0)), ("record", Model(7))]]);
    assert forall e :: e in h.objects[0] ==> e == ("self", Plain(0)) || e == ("record", Model(7));
    forall path ensures !ArrayPath(h, path) {
      if |path| > 1 { assert !Nested(h, path[0], path[1]); }
    }
    assert Children(h, Plain(0)) == [Plain(0), Model(7)];
    assert LeadsToRecord(h, Model(7), [1][1..]);
    assert LeadsToRecord(h, Plain(0), [1]);
    assert Closes(h, Plain(0), [0][1..], {0}, WithRecords(h));
    assert Closes(h, Plain(0), [0], {}, WithRecords(h));
    if Walk(h, res, Plain(0), {}).Threw? {
      var path := ThrowComesFromARecord(h, res, Plain(0), {});
      OnlyTheRecordFails(h, res, path);
    }
    RecordIsLeftIffOnACycle(h, res, Plain(0));
  }

  lemma {:induction false} OnlyTheRecordFails(h: Heap, res: Resource, path: seq<nat>)
    requires Children(h, Plain(0)) == [Plain(0), Model(7)] && res.serialize(7).Ok?
    ensures !Fails(h, res, Plain(0), path, {})
  {
    if path != [] && path[0] < 2 && path[1..] != [] {
      assert Children(h, Model(7)) == [];
    }
  }

  /** A heap whose plain objects and arrays can be ranked downwards has no cycle, so any sharing
      is harmless. */
  lemma {:induction false} RankedIsAcyclic(h: Heap, v: Value, path: seq<nat>, seen: set<Ref>, rank: Value -> nat)
    requires forall u, i :: 0 <= i < |Children(h, u)| ==> rank(Children(h, u)[i]) < rank(u)
    requires forall o :: o in seen ==> rank(Plain(o)) > rank(v)
    ensures !Closes(h, v, path, seen, ANY_CONTAINER)
    decreases |path|
  {
    if path != [] && path[0] < |Children(h, v)| {
      RankedIsAcyclic(h, Children(h, v)[path[0]], path[1..], Passed(v, seen), rank);
    }
  }

  // ---------------------------------------------------------------- when the walk throws

  /** The path from `v` avoids closing and ends at a record whose serialization throws. */
  ghost predicate Fails(h: Heap, res: Resource, v: Value, path: seq<nat>, seen: set<Ref>)
    decreases |path|
  {
    if path == [] then v.Model? && res.serialize(v.record).Threw?
    else
      && !(v.Plain? && v.container in seen)
      && path[0] < |Children(h, v)| && Fails(h, res, Children(h, v)[path[0]], path[1..], Passed(v, seen))
  }

  lemma {:induction false} FirstThrow(h: Heap, res: Resource, vs: seq<Value>, seen: set<Ref>) returns (i: nat)
    requires WellFormed(h) && (forall v :: v in vs ==> Allocated(h, v)) && WalkAll(h, res, vs, seen).Threw?
    ensures i < |vs| && Walk(h, res, vs[i], seen).Threw?
  {
    if Walk(h, res, vs[0], seen).Threw? { return 0; }
    var j := FirstThrow(h, res, vs[1..], seen);
    return j + 1;
  }

  lemma {:induction false} ThrowsOnlyInChildren(h: Heap, res: Resource, v: Value, seen: set<Ref>) returns (i: nat)
    requires WellFormed(h) && Allocated(h, v) && Descends(v, seen) && Walk(h, res, v, seen).Threw?
    ensures i < |Children(h, v)| && Allocated(h, Children(h, v)[i])
    ensures Walk(h, res, Children(h, v)[i], Passed(v, seen)).Threw?
  {
    forall k: nat | k < |Children(h, v)| ensures Allocated(h, Children(h, v)[k]) { ChildDescends(h, v, seen, k); }
    i := FirstThrow(h, res, Children(h, v), Passed(v, seen));
  }

  lemma {:induction false} ThrowComesFromARecord(h: Heap, res: Resource, v: Value, seen: set<Ref>) returns (path: seq<nat>)
    requires WellFormed(h) && Allocated(h, v) && Walk(h, res, v, seen).Threw?
    ensures Fails(h, res, v, path, seen)
    decreases Unseen(h, seen), Depth(h, v)
  {
    hide WellFormed, Allocated, Children;
    if v.Model? { return []; }
    var i := ThrowsOnlyInChildren(h, res, v, seen);
    ChildDescends(h, v, seen, i);
    var rest := ThrowComesFromARecord(h, res, Children(h, v)[i], Passed(v, seen));
    path := [i] + rest;
    assert path[1..] == rest;
  }

  lemma {:induction false} FailingRecordThrows(h: Heap, res: Resource, v: Value, seen: set<Ref>, path: seq<nat>)
    requires WellFormed(h) && Allocated(h, v) && Fails(h, res, v, path, seen)
    ensures Walk(h, res, v, seen).Threw?
    decreases |path|
  {
    if path != [] {
      ChildDescends(h, v, seen, path[0]);
      FailingRecordThrows(h, res, Children(h, v)[path[0]], Passed(v, seen), path[1..]);
      if Walk(h, res, v, seen).Ok? { PartsAreWalks(h, res, v, seen, path[0]); }
    }
  }

  /** The walk throws exactly when some record it meets cannot be serialized. */
  lemma {:induction false} ThrowsIffARecordFails(h: Heap, res: Resource, v: Value)
    requires WellFormed(h) && Allocated(h, v)
    ensures Walk(h, res, v, {}).Threw? <==> exists path :: Fails(h, res, v, path, {})
  {
    if Walk(h, res, v, {}).Threw? {
      var path := ThrowComesFromARecord(h, res, v, {});
    } else if exists path :: Fails(h, res, v, path, {}) {
      var path :| Fails(h, res, v, path, {});
      FailingRecordThrows(h, res, v, {}, path);
    }
  }
}

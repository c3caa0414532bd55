/** The batched, authorised serializer of src/frontend-model-controller.js.

    An acyclic preloaded graph is modelled by its records as nested values: a record shared by
    two parents appears under both.  `grants` holds, per class and action, the ids (as strings)
    the current ability makes accessible; a missing entry is an ability without rules for the
    action, for which `accessibleFor` throws.  The serializer itself learns of grants only by
    asking the `Database`, which logs every question. */
module Serializer {
  import opened Outcomes

  type Class = string
  type Action = string
  type Json = string

  datatype Record = Record(
    cls: Class, id: Option<string>, attributes: Json, relationships: seq<Relationship>,
    counts: map<string, Json>, queryData: map<string, Json>, abilities: map<string, Json>)

  datatype Relationship = Relationship(name: string, preloaded: bool, loaded: Loaded)

  /** A loaded relationship: an array of models, one model, or anything else (None for null). */
  datatype Loaded = Many(models: seq<Record>) | One(model: Record) | Plain(value: Option<Json>)

  datatype Resource = Resource(indexAction: Option<Action>, findAction: Option<Action>)

  datatype World = World(
    hasAbility: bool,
    relationshipNames: map<Class, seq<string>>,
    exposed: map<Class, set<string>>,
    resources: map<Class, Resource>,
    ghost grants: map<(Class, Action), set<string>>)

  datatype Payload = Payload(
    attributes: Json, preloaded: Option<map<string, Related>>,
    counts: Option<map<string, Json>>, queryData: Option<map<string, Json>>, abilities: Option<map<string, Json>>)

  datatype Related = Collection(payloads: seq<Payload>) | Single(payload: Payload) | Null | Value(value: Json)

  datatype AccessError = NoRules

  function Names(w: World, cls: Class): seq<string> {
    if cls in w.relationshipNames then w.relationshipNames[cls] else []
  }

  function Find(rels: seq<Relationship>, name: string): (rel: Option<Relationship>)
    ensures rel.Some? ==> rel.value in rels && rel.value.name == name
  {
    if rels == [] then None else if rels[0].name == name then Some(rels[0]) else Find(rels[1..], name)
  }

  /** The relationship is exposed by the class's resource and was preloaded on the record. */
  predicate Due(w: World, r: Record, name: string) {
    && name in Names(w, r.cls)
    && r.cls in w.exposed && name in w.exposed[r.cls]
    && Find(r.relationships, name).Some? && Find(r.relationships, name).value.preloaded
  }

  function LoadedOf(w: World, r: Record, name: string): Loaded
    requires Due(w, r, name)
  {
    Find(r.relationships, name).value.loaded
  }

  // ---------------------------------------------------------------- access, one record at a time

  /** The action the ability must allow for records of a class; None denies every record. */
  function ActionFor(w: World, cls: Class, isCollection: bool): Option<Action> {
    if cls !in w.resources then None
    else
      var action := if isCollection then w.resources[cls].indexAction else w.resources[cls].findAction;
      if action.Some? && |action.value| > 0 then action else None
  }

  ghost predicate AccessThrows(w: World, m: Record, isCollection: bool) {
    && w.hasAbility && m.id.Some? && ActionFor(w, m.cls, isCollection).Some?
    && (m.cls, ActionFor(w, m.cls, isCollection).value) !in w.grants
  }

  ghost predicate Accessible(w: World, m: Record, isCollection: bool) {
    !w.hasAbility ||
    (&& m.id.Some? && ActionFor(w, m.cls, isCollection).Some?
     && (m.cls, ActionFor(w, m.cls, isCollection).value) in w.grants
     && m.id.value in w.grants[(m.cls, ActionFor(w, m.cls, isCollection).value)])
  }

  ghost function Keep(w: World, models: seq<Record>, isCollection: bool): seq<Record> {
    if models == [] then [] else KeepOne(w, models[0], isCollection) + Keep(w, models[1..], isCollection)
  }

  lemma {:induction false} KeepIsAccessible(w: World, models: seq<Record>, isCollection: bool)
    ensures forall m :: m in Keep(w, models, isCollection) <==> m in models && Accessible(w, m, isCollection)
  {
    hide Accessible;
    if models != [] { KeepIsAccessible(w, models[1..], isCollection); }
  }

  ghost function KeepOne(w: World, m: Record, isCollection: bool): seq<Record> {
    if Accessible(w, m, isCollection) then [m] else []
  }

  // ---------------------------------------------------------------- the meaning of one record

  function Height(r: Record): nat { 1 + HeightOfRelationships(r.relationships) }

  function HeightOfRelationships(rels: seq<Relationship>): (h: nat)
    ensures forall rel, m :: rel in rels && rel.loaded.Many? && m in rel.loaded.models ==> Height(m) <= h
    ensures forall rel :: rel in rels && rel.loaded.One? ==> Height(rel.loaded.model) <= h
  {
    if rels == [] then 0
    else
      var rest := HeightOfRelationships(rels[1..]);
      var first := match rels[0].loaded
        case Many(models) => MaxHeight(models)
        case One(model) => Height(model)
        case Plain(_) => 0;
      assert forall rel :: rel in rels ==> rel == rels[0] || rel in rels[1..];
      if first > rest then first else rest
  }

  function MaxHeight(models: seq<Record>): (h: nat)
    ensures forall m :: m in models ==> Height(m) <= h
    ensures models != [] ==> exists m :: m in models && Height(m) == h
  {
    if models == [] then 0
    else
      var rest := MaxHeight(models[1..]);
      if Height(models[0]) > rest then Height(models[0]) else rest
  }

  /** What one record serializes to, each related record decided by its own accessibility. */
  ghost function Meaning(w: World, r: Record): Outcome<Payload, AccessError>
    decreases Height(r), 1
  {
    if exists name | name in Names(w, r.cls) :: Due(w, r, name) && RelatedMeaning(w, r, name).Threw? then Threw(NoRules)
    else
      var preloaded := map name | name in Names(w, r.cls) && Due(w, r, name) :: RelatedMeaning(w, r, name).value;
      Ok(Assemble(r, preloaded))
  }

  function NonEmpty<V>(m: map<string, V>): Option<map<string, V>> { if |m| > 0 then Some(m) else None }

  function Assemble(r: Record, preloaded: map<string, Related>): Payload {
    Payload(r.attributes, NonEmpty(preloaded), NonEmpty(r.counts), NonEmpty(r.queryData), NonEmpty(r.abilities))
  }

  ghost function RelatedMeaning(w: World, r: Record, name: string): Outcome<Related, AccessError>
    requires Due(w, r, name)
    decreases Height(r), 0
  {
    match LoadedOf(w, r, name)
    case Plain(value) => Ok(if value.Some? then Value(value.value) else Null)
    case One(m) =>
      if AccessThrows(w, m, false) then Threw(NoRules)
      else if !Accessible(w, m, false) then Ok(Null)
      else
        var meaning := Meaning(w, m);
        if meaning.Ok? then Ok(Single(meaning.value)) else Threw(NoRules)
    case Many(models) =>
      var kept := Keep(w, models, true);
      KeepIsAccessible(w, models, true);
      if (exists m | m in models :: AccessThrows(w, m, true)) || (exists m | m in kept :: Meaning(w, m).Threw?) then Threw(NoRules)
      else Ok(Collection(seq(|kept|, i requires 0 <= i < |kept| => Meaning(w, kept[i]).value)))
  }

  /** A list serialized record by record. */
  ghost function MeaningOfAll(w: World, models: seq<Record>): Outcome<seq<Payload>, AccessError> {
    if exists m | m in models :: Meaning(w, m).Threw? then Threw(NoRules)
    else Ok(seq(|models|, i requires 0 <= i < |models| => Meaning(w, models[i]).value))
  }

  // ---------------------------------------------------------------- which action guards what

  /** Collections are guarded by the index action, single records by the find action: a record with
      an id is accessible exactly when the grants of that action hold it. */
  lemma {:induction false} AccessIsByIndexAndFind(w: World, m: Record, id: string, action: Action)
    requires w.hasAbility && m.id == Some(id) && m.cls in w.resources && action != "" && (m.cls, action) in w.grants
    ensures w.resources[m.cls].indexAction == Some(action) ==>
      (Accessible(w, m, true) <==> id in w.grants[(m.cls, action)]) && !AccessThrows(w, m, true)
    ensures w.resources[m.cls].findAction == Some(action) ==>
      (Accessible(w, m, false) <==> id in w.grants[(m.cls, action)]) && !AccessThrows(w, m, false)
  {
  }

  predicate IsNamed(action: Option<Action>) { action.Some? && action.value != "" }

  /** Without an id, a resource or a non-empty action everything is denied and nothing throws; with
      them, an action without rules throws. Without an ability nothing is checked. */
  lemma {:induction false} AccessAtTheEdges(w: World, m: Record, isCollection: bool)
    ensures !w.hasAbility ==> Accessible(w, m, isCollection) && !AccessThrows(w, m, isCollection)
    ensures w.hasAbility && (m.id.None? || m.cls !in w.resources) ==> !Accessible(w, m, isCollection) && !AccessThrows(w, m, isCollection)
    ensures w.hasAbility && m.cls in w.resources && !IsNamed(w.resources[m.cls].indexAction) ==>
      !Accessible(w, m, true) && !AccessThrows(w, m, true)
    ensures w.hasAbility && m.cls in w.resources && !IsNamed(w.resources[m.cls].findAction) ==>
      !Accessible(w, m, false) && !AccessThrows(w, m, false)
    ensures w.hasAbility && m.id.Some? && m.cls in w.resources && IsNamed(w.resources[m.cls].indexAction) ==>
      (AccessThrows(w, m, true) <==> (m.cls, w.resources[m.cls].indexAction.value) !in w.grants)
    ensures w.hasAbility && m.id.Some? && m.cls in w.resources && IsNamed(w.resources[m.cls].findAction) ==>
      (AccessThrows(w, m, false) <==> (m.cls, w.resources[m.cls].findAction.value) !in w.grants)
  {
  }

  /** The questions of a batch carry the index action for collections, the find action otherwise. */
  lemma {:induction false} QuestionsCarryTheAction(w: World, models: seq<Record>, isCollection: bool, asked: seq<Question>, all: bool, q: Question)
    requires AskedOnce(w, models, isCollection, asked, all) && q in asked
    ensures q.cls in w.resources && q.action != ""
    ensures Some(q.action) == if isCollection then w.resources[q.cls].indexAction else w.resources[q.cls].findAction
  {
  }

  // ---------------------------------------------------------------- the batched filter

  predicate Distinct<T(==)>(s: seq<T>) {
    forall i, j :: 0 <= i < j < |s| ==> s[i] != s[j]
  }

  datatype Question = Question(cls: Class, action: Action, ids: set<string>)

  class Database {
    const grants: map<(Class, Action), set<string>>
    var log: seq<Question>

    constructor (grants: map<(Class, Action), set<string>>)
      ensures this.grants == grants && log == []
    {
      this.grants, log := grants, [];
    }

    /** `accessibleFor(action).where(ids).pluck(...)`; throws without rules for the action. */
    method AccessibleIds(cls: Class, action: Action, ids: set<string>) returns (answer: Outcome<set<string>, AccessError>)
      modifies this`log
      ensures log == old(log) + [Question(cls, action, ids)]
      ensures answer == if (cls, action) in grants then Ok(grants[(cls, action)] * ids) else Threw(NoRules)
    {
      log := log + [Question(cls, action, ids)];
      return if (cls, action) in grants then Ok(grants[(cls, action)] * ids) else Threw(NoRules);
    }
  }

  function IdsOf(models: seq<Record>, cls: Class): set<string> {
    set m | m in models && m.cls == cls && m.id.Some? :: m.id.value
  }

  /** The class has an action to check and a record with an id in the batch. */
  predicate Questionable(w: World, models: seq<Record>, isCollection: bool, cls: Class) {
    w.hasAbility && ActionFor(w, cls, isCollection).Some? && exists m :: m in models && m.cls == cls && m.id.Some?
  }

  /** The questions of a batch: at most one per class, about its action and all the class's ids,
      and, unless one threw, one for each class that has something to ask. */
  ghost predicate AskedOnce(w: World, models: seq<Record>, isCollection: bool, asked: seq<Question>, all: bool) {
    && (forall i, j :: 0 <= i < j < |asked| ==> asked[i].cls != asked[j].cls)
    && (forall q :: q in asked ==>
          && Questionable(w, models, isCollection, q.cls)
          && q == Question(q.cls, ActionFor(w, q.cls, isCollection).value, IdsOf(models, q.cls)))
    && (all ==> forall cls :: Questionable(w, models, isCollection, cls) ==> AsksAbout(asked, cls))
  }

  predicate AsksAbout(asked: seq<Question>, cls: Class) { exists q :: q in asked && q.cls == cls }

  /** What a batch asks about one of its classes. */
  function QuestionsAbout(w: World, models: seq<Record>, isCollection: bool, cls: Class): seq<Question> {
    if Questionable(w, models, isCollection, cls)
    then [Question(cls, ActionFor(w, cls, isCollection).value, IdsOf(models, cls))] else []
  }

  lemma {:induction false} AskedOneMore(w: World, models: seq<Record>, isCollection: bool, asked: seq<Question>, cls: Class)
    requires AskedOnce(w, models, isCollection, asked, false) && !AsksAbout(asked, cls)
    ensures var more := asked + QuestionsAbout(w, models, isCollection, cls);
      && AskedOnce(w, models, isCollection, more, false)
      && (Questionable(w, models, isCollection, cls) ==> AsksAbout(more, cls))
      && forall c :: c != cls ==> (AsksAbout(more, c) <==> AsksAbout(asked, c))
  {
    var more := asked + QuestionsAbout(w, models, isCollection, cls);
    if Questionable(w, models, isCollection, cls) {
      assert more[|asked|] in more;
      assert forall q :: q in asked ==> q in more;
      forall i | 0 <= i < |asked| ensures asked[i].cls != cls { assert asked[i] in asked; }
    }
  }

  lemma {:induction false} AskedAll(w: World, models: seq<Record>, isCollection: bool, asked: seq<Question>)
    requires AskedOnce(w, models, isCollection, asked, false)
    requires forall m :: m in models && Questionable(w, models, isCollection, m.cls) ==> AsksAbout(asked, m.cls)
    ensures AskedOnce(w, models, isCollection, asked, true)
  {}

  /** What one class's records are allowed, by at most one question. */
  method AuthorizedIds(w: World, db: Database, cls: Class, models: seq<Record>, isCollection: bool)
    returns (authorized: Outcome<set<string>, AccessError>)
    requires w.hasAbility && db.grants == w.grants && forall m :: m in models ==> m.cls == cls
    modifies db`log
    ensures authorized.Threw? <==> exists m :: m in models && AccessThrows(w, m, isCollection)
    ensures authorized.Ok? ==> forall m :: m in models ==>
      (Accessible(w, m, isCollection) <==> m.id.Some? && m.id.value in authorized.value)
    ensures db.log == old(db.log) + QuestionsAbout(w, models, isCollection, cls)
  {
    var action := ActionFor(w, cls, isCollection);
    var ids := set m: Record | m in models && m.id.Some? :: m.id.value;
    assert forall m :: m in models && m.id.Some? ==> m.id.value in ids;
    assert ids == IdsOf(models, cls);
    if ids != {} { var id :| id in ids; }
    if action.None? || ids == {} { return Ok({}); }
    authorized := db.AccessibleIds(cls, action.value, ids);
  }

  /** Asks the database at most once per class for the accessible ids of a whole batch. */
  method AuthorizedIdsByClass(w: World, db: Database, models: seq<Record>, isCollection: bool)
    returns (authorized: Outcome<map<Class, set<string>>, AccessError>)
    requires w.hasAbility && db.grants == w.grants
    modifies db`log
    ensures authorized.Threw? <==> exists m :: m in models && AccessThrows(w, m, isCollection)
    ensures authorized.Ok? ==> forall m :: m in models ==>
      && m.cls in authorized.value
      && (Accessible(w, m, isCollection) <==> m.id.Some? && m.id.value in authorized.value[m.cls])
    ensures old(db.log) <= db.log && AskedOnce(w, models, isCollection, db.log[|old(db.log)|..], authorized.Ok?)
  {
    hide AccessThrows, Accessible, Questionable, QuestionsAbout, AskedOnce, AsksAbout;
    var classes, modelsByClass := GroupByClass(models);
    var ids: map<Class, set<string>> := map[];
    ghost var asked: seq<Question> := [];
    NothingAsked(w, models, isCollection);
    for k := 0 to |classes|
      invariant forall c :: c in ids <==> c in classes[..k]
      invariant forall m :: m in models && m.cls in ids ==>
        !AccessThrows(w, m, isCollection)
        && (Accessible(w, m, isCollection) <==> m.id.Some? && m.id.value in ids[m.cls])
      invariant db.log == old(db.log) + asked && AskedOnce(w, models, isCollection, asked, false)
      invariant forall c :: AsksAbout(asked, c) ==> c in ids
      invariant forall c :: c in ids && Questionable(w, models, isCollection, c) ==> AsksAbout(asked, c)
    {
      var cls := classes[k];
      assert forall j :: 0 <= j < k ==> classes[j] != cls;
      assert cls !in classes[..k];
      SameQuestion(w, models, modelsByClass[cls], isCollection, cls);
      AskedOneMore(w, models, isCollection, asked, cls);
      var forClass := AuthorizedIds(w, db, cls, modelsByClass[cls], isCollection);
      asked := asked + QuestionsAbout(w, models, isCollection, cls);
      assert db.log[|old(db.log)|..] == asked;
      if forClass.Threw? { return Threw(NoRules); }
      forall m | m in models && m.cls == cls
        ensures !AccessThrows(w, m, isCollection)
        ensures Accessible(w, m, isCollection) <==> m.id.Some? && m.id.value in forClass.value
      {
        assert m in modelsByClass[cls];
      }
      ids := ids[cls := forClass.value];
    }
    assert classes[..|classes|] == classes;
    AskedAll(w, models, isCollection, asked);
    assert db.log[|old(db.log)|..] == asked;
    return Ok(ids);
  }

  lemma {:induction false} NothingAsked(w: World, models: seq<Record>, isCollection: bool)
    ensures AskedOnce(w, models, isCollection, [], false) && forall c :: !AsksAbout([], c)
    ensures !w.hasAbility || models == [] ==> AskedOnce(w, models, isCollection, [], true)
  {
    if !w.hasAbility || models == [] {
      forall cls ensures !Questionable(w, models, isCollection, cls) {}
    }
  }

  lemma {:induction false} SameQuestion(w: World, models: seq<Record>, forClass: seq<Record>, isCollection: bool, cls: Class)
    requires forall m :: m in forClass <==> m in models && m.cls == cls
    ensures QuestionsAbout(w, forClass, isCollection, cls) == QuestionsAbout(w, models, isCollection, cls)
  {
    hide ActionFor;
    forall m | m in models && m.cls == cls && m.id.Some? ensures m in forClass {}
    assert IdsOf(forClass, cls) == IdsOf(models, cls);
    assert Questionable(w, forClass, isCollection, cls) <==> Questionable(w, models, isCollection, cls);
  }

  method FilterSerializableRelatedModels(w: World, db: Database, models: seq<Record>, isCollection: bool)
    returns (kept: Outcome<seq<Record>, AccessError>)
    requires db.grants == w.grants
    modifies db`log
    ensures kept == if exists m :: m in models && AccessThrows(w, m, isCollection) then Threw(NoRules)
                    else Ok(Keep(w, models, isCollection))
    ensures old(db.log) <= db.log && AskedOnce(w, models, isCollection, db.log[|old(db.log)|..], kept.Ok?)
  {
    hide AccessThrows, Accessible, AskedOnce;
    NothingAsked(w, models, isCollection);
    assert db.log[|db.log|..] == [];
    if !w.hasAbility {
      KeepAll(w, models, isCollection);
      return Ok(models);
    }
    if |models| == 0 { return Ok(models); }

    var authorized := AuthorizedIdsByClass(w, db, models, isCollection);
    if authorized.Threw? { return Threw(NoRules); }
    var result: seq<Record> := [];
    for k := 0 to |models|
      invariant result == Keep(w, models[..k], isCollection)
      invariant old(db.log) <= db.log && AskedOnce(w, models, isCollection, db.log[|old(db.log)|..], true)
    {
      var m := models[k];
      KeepOneMore(w, models, k, isCollection);
      if m.id.Some? && m.id.value in authorized.value[m.cls] { result := result + [m]; }
    }
    assert models[..|models|] == models;
    return Ok(result);
  }

  method GroupByClass(models: seq<Record>) returns (classes: seq<Class>, modelsByClass: map<Class, seq<Record>>)
    ensures Distinct(classes)
    ensures forall c :: c in classes <==> c in modelsByClass
    ensures forall m :: m in models ==> m.cls in modelsByClass && m in modelsByClass[m.cls]
    ensures forall c, m :: c in modelsByClass && m in modelsByClass[c] ==> m in models && m.cls == c
    ensures forall c :: c in modelsByClass ==> modelsByClass[c] != []
  {
    classes, modelsByClass := [], map[];
    for k := 0 to |models|
      invariant Distinct(classes)
      invariant forall c :: c in classes <==> c in modelsByClass
      invariant forall m :: m in models[..k] ==> m.cls in modelsByClass && m in modelsByClass[m.cls]
      invariant forall c, m :: c in modelsByClass && m in modelsByClass[c] ==> m in models && m.cls == c
      invariant forall c :: c in modelsByClass ==> modelsByClass[c] != []
    {
      var m := models[k];
      if m.cls in modelsByClass {
        modelsByClass := modelsByClass[m.cls := modelsByClass[m.cls] + [m]];
      } else {
        classes := classes + [m.cls];
        modelsByClass := modelsByClass[m.cls := [m]];
      }
    }
  }

  lemma {:induction false} KeepAll(w: World, models: seq<Record>, isCollection: bool)
    requires !w.hasAbility
    ensures Keep(w, models, isCollection) == models
    ensures forall m :: m in models ==> !AccessThrows(w, m, isCollection)
  {
    if models != [] { KeepAll(w, models[1..], isCollection); }
  }

  lemma {:induction false} KeepCons(w: World, m: Record, rest: seq<Record>, isCollection: bool)
    ensures Keep(w, [m] + rest, isCollection) == KeepOne(w, m, isCollection) + Keep(w, rest, isCollection)
  {
    assert ([m] + rest)[1..] == rest;
  }

  lemma {:induction false} KeepConcat(w: World, a: seq<Record>, b: seq<Record>, isCollection: bool)
    ensures Keep(w, a + b, isCollection) == Keep(w, a, isCollection) + Keep(w, b, isCollection)
  {
    if a == [] {
      assert a + b == b;
    } else {
      hide *;
      var first, rest := a[0], a[1..];
      assert a == [first] + rest && a + b == [first] + (rest + b);
      KeepCons(w, first, rest, isCollection);
      KeepCons(w, first, rest + b, isCollection);
      KeepConcat(w, rest, b, isCollection);
      var one, kept, tail := KeepOne(w, first, isCollection), Keep(w, rest, isCollection), Keep(w, b, isCollection);
      assert one + (kept + tail) == (one + kept) + tail;
    }
  }

  lemma {:induction false} KeepOneMore(w: World, models: seq<Record>, k: nat, isCollection: bool)
    requires k < |models|
    ensures Keep(w, models[..k + 1], isCollection) ==
      Keep(w, models[..k], isCollection) + (if Accessible(w, models[k], isCollection) then [models[k]] else [])
  {
    hide Keep, Accessible;
    assert models[..k + 1] == models[..k] + [models[k]];
    KeepConcat(w, models[..k], [models[k]], isCollection);
    KeepCons(w, models[k], [], isCollection);
    KeepNothing(w, isCollection);
    assert [models[k]] + [] == [models[k]];
  }

  lemma {:induction false} KeepNothing(w: World, isCollection: bool)
    ensures Keep(w, [], isCollection) == []
  {}

  // ---------------------------------------------------------------- the batched serializer

  /** A due relationship of the record at `index`, set aside until its batch is authorised. */
  datatype Entry = Entry(loaded: seq<Record>, index: nat, name: string)

  /** The entries stand for due relationships of the batch, of the wanted kind. */
  ghost predicate Describe(w: World, models: seq<Record>, entries: seq<Entry>, isCollection: bool) {
    forall e :: e in entries ==>
      && e.index < |models| && Due(w, models[e.index], e.name)
      && var loaded := LoadedOf(w, models[e.index], e.name);
         if isCollection then loaded == Many(e.loaded) else |e.loaded| == 1 && loaded == One(e.loaded[0])
  }

  predicate Covers(entries: seq<Entry>, index: nat, name: string) {
    exists e :: e in entries && e.index == index && e.name == name
  }

  /** Every due collection and every due single model of record `i` has its entry. */
  ghost predicate CompleteAt(w: World, models: seq<Record>, i: nat, collections: seq<Entry>, singulars: seq<Entry>)
    requires i < |models|
  {
    forall name :: Due(w, models[i], name) ==>
      && (LoadedOf(w, models[i], name).Many? <==> Covers(collections, i, name))
      && (LoadedOf(w, models[i], name).One? <==> Covers(singulars, i, name))
  }

  ghost predicate Complete(w: World, models: seq<Record>, upTo: nat, collections: seq<Entry>, singulars: seq<Entry>) {
    forall i :: 0 <= i < upTo && i < |models| ==> CompleteAt(w, models, i, collections, singulars)
  }

  ghost predicate PlainFilled(w: World, r: Record, plain: map<string, Related>) {
    forall name ::
      && (name in plain <==> Due(w, r, name) && LoadedOf(w, r, name).Plain?)
      && (name in plain ==> RelatedMeaning(w, r, name) == Ok(plain[name]))
  }

  /** Entries of other records neither cover nor uncover anything of record `j`. */
  lemma {:induction false} CompleteGrows(w: World, models: seq<Record>, j: nat,
                      collections: seq<Entry>, many: seq<Entry>, singulars: seq<Entry>, one: seq<Entry>)
    requires j < |models|
    requires || (CompleteAt(w, models, j, collections, singulars) && forall e :: e in many + one ==> e.index != j)
             || (CompleteAt(w, models, j, many, one) && forall e :: e in collections + singulars ==> e.index != j)
    ensures CompleteAt(w, models, j, collections + many, singulars + one)
  {
    hide Due, LoadedOf;
    forall name
      ensures Covers(collections + many, j, name) <==> Covers(collections, j, name) || Covers(many, j, name)
      ensures Covers(singulars + one, j, name) <==> Covers(singulars, j, name) || Covers(one, j, name)
    {
    }
  }

  /** First pass over one record. */
  method CollectFrom(w: World, models: seq<Record>, i: nat)
    returns (plain: map<string, Related>, many: seq<Entry>, one: seq<Entry>)
    requires i < |models|
    ensures PlainFilled(w, models[i], plain)
    ensures Describe(w, models, many, true) && Describe(w, models, one, false)
    ensures forall e :: e in many + one ==> e.index == i
    ensures CompleteAt(w, models, i, many, one)
  {
    hide Meaning, Accessible, AccessThrows, Find;
    var names := Names(w, models[i].cls);
    plain, many, one := map[], [], [];
    for k := 0 to |names|
      invariant forall name :: name in plain <==> name in names[..k] && Due(w, models[i], name) && LoadedOf(w, models[i], name).Plain?
      invariant forall name :: name in plain ==> RelatedMeaning(w, models[i], name) == Ok(plain[name])
      invariant Describe(w, models, many, true) && Describe(w, models, one, false)
      invariant forall e :: e in many + one ==> e.index == i
      invariant forall name :: name in names[..k] && Due(w, models[i], name) ==>
        && (LoadedOf(w, models[i], name).Many? ==> Covers(many, i, name))
        && (LoadedOf(w, models[i], name).One? ==> Covers(one, i, name))
    {
      var name := names[k];
      if Due(w, models[i], name) {
        match LoadedOf(w, models[i], name) {
          case Many(loaded) => many := many + [Entry(loaded, i, name)];
          case One(model) => one := one + [Entry([model], i, name)];
          case Plain(value) => plain := plain[name := if value.Some? then Value(value.value) else Null];
        }
      }
    }
  }

  /** First pass: plain values are final, models wait for authorisation. */
  method CollectRelated(w: World, models: seq<Record>)
    returns (related: seq<map<string, Related>>, collections: seq<Entry>, singulars: seq<Entry>)
    ensures |related| == |models| && forall j :: 0 <= j < |models| ==> PlainFilled(w, models[j], related[j])
    ensures Complete(w, models, |models|, collections, singulars)
    ensures Describe(w, models, collections, true) && Describe(w, models, singulars, false)
  {
    hide Due, LoadedOf, RelatedMeaning, CompleteAt, PlainFilled;
    related, collections, singulars := [], [], [];
    for i := 0 to |models|
      invariant |related| == i
      invariant forall j :: 0 <= j < i ==> PlainFilled(w, models[j], related[j])
      invariant Complete(w, models, i, collections, singulars)
      invariant Describe(w, models, collections, true) && Describe(w, models, singulars, false)
      invariant forall e :: e in collections + singulars ==> e.index < i
    {
      var plain, many, one := CollectFrom(w, models, i);
      forall j | 0 <= j <= i ensures CompleteAt(w, models, j, collections + many, singulars + one) {
        CompleteGrows(w, models, j, collections, many, singulars, one);
      }
      related, collections, singulars := related + [plain], collections + many, singulars + one;
    }
  }

  /** The values of the entries handled so far are filled in, and nothing else is. */
  ghost predicate FilledAt(w: World, models: seq<Record>, i: nat, related: map<string, Related>,
                           collections: seq<Entry>, singulars: seq<Entry>)
    requires i < |models|
  {
    forall name ::
      && (name in related <==>
            Due(w, models[i], name) &&
            (LoadedOf(w, models[i], name).Plain? || Covers(collections, i, name) || Covers(singulars, i, name)))
      && (name in related ==> RelatedMeaning(w, models[i], name) == Ok(related[name]))
  }

  ghost predicate Filled(w: World, models: seq<Record>, related: seq<map<string, Related>>,
                         collections: seq<Entry>, singulars: seq<Entry>)
  {
    |related| == |models| && forall i :: 0 <= i < |models| ==> FilledAt(w, models, i, related[i], collections, singulars)
  }

  /** Storing the meaning of one more entry keeps the table filled. */
  lemma {:induction false} FillOne(w: World, models: seq<Record>, related: seq<map<string, Related>>, value: Related,
                collections: seq<Entry>, singulars: seq<Entry>, e: Entry, isCollection: bool)
    requires Filled(w, models, related, collections, singulars)
    requires e.index < |models| && Due(w, models[e.index], e.name) && RelatedMeaning(w, models[e.index], e.name) == Ok(value)
    ensures var related' := related[e.index := related[e.index][e.name := value]];
      if isCollection then Filled(w, models, related', collections + [e], singulars)
      else Filled(w, models, related', collections, singulars + [e])
  {
    hide Due, LoadedOf, RelatedMeaning;
    var related' := related[e.index := related[e.index][e.name := value]];
    var collections' := if isCollection then collections + [e] else collections;
    var singulars' := if isCollection then singulars else singulars + [e];
    forall i | 0 <= i < |models| ensures FilledAt(w, models, i, related'[i], collections', singulars') {
      assert FilledAt(w, models, i, related[i], collections, singulars);
      forall name
        ensures Covers(collections', i, name) || Covers(singulars', i, name) <==>
          Covers(collections, i, name) || Covers(singulars, i, name) || (i == e.index && name == e.name)
      {
        if i == e.index && name == e.name { assert e in collections' + singulars'; }
      }
    }
  }

  function Flatten(entries: seq<Entry>): (models: seq<Record>)
    ensures forall m :: m in models <==> exists e :: e in entries && m in e.loaded
  {
    if entries == [] then [] else entries[0].loaded + Flatten(entries[1..])
  }

  /** A thrown access or a thrown child makes the parent's meaning throw. */
  lemma {:induction false} ParentThrows(w: World, r: Record, name: string)
    requires Due(w, r, name) && RelatedMeaning(w, r, name).Threw?
    ensures Meaning(w, r).Threw?
  {
  }

  lemma {:induction false} ChildIsLower(w: World, r: Record, name: string, m: Record)
    requires Due(w, r, name)
    requires LoadedOf(w, r, name) == One(m) || (LoadedOf(w, r, name).Many? && m in LoadedOf(w, r, name).models)
    ensures Height(m) < Height(r)
  {
  }

  lemma {:induction false} PlainIsFilled(w: World, models: seq<Record>, related: seq<map<string, Related>>)
    requires |related| == |models| && forall j :: 0 <= j < |models| ==> PlainFilled(w, models[j], related[j])
    ensures Filled(w, models, related, [], [])
  {}

  lemma {:induction false} OneThrows(w: World, models: seq<Record>)
    requires exists m :: m in models && Meaning(w, m).Threw?
    ensures MeaningOfAll(w, models) == Threw(NoRules)
  {}

  method SerializeFrontendModels(w: World, db: Database, models: seq<Record>) returns (out: Outcome<seq<Payload>, AccessError>)
    requires db.grants == w.grants
    ensures out == MeaningOfAll(w, models)
    modifies db`log
    ensures old(db.log) <= db.log
    decreases MaxHeight(models), 2
  {
    hide MeaningOfAll, Meaning, RelatedMeaning, Assemble, PlainFilled, FilledAt, CompleteAt, Describe;
    if |models| < 1 {
      AllMeanings(w, models, []);
      return Ok([]);
    }
    var related, collections, singulars := CollectRelated(w, models);
    PlainIsFilled(w, models, related);

    var filled := SerializeCollections(w, db, models, related, collections);
    if filled.Threw? {
      OneThrows(w, models);
      return Threw(NoRules);
    }
    filled := SerializeSingulars(w, db, models, filled.value, collections, singulars);
    if filled.Threw? {
      OneThrows(w, models);
      return Threw(NoRules);
    }

    var payloads: seq<Payload> := [];
    for i := 0 to |models|
      invariant |payloads| == i
      invariant forall j :: 0 <= j < i ==> Meaning(w, models[j]) == Ok(payloads[j])
      invariant old(db.log) <= db.log
    {
      MeaningIsFilled(w, models, i, filled.value[i], collections, singulars);
      payloads := payloads + [Assemble(models[i], filled.value[i])];
    }
    AllMeanings(w, models, payloads);
    return Ok(payloads);
  }

  lemma {:induction false} AllMeanings(w: World, models: seq<Record>, payloads: seq<Payload>)
    requires |payloads| == |models| && forall j :: 0 <= j < |models| ==> Meaning(w, models[j]) == Ok(payloads[j])
    ensures MeaningOfAll(w, models) == Ok(payloads)
  {
    forall m | m in models ensures Meaning(w, m).Ok? {
      var j :| 0 <= j < |models| && models[j] == m;
    }
    assert payloads == seq(|models|, i requires 0 <= i < |models| => Meaning(w, models[i]).value);
  }

  /** Once every due relationship is filled in, the record's meaning is the assembled payload. */
  lemma {:induction false} MeaningIsFilled(w: World, models: seq<Record>, i: nat, related: map<string, Related>,
                        collections: seq<Entry>, singulars: seq<Entry>)
    requires i < |models| && FilledAt(w, models, i, related, collections, singulars)
    requires CompleteAt(w, models, i, collections, singulars)
    ensures Meaning(w, models[i]) == Ok(Assemble(models[i], related))
  {
    var r := models[i];
    var preloaded := map name | name in Names(w, r.cls) && Due(w, r, name) :: RelatedMeaning(w, r, name).value;
    assert forall name :: Due(w, r, name) ==> name in related;
    assert preloaded == related;
  }

  /** `loaded.filter((m) => serializable.has(m))` for a batch that contains the loaded models. */
  method AllowedModels(w: World, loaded: seq<Record>, serializable: set<Record>, isCollection: bool)
    returns (allowed: seq<Record>)
    requires forall m :: m in loaded ==> (m in serializable <==> Accessible(w, m, isCollection))
    ensures allowed == Keep(w, loaded, isCollection)
  {
    allowed := [];
    for k := 0 to |loaded|
      invariant allowed == Keep(w, loaded[..k], isCollection)
    {
      KeepOneMore(w, loaded, k, isCollection);
      if loaded[k] in serializable { allowed := allowed + [loaded[k]]; }
    }
    assert loaded[..|loaded|] == loaded;
  }

  /** One collection entry, given the authorised models of the whole batch. */
  method SerializeCollectionEntry(w: World, db: Database, models: seq<Record>, e: Entry, serializable: set<Record>)
    returns (value: Outcome<Related, AccessError>)
    requires Describe(w, models, [e], true)
    requires forall m :: m in e.loaded ==> !AccessThrows(w, m, true) && (m in serializable <==> Accessible(w, m, true))
    requires db.grants == w.grants
    ensures e.index < |models| && Due(w, models[e.index], e.name) && value == RelatedMeaning(w, models[e.index], e.name)
    modifies db`log
    ensures old(db.log) <= db.log
    decreases MaxHeight(models), 0
  {
    hide AccessThrows, Accessible, Meaning;
    assert e in [e] && models[e.index] in models;
    var allowed := AllowedModels(w, e.loaded, serializable, true);
    KeepIsAccessible(w, e.loaded, true);
    forall m | m in allowed ensures Height(m) < MaxHeight(models) {
      ChildIsLower(w, models[e.index], e.name, m);
    }
    var serialized := SerializeFrontendModels(w, db, allowed);
    value := if serialized.Threw? then Threw(NoRules) else Ok(Collection(serialized.value));
  }

  method SerializeSingularEntry(w: World, db: Database, models: seq<Record>, e: Entry, serializable: set<Record>)
    returns (value: Outcome<Related, AccessError>)
    requires Describe(w, models, [e], false)
    requires forall m :: m in e.loaded ==> !AccessThrows(w, m, false) && (m in serializable <==> Accessible(w, m, false))
    requires db.grants == w.grants
    ensures e.index < |models| && Due(w, models[e.index], e.name) && value == RelatedMeaning(w, models[e.index], e.name)
    modifies db`log
    ensures old(db.log) <= db.log
    decreases MaxHeight(models), 0
  {
    hide AccessThrows, Accessible, Meaning;
    assert e in [e] && models[e.index] in models;
    var m := e.loaded[0];
    if m !in serializable { return Ok(Null); }
    ChildIsLower(w, models[e.index], e.name, m);
    var serialized := SerializeFrontendModels(w, db, [m]);
    value := if serialized.Threw? then Threw(NoRules) else Ok(Single(serialized.value[0]));
  }

  lemma {:induction false} AccessThrowsThere(w: World, r: Record, name: string, m: Record, isCollection: bool)
    requires Due(w, r, name) && AccessThrows(w, m, isCollection)
    requires if isCollection then LoadedOf(w, r, name).Many? && m in LoadedOf(w, r, name).models else LoadedOf(w, r, name) == One(m)
    ensures RelatedMeaning(w, r, name).Threw?
  {
    hide Meaning, AccessThrows;
  }

  /** An access that throws in the batch throws in the record it belongs to. */
  lemma {:induction false} BatchThrows(w: World, models: seq<Record>, entries: seq<Entry>, isCollection: bool, m: Record)
    requires Describe(w, models, entries, isCollection) && m in Flatten(entries) && AccessThrows(w, m, isCollection)
    ensures exists r :: r in models && Meaning(w, r).Threw?
  {
    hide Meaning, RelatedMeaning, AccessThrows, Due, LoadedOf;
    var e :| e in entries && m in e.loaded;
    assert LoadedOf(w, models[e.index], e.name) == if isCollection then Many(e.loaded) else One(m);
    AccessThrowsThere(w, models[e.index], e.name, m, isCollection);
    ParentThrows(w, models[e.index], e.name);
  }

  /** Authorises the models of all entries together. */
  method AuthorizeEntries(w: World, db: Database, models: seq<Record>, entries: seq<Entry>, isCollection: bool)
    returns (serializable: Outcome<set<Record>, AccessError>)
    requires db.grants == w.grants && Describe(w, models, entries, isCollection)
    modifies db`log
    ensures old(db.log) <= db.log
    ensures AskedOnce(w, Flatten(entries), isCollection, db.log[|old(db.log)|..], serializable.Ok?)
    ensures serializable.Threw? ==> exists m :: m in models && Meaning(w, m).Threw?
    ensures serializable.Ok? ==> forall e, m :: e in entries && m in e.loaded ==>
      !AccessThrows(w, m, isCollection) && (m in serializable.value <==> Accessible(w, m, isCollection))
  {
    hide AccessThrows, Accessible, Meaning, AskedOnce, Describe;
    var all := Flatten(entries);
    var kept := FilterSerializableRelatedModels(w, db, all, isCollection);
    KeepIsAccessible(w, all, isCollection);
    if kept.Threw? {
      ghost var m :| m in all && AccessThrows(w, m, isCollection);
      BatchThrows(w, models, entries, isCollection, m);
      return Threw(NoRules);
    }
    return Ok(set m | m in kept.value);
  }

  /** A pass over entries starts by asking once for all of them; what follows are the questions of
      the records below. */
  ghost predicate AsksAsOneBatch(w: World, entries: seq<Entry>, isCollection: bool, before: seq<Question>, after: seq<Question>) {
    before <= after &&
    exists n: nat :: |before| <= n <= |after| && AskedOnce(w, Flatten(entries), isCollection, after[|before|..n], true)
  }

  lemma {:induction false} BatchComesFirst(w: World, entries: seq<Entry>, isCollection: bool,
                        before: seq<Question>, asked: seq<Question>, after: seq<Question>)
    requires before <= asked <= after && AskedOnce(w, Flatten(entries), isCollection, asked[|before|..], true)
    ensures AsksAsOneBatch(w, entries, isCollection, before, after)
  {
    assert after[|before|..|asked|] == asked[|before|..];
  }

  method SerializeCollections(w: World, db: Database, models: seq<Record>, related: seq<map<string, Related>>,
                               collections: seq<Entry>)
    returns (filled: Outcome<seq<map<string, Related>>, AccessError>)
    requires db.grants == w.grants
    requires Filled(w, models, related, [], []) && Describe(w, models, collections, true)
    modifies db`log
    ensures filled.Ok? ==> Filled(w, models, filled.value, collections, [])
    ensures filled.Threw? ==> exists m :: m in models && Meaning(w, m).Threw?
    ensures old(db.log) <= db.log
    ensures filled.Ok? && collections != [] ==> AsksAsOneBatch(w, collections, true, old(db.log), db.log)
    decreases MaxHeight(models), 1
  {
    hide AccessThrows, Accessible, Meaning, RelatedMeaning, FilledAt, Due, LoadedOf, AskedOnce, AsksAsOneBatch, Flatten;
    if |collections| == 0 { return Ok(related); }
    var serializable := AuthorizeEntries(w, db, models, collections, true);
    if serializable.Threw? { return Threw(NoRules); }
    ghost var asked := db.log;
    var table := related;
    for k := 0 to |collections|
      invariant Filled(w, models, table, collections[..k], []) && asked <= db.log
    {
      var e := collections[k];
      var value := SerializeCollectionEntry(w, db, models, e, serializable.value);
      if value.Threw? {
        ParentThrows(w, models[e.index], e.name);
        return Threw(NoRules);
      }
      FillOne(w, models, table, value.value, collections[..k], [], e, true);
      table := table[e.index := table[e.index][e.name := value.value]];
      assert collections[..k + 1] == collections[..k] + [e];
    }
    assert collections[..|collections|] == collections;
    BatchComesFirst(w, collections, true, old(db.log), asked, db.log);
    return Ok(table);
  }

  method SerializeSingulars(w: World, db: Database, models: seq<Record>, related: seq<map<string, Related>>,
                            collections: seq<Entry>, singulars: seq<Entry>)
    returns (filled: Outcome<seq<map<string, Related>>, AccessError>)
    requires db.grants == w.grants
    requires Filled(w, models, related, collections, []) && Describe(w, models, singulars, false)
    modifies db`log
    ensures filled.Ok? ==> Filled(w, models, filled.value, collections, singulars)
    ensures filled.Threw? ==> exists m :: m in models && Meaning(w, m).Threw?
    ensures old(db.log) <= db.log
    ensures filled.Ok? && singulars != [] ==> AsksAsOneBatch(w, singulars, false, old(db.log), db.log)
    decreases MaxHeight(models), 1
  {
    hide AccessThrows, Accessible, Meaning, RelatedMeaning, FilledAt, Due, LoadedOf, AskedOnce, AsksAsOneBatch, Flatten;
    if |singulars| == 0 { return Ok(related); }
    var serializable := AuthorizeEntries(w, db, models, singulars, false);
    if serializable.Threw? { return Threw(NoRules); }
    ghost var asked := db.log;
    var table := related;
    for k := 0 to |singulars|
      invariant Filled(w, models, table, collections, singulars[..k]) && asked <= db.log
    {
      var e := singulars[k];
      var value := SerializeSingularEntry(w, db, models, e, serializable.value);
      if value.Threw? {
        ParentThrows(w, models[e.index], e.name);
        return Threw(NoRules);
      }
      FillOne(w, models, table, value.value, collections, singulars[..k], e, false);
      table := table[e.index := table[e.index][e.name := value.value]];
      assert singulars[..k + 1] == singulars[..k] + [e];
    }
    assert singulars[..|singulars|] == singulars;
    BatchComesFirst(w, singulars, false, old(db.log), asked, db.log);
    return Ok(table);
  }

  // ---------------------------------------------------------------- what a payload carries

  function Present(m: map<string, Json>): Option<map<string, Json>> { if m == map[] then None else Some(m) }

  /** A payload carries the record's own attributes, counts, query data and abilities, the last three
      only when there are any. */
  lemma {:induction false} PayloadCarriesItsRecord(w: World, r: Record)
    requires Meaning(w, r).Ok?
    ensures var p := Meaning(w, r).value;
      p.attributes == r.attributes && p.counts == Present(r.counts) && p.queryData == Present(r.queryData) && p.abilities == Present(r.abilities)
  {
    assert forall m: map<string, Json> :: |m| == 0 <==> m == map[];
  }

  /** It shows exactly the relationships of its class that the resource exposes and that were
      preloaded on the record. */
  lemma {:induction false} PayloadShowsThePreloaded(w: World, r: Record, name: string)
    requires Meaning(w, r).Ok?
    requires forall a, b :: a in r.relationships && b in r.relationships && a.name == b.name ==> a == b
    ensures var shown := Meaning(w, r).value.preloaded;
      shown.Some? && name in shown.value <==>
        && r.cls in w.relationshipNames && name in w.relationshipNames[r.cls]
        && r.cls in w.exposed && name in w.exposed[r.cls]
        && exists rel :: rel in r.relationships && rel.name == name && rel.preloaded
  {
    hide RelatedMeaning;
    FindFinds(r.relationships, name);
    var preloaded := map n | n in Names(w, r.cls) && Due(w, r, n) :: RelatedMeaning(w, r, n).value;
    assert Meaning(w, r).value == Assemble(r, preloaded);
    assert name in preloaded <==> Due(w, r, name);
    if name in preloaded { assert |preloaded| > 0; }
  }

  lemma {:induction false} FindFinds(rels: seq<Relationship>, name: string)
    ensures Find(rels, name).None? ==> forall rel :: rel in rels ==> rel.name != name
  {
    if rels != [] && rels[0].name != name { FindFinds(rels[1..], name); }
  }

  // ---------------------------------------------------------------- what the batch means

  /** Serializing a list is serializing its members one by one: same length, same order, same
      payloads, and the whole fails exactly when some member alone would fail. */
  lemma {:induction false} BatchIsPointwise(w: World, models: seq<Record>)
    ensures MeaningOfAll(w, models).Threw? <==> exists i :: 0 <= i < |models| && MeaningOfAll(w, [models[i]]).Threw?
    ensures MeaningOfAll(w, models).Ok? ==>
      && |MeaningOfAll(w, models).value| == |models|
      && forall i :: 0 <= i < |models| ==> MeaningOfAll(w, [models[i]]) == Ok([MeaningOfAll(w, models).value[i]])
  {
    hide Meaning;
    forall i | 0 <= i < |models|
      ensures MeaningOfAll(w, [models[i]]).Threw? <==> Meaning(w, models[i]).Threw?
      ensures Meaning(w, models[i]).Ok? ==> MeaningOfAll(w, [models[i]]) == Ok([Meaning(w, models[i]).value])
    {
      assert models[i] in [models[i]];
      if Meaning(w, models[i]).Ok? { AllMeanings(w, [models[i]], [Meaning(w, models[i]).value]); }
    }
    if MeaningOfAll(w, models).Threw? {
      var m :| m in models && Meaning(w, m).Threw?;
      var i :| 0 <= i < |models| && models[i] == m;
      assert MeaningOfAll(w, [models[i]]).Threw?;
    }
  }

  /** The payloads of a due collection are those of its accessible records, in order, and only
      those; a due single record is its payload if it is accessible and null otherwise. */
  lemma {:induction false} RelatedAppearsIffAccessible(w: World, r: Record, name: string)
    requires Due(w, r, name) && Meaning(w, r).Ok?
    ensures Meaning(w, r).value.preloaded.Some? && name in Meaning(w, r).value.preloaded.value
    ensures var related := Meaning(w, r).value.preloaded.value[name];
      match LoadedOf(w, r, name)
      case Many(models) =>
        var kept := Keep(w, models, true);
        && related.Collection? && |related.payloads| == |kept|
        && (forall m :: m in models ==> (m in kept <==> Accessible(w, m, true)))
        && (forall k :: 0 <= k < |kept| ==> Meaning(w, kept[k]) == Ok(related.payloads[k]))
      case One(m) =>
        if Accessible(w, m, false) then Meaning(w, m).Ok? && related == Single(Meaning(w, m).value) else related == Null
      case Plain(value) => related == if value.Some? then Value(value.value) else Null
  {
    var preloaded := map n | n in Names(w, r.cls) && Due(w, r, n) :: RelatedMeaning(w, r, n).value;
    if LoadedOf(w, r, name).Many? { KeepIsAccessible(w, LoadedOf(w, r, name).models, true); }
    assert name in preloaded;
  }
}

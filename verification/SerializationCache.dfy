/**
 * The request-scoped cache of serialization resources, under nested parameter overrides
 * and nested ability contexts.
 *
 * A controller call is a `Program`: it serves records, enters `withFrontendModelParams`
 * and `withFrontendModelRequestContext` blocks, throws, and catches. The class `Controller`
 * runs it on fields that are saved and restored; `Exec` is the run on values. Every lookup
 * is recorded as an `Event`, which is what the resolution hook observes.
 */
module SerializationCache {
  import opened Outcomes

  // ---- What is configured -------------------------------------------------------

  datatype Params = Params(model: string, payload: string)

  // A resource definition; `resourceClass` is None when it is not a resource subclass.
  datatype Definition = Definition(resourceClass: Option<string>, modelClass: string)

  type Project = map<string, Definition>

  type Ability = Option<string>

  // `params` is None for a related model's resource, which is built with empty params.
  datatype Resource = Resource(resourceClass: string, modelClass: string, modelName: string, ability: Ability, params: Option<Params>)

  type Cache = map<string, map<bool, Resource>>

  /** The definition the request parameters name, in the first project that has it. None: the lookup throws. */
  function RootDefinition(projects: seq<Project>, params: Params): Option<Definition> {
    if projects == [] || params.model == "" then None
    else if params.model in projects[0] then
      if projects[0][params.model].resourceClass.None? then None else Some(projects[0][params.model])
    else RootDefinition(projects[1..], params)
  }

  /** The resource class registered for a related model, skipping projects that have none. */
  function RelatedClass(projects: seq<Project>, cls: string): Option<string> {
    if projects == [] then None
    else if cls in projects[0] && projects[0][cls].resourceClass.Some? then projects[0][cls].resourceClass
    else RelatedClass(projects[1..], cls)
  }

  /** What a lookup builds when nothing is cached. `root` is the class the params name. */
  function Fresh(projects: seq<Project>, params: Params, root: Definition, ability: Ability, cls: string): Option<Resource> {
    if cls == root.modelClass then
      if root.resourceClass.None? then None
      else Some(Resource(root.resourceClass.value, cls, params.model, ability, Some(params)))
    else
      var related := RelatedClass(projects, cls);
      if related.None? then None else Some(Resource(related.value, cls, cls, ability, None))
  }

  function Cached(cache: Cache, cls: string, related: bool): Option<Resource> {
    if cls in cache && related in cache[cls] then Some(cache[cls][related]) else None
  }

  function Stored(cache: Cache, cls: string, related: bool, resource: Resource): Cache {
    cache[cls := (if cls in cache then cache[cls] else map[])[related := resource]]
  }

  // ---- Runs on values -------------------------------------------------------------

  datatype Program =
    | Done
    | Throw
    | Serve(cls: string, next: Program)
    | WithParams(params: Params, body: Program, next: Program)
    | WithContext(ability: Ability, body: Program, next: Program)
    | Catch(body: Program, next: Program)

  // One lookup: in which params block it ran, for which class, what was in force, what it returned.
  datatype Event = Event(block: nat, cls: string, params: Params, ability: Ability, served: Option<Resource>)

  datatype Frame = Frame(block: nat, params: Params, ability: Ability)

  datatype Run = Run(cache: Cache, events: seq<Event>, blocks: nat, threw: bool)

  /** One lookup: None when the params name no model. */
  function ServeOne(projects: seq<Project>, f: Frame, cache: Cache, cls: string): Option<(Cache, Event)> {
    var root := RootDefinition(projects, f.params);
    if root.None? then None
    else
      var related := cls != root.value.modelClass;
      var hit := Cached(cache, cls, related);
      var served := if hit.Some? then hit else Fresh(projects, f.params, root.value, f.ability, cls);
      Some((if hit.None? && served.Some? then Stored(cache, cls, related, served.value) else cache,
            Event(f.block, cls, f.params, f.ability, served)))
  }

  function Exec(projects: seq<Project>, f: Frame, r: Run, program: Program): Run
    decreases program
  {
    match program
    case Done => r
    case Throw => r.(threw := true)
    case Serve(cls, next) =>
      var one := ServeOne(projects, f, r.cache, cls);
      if one.None? then r.(threw := true)
      else Exec(projects, f, r.(cache := one.value.0, events := r.events + [one.value.1]), next)
    case WithParams(params, body, next) =>
      var inner := Exec(projects, Frame(r.blocks, params, f.ability), Run(map[], r.events, r.blocks + 1, false), body);
      var after := inner.(cache := r.cache);
      if after.threw then after else Exec(projects, f, after, next)
    case WithContext(ability, body, next) =>
      var after := Exec(projects, f.(ability := ability), r, body);
      if after.threw then after else Exec(projects, f, after, next)
    case Catch(body, next) =>
      Exec(projects, f, Exec(projects, f, r, body).(threw := false), next)
  }

  /** A whole run: block 0 is the request itself, with an empty cache. */
  function RunOf(projects: seq<Project>, request: Params, ability: Ability, program: Program): Run {
    Exec(projects, Frame(0, request, ability), Run(map[], [], 1, false), program)
  }

  // ---- What is served -------------------------------------------------------------

  /** The ability in force when the params block first served this class with a resource. */
  function FirstAbility(events: seq<Event>, block: nat, cls: string): Option<Ability> {
    if events == [] then None
    else if events[0].block == block && events[0].cls == cls && events[0].served.Some? then Some(events[0].ability)
    else FirstAbility(events[1..], block, cls)
  }

  lemma {:induction false} FirstAbilityAppend(events: seq<Event>, e: Event, block: nat, cls: string)
    ensures FirstAbility(events + [e], block, cls) ==
            (if FirstAbility(events, block, cls).Some? then FirstAbility(events, block, cls)
             else FirstAbility([e], block, cls))
  {
    if events != [] {
      assert (events + [e])[1..] == events[1..] + [e];
      FirstAbilityAppend(events[1..], e, block, cls);
    }
  }

  lemma {:induction false} FirstAbilityIsFirst(events: seq<Event>, block: nat, cls: string)
    ensures FirstAbility(events, block, cls).None? <==>
            forall i :: 0 <= i < |events| ==> !(events[i].block == block && events[i].cls == cls && events[i].served.Some?)
    ensures FirstAbility(events, block, cls).Some? ==>
              exists i :: 0 <= i < |events| && events[i].block == block && events[i].cls == cls && events[i].served.Some?
                          && FirstAbility(events, block, cls) == Some(events[i].ability)
                          && forall j :: 0 <= j < i ==> !(events[j].block == block && events[j].cls == cls && events[j].served.Some?)
  {
    if events != [] {
      FirstAbilityIsFirst(events[1..], block, cls);
      assert forall i :: 1 <= i < |events| ==> events[i] == events[1..][i - 1];
      assert forall i :: 0 <= i < |events| - 1 ==> events[1..][i] == events[i + 1];
      if FirstAbility(events, block, cls).Some? && !(events[0].block == block && events[0].cls == cls && events[0].served.Some?) {
        var i :| 0 <= i < |events| - 1 && events[1..][i].block == block && events[1..][i].cls == cls && events[1..][i].served.Some?
                 && FirstAbility(events[1..], block, cls) == Some(events[1..][i].ability)
                 && forall j :: 0 <= j < i ==> !(events[1..][j].block == block && events[1..][j].cls == cls && events[1..][j].served.Some?);
        assert events[i + 1] == events[1..][i];
        forall j | 0 <= j < i + 1
          ensures !(events[j].block == block && events[j].cls == cls && events[j].served.Some?)
        {
          if j > 0 { assert events[j] == events[1..][j - 1]; }
        }
      }
    }
  }

  /** What a fresh lookup under the params of the event would have built, under a given ability. */
  function FreshAt(projects: seq<Project>, e: Event, ability: Ability): Option<Resource> {
    var root := RootDefinition(projects, e.params);
    if root.None? then None else Fresh(projects, e.params, root.value, ability, e.cls)
  }

  /** Event `k` got what a fresh lookup builds under the ability of the block's first lookup of that class. */
  ghost predicate ServedByFirst(projects: seq<Project>, events: seq<Event>, k: nat)
    requires k < |events|
  {
    var e := events[k];
    var first := FirstAbility(events[..k], e.block, e.cls);
    e.served == FreshAt(projects, e, if first.Some? then first.value else e.ability)
  }

  /** The cache of a frame holds exactly what its block has served so far. */
  ghost predicate Mirrors(projects: seq<Project>, f: Frame, r: Run) {
    var root := RootDefinition(projects, f.params);
    forall cls: string, related: bool ::
      Cached(r.cache, cls, related) ==
      (if root.None? || related != (cls != root.value.modelClass) || FirstAbility(r.events, f.block, cls).None? then None
       else Fresh(projects, f.params, root.value, FirstAbility(r.events, f.block, cls).value, cls))
  }

  ghost predicate Good(projects: seq<Project>, f: Frame, r: Run) {
    && f.block < r.blocks
    && (forall i :: 0 <= i < |r.events| ==> r.events[i].block < r.blocks)
    && (forall k :: 0 <= k < |r.events| ==> ServedByFirst(projects, r.events, k))
    && Mirrors(projects, f, r)
  }

  /** What a block appends: its own events or those of blocks opened after `from`. */
  ghost predicate Extends(block: nat, from: Run, to: Run) {
    && |from.events| <= |to.events| && to.events[..|from.events|] == from.events
    && from.blocks <= to.blocks
    && forall i :: |from.events| <= i < |to.events| ==> to.events[i].block == block || from.blocks <= to.events[i].block
  }

  lemma {:induction false} OtherBlocksDoNotMatter(events: seq<Event>, more: seq<Event>, block: nat, cls: string)
    requires forall i :: 0 <= i < |more| ==> more[i].block != block
    ensures FirstAbility(events + more, block, cls) == FirstAbility(events, block, cls)
  {
    if more == [] {
      assert events + more == events;
    } else {
      var init := more[..|more| - 1];
      OtherBlocksDoNotMatter(events, init, block, cls);
      assert events + more == (events + init) + [more[|more| - 1]];
      FirstAbilityAppend(events + init, more[|more| - 1], block, cls);
    }
  }

  lemma {:induction false} ServeKeepsGood(projects: seq<Project>, f: Frame, r: Run, cls: string)
    requires Good(projects, f, r) && ServeOne(projects, f, r.cache, cls).Some?
    ensures var one := ServeOne(projects, f, r.cache, cls).value;
            var after := r.(cache := one.0, events := r.events + [one.1]);
            Good(projects, f, after) && Extends(f.block, r, after)
  {
    var one := ServeOne(projects, f, r.cache, cls).value;
    var e := one.1;
    var after := r.(cache := one.0, events := r.events + [e]);
    var related := cls != RootDefinition(projects, f.params).value.modelClass;
    assert Cached(r.cache, cls, related) == Cached(r.cache, cls, related);
    assert after.events[..|r.events|] == r.events;
    forall k | 0 <= k < |after.events| ensures ServedByFirst(projects, after.events, k) {
      if k < |r.events| {
        assert ServedByFirst(projects, r.events, k);
        assert after.events[..k] == r.events[..k];
      }
    }
    forall c: string, b: bool
      ensures Cached(after.cache, c, b) ==
              (if b != (c != RootDefinition(projects, f.params).value.modelClass) || FirstAbility(after.events, f.block, c).None? then None
               else Fresh(projects, f.params, RootDefinition(projects, f.params).value, FirstAbility(after.events, f.block, c).value, c))
    {
      FirstAbilityAppend(r.events, e, f.block, c);
      assert Cached(r.cache, c, b) == Cached(r.cache, c, b);
    }
  }

  /** Every run keeps the cache equal to what its block has served, whatever it nests and however it ends. */
  lemma {:induction false} ExecKeepsGood(projects: seq<Project>, f: Frame, r: Run, program: Program)
    requires Good(projects, f, r)
    ensures Good(projects, f, Exec(projects, f, r, program))
    ensures Extends(f.block, r, Exec(projects, f, r, program))
    decreases program
  {
    hide Good, Extends, ServeOne;
    GoodBlock(projects, f, r);
    match program
    case Done => ExtendsBack(f.block, r, true);
    case Throw =>
      ThrewIsGood(projects, f, r, true);
      ExtendsBack(f.block, r, true);
    case Serve(cls, next) =>
      var one := ServeOne(projects, f, r.cache, cls);
      if one.None? {
        ThrewIsGood(projects, f, r, true);
        ExtendsBack(f.block, r, true);
      } else {
        ServeKeepsGood(projects, f, r, cls);
        var after := r.(cache := one.value.0, events := r.events + [one.value.1]);
        ExecKeepsGood(projects, f, after, next);
        ExtendsOn(f.block, r, after, Exec(projects, f, after, next));
      }
    case WithParams(params, body, next) =>
      var start := Run(map[], r.events, r.blocks + 1, false);
      var g := Frame(r.blocks, params, f.ability);
      NewBlockIsGood(projects, f, r, g);
      ExecKeepsGood(projects, g, start, body);
      var after := Exec(projects, g, start, body).(cache := r.cache);
      LeavingBlockIsGood(projects, f, r, g, Exec(projects, g, start, body));
      if !after.threw {
        ExecKeepsGood(projects, f, after, next);
        ExtendsOn(f.block, r, after, Exec(projects, f, after, next));
      }
    case WithContext(ability, body, next) =>
      var g := f.(ability := ability);
      AbilityIsNotInGood(projects, f, g, r);
      ExecKeepsGood(projects, g, r, body);
      var after := Exec(projects, g, r, body);
      AbilityIsNotInGood(projects, g, f, after);
      if !after.threw {
        ExecKeepsGood(projects, f, after, next);
        ExtendsOn(f.block, r, after, Exec(projects, f, after, next));
      }
    case Catch(body, next) =>
      ExecKeepsGood(projects, f, r, body);
      var after := Exec(projects, f, r, body);
      var caught := after.(threw := false);
      ThrewIsGood(projects, f, after, false);
      ExtendsBack(f.block, after, false);
      ExtendsOn(f.block, r, after, caught);
      ExecKeepsGood(projects, f, caught, next);
      ExtendsOn(f.block, r, caught, Exec(projects, f, caught, next));
  }

  lemma {:induction false} GoodBlock(projects: seq<Project>, f: Frame, r: Run)
    requires Good(projects, f, r)
    ensures f.block < r.blocks
  {}

  lemma {:induction false} ExtendsBack(block: nat, r: Run, threw: bool)
    ensures Extends(block, r, r) && Extends(block, r, r.(threw := threw))
  {}

  lemma {:induction false} ExtendsOn(block: nat, a: Run, b: Run, c: Run)
    requires Extends(block, a, b) && Extends(block, b, c)
    ensures Extends(block, a, c)
  {
    assert c.events[..|a.events|] == b.events[..|a.events|];
    forall i | |a.events| <= i < |c.events| ensures c.events[i].block == block || a.blocks <= c.events[i].block {
      if i < |b.events| { assert c.events[i] == c.events[..|b.events|][i]; }
    }
  }

  lemma {:induction false} ThrewIsGood(projects: seq<Project>, f: Frame, r: Run, threw: bool)
    requires Good(projects, f, r)
    ensures Good(projects, f, r.(threw := threw))
  {}

  lemma {:induction false} AbilityIsNotInGood(projects: seq<Project>, f: Frame, g: Frame, r: Run)
    requires Good(projects, f, r) && g.block == f.block && g.params == f.params
    ensures Good(projects, g, r)
  {}

  lemma {:induction false} NewBlockIsGood(projects: seq<Project>, f: Frame, r: Run, g: Frame)
    requires Good(projects, f, r) && g.block == r.blocks
    ensures Good(projects, g, Run(map[], r.events, r.blocks + 1, false))
  {
    forall cls: string ensures FirstAbility(r.events, g.block, cls).None? {
      OtherBlocksDoNotMatter([], r.events, g.block, cls);
      assert [] + r.events == r.events;
    }
  }

  lemma {:induction false} LeavingBlockIsGood(projects: seq<Project>, f: Frame, r: Run, g: Frame, inner: Run)
    requires Good(projects, f, r) && g.block == r.blocks && Good(projects, g, inner)
    requires Extends(g.block, Run(map[], r.events, r.blocks + 1, false), inner)
    ensures Good(projects, f, inner.(cache := r.cache)) && Extends(f.block, r, inner.(cache := r.cache))
  {
    var after := inner.(cache := r.cache);
    var more := inner.events[|r.events|..];
    assert inner.events == r.events + more;
    forall cls: string ensures FirstAbility(inner.events, f.block, cls) == FirstAbility(r.events, f.block, cls) {
      OtherBlocksDoNotMatter(r.events, more, f.block, cls);
    }
    forall cls: string, related: bool ensures Cached(after.cache, cls, related) == Cached(r.cache, cls, related) {}
  }

  /**
   * Whatever a program nests, every lookup returns what a fresh lookup under the params in
   * force builds, under the ability its params block had when it first served that class.
   */
  lemma {:induction false} ServedUnderTheFirstAbility(projects: seq<Project>, request: Params, ability: Ability, program: Program, k: nat)
    requires k < |RunOf(projects, request, ability, program).events|
    ensures ServedByFirst(projects, RunOf(projects, request, ability, program).events, k)
  {
    ExecKeepsGood(projects, Frame(0, request, ability), Run(map[], [], 1, false), program);
  }

  ghost predicate Transparent(projects: seq<Project>, e: Event) {
    e.served == FreshAt(projects, e, e.ability)
  }

  /** Two lookups of one class in one params block, both with a resource, ran under the same ability. */
  ghost predicate OneAbility(d: Event, e: Event) {
    d.block == e.block && d.cls == e.cls && d.served.Some? && e.served.Some? ==> d.ability == e.ability
  }

  lemma {:induction false} FreshShowsItsAbility(projects: seq<Project>, e: Event, a: Ability, b: Ability)
    ensures FreshAt(projects, e, a).Some? <==> FreshAt(projects, e, b).Some?
    ensures FreshAt(projects, e, a).Some? ==> FreshAt(projects, e, a).value.ability == a
    ensures FreshAt(projects, e, a) == FreshAt(projects, e, b) <==> FreshAt(projects, e, a).None? || a == b
  {}

  lemma {:induction false} TransparentIffServedUnderOneAbility(projects: seq<Project>, request: Params, ability: Ability, program: Program)
    ensures var events := RunOf(projects, request, ability, program).events;
            (forall k :: 0 <= k < |events| ==> Transparent(projects, events[k])) <==>
            (forall i, j :: 0 <= i < j < |events| ==> OneAbility(events[i], events[j]))
  {
    var events := RunOf(projects, request, ability, program).events;
    forall k | 0 <= k < |events| ensures ServedByFirst(projects, events, k) {
      ServedUnderTheFirstAbility(projects, request, ability, program, k);
    }
    if forall k :: 0 <= k < |events| ==> Transparent(projects, events[k]) {
      forall i, j | 0 <= i < j < |events| ensures OneAbility(events[i], events[j]) {
        TransparentMeansOneAbility(projects, events, i, j);
      }
    }
    if forall i, j :: 0 <= i < j < |events| ==> OneAbility(events[i], events[j]) {
      forall k | 0 <= k < |events| ensures Transparent(projects, events[k]) {
        assert ServedByFirst(projects, events, k);
        var e := events[k];
        var first := FirstAbility(events[..k], e.block, e.cls);
        FirstAbilityIsFirst(events[..k], e.block, e.cls);
        if first.Some? {
          var i :| 0 <= i < k && events[..k][i].block == e.block && events[..k][i].cls == e.cls && events[..k][i].served.Some?
                   && first == Some(events[..k][i].ability);
          assert OneAbility(events[i], events[k]);
          FreshShowsItsAbility(projects, e, first.value, e.ability);
        }
      }
    }
  }

  lemma {:induction false} TransparentMeansOneAbility(projects: seq<Project>, events: seq<Event>, i: nat, j: nat)
    requires i < j < |events|
    requires forall k :: 0 <= k < |events| ==> ServedByFirst(projects, events, k) && Transparent(projects, events[k])
    ensures OneAbility(events[i], events[j])
  {
    hide FreshAt, FirstAbility;
    if events[i].block == events[j].block && events[i].cls == events[j].cls && events[i].served.Some? && events[j].served.Some? {
      var block, cls := events[j].block, events[j].cls;
      FirstAbilityIsFirst(events[..j], block, cls);
      assert events[..j][i] == events[i];
      var f :| 0 <= f < j && events[..j][f].block == block && events[..j][f].cls == cls && events[..j][f].served.Some?
               && FirstAbility(events[..j], block, cls) == Some(events[..j][f].ability)
               && forall g :: 0 <= g < f ==> !(events[..j][g].block == block && events[..j][g].cls == cls && events[..j][g].served.Some?);
      FirstServes(projects, events, f, j);
      assert f <= i;
      FirstServes(projects, events, f, i);
    }
  }

  // A later transparent lookup ran under the ability of the block's first one.
  lemma {:induction false} FirstServes(projects: seq<Project>, events: seq<Event>, f: nat, j: nat)
    requires f <= j < |events|
    requires ServedByFirst(projects, events, j) && Transparent(projects, events[j]) && events[j].served.Some?
    requires events[f].block == events[j].block && events[f].cls == events[j].cls && events[f].served.Some?
    requires forall g :: 0 <= g < f ==> !(events[g].block == events[f].block && events[g].cls == events[f].cls && events[g].served.Some?)
    ensures events[f].ability == events[j].ability
  {
    if f < j {
      FirstAbilityIsFirst(events[..j], events[j].block, events[j].cls);
      assert events[..j][f] == events[f];
      var i :| 0 <= i < j && FirstAbility(events[..j], events[j].block, events[j].cls) == Some(events[..j][i].ability)
               && events[..j][i].block == events[j].block && events[..j][i].cls == events[j].cls && events[..j][i].served.Some?
               && forall g :: 0 <= g < i ==> !(events[..j][g].block == events[j].block && events[..j][g].cls == events[j].cls && events[..j][g].served.Some?);
      assert events[..j][i] == events[i];
      assert i == f;
      FreshShowsItsAbility(projects, events[j], events[f].ability, events[j].ability);
    }
  }

  // ---- The exact condition, read off the program -------------------------------------

  // One lookup the program makes: the params block, the class, and what is in force.
  datatype Look = Look(block: nat, cls: string, params: Params, ability: Ability)

  datatype Trace = Trace(looks: seq<Look>, blocks: nat, threw: bool)

  /** The lookups of a program, without any cache: it depends only on what the params name. */
  function Looks(projects: seq<Project>, f: Frame, t: Trace, program: Program): Trace
    decreases program
  {
    match program
    case Done => t
    case Throw => t.(threw := true)
    case Serve(cls, next) =>
      if RootDefinition(projects, f.params).None? then t.(threw := true)
      else Looks(projects, f, t.(looks := t.looks + [Look(f.block, cls, f.params, f.ability)]), next)
    case WithParams(params, body, next) =>
      var after := Looks(projects, Frame(t.blocks, params, f.ability), Trace(t.looks, t.blocks + 1, false), body);
      if after.threw then after else Looks(projects, f, after, next)
    case WithContext(ability, body, next) =>
      var after := Looks(projects, f.(ability := ability), t, body);
      if after.threw then after else Looks(projects, f, after, next)
    case Catch(body, next) =>
      Looks(projects, f, Looks(projects, f, t, body).(threw := false), next)
  }

  function LooksOf(projects: seq<Project>, request: Params, ability: Ability, program: Program): seq<Look> {
    Looks(projects, Frame(0, request, ability), Trace([], 1, false), program).looks
  }

  function LookOf(e: Event): Look { Look(e.block, e.cls, e.params, e.ability) }

  function TraceOf(r: Run): Trace {
    Trace(seq(|r.events|, i requires 0 <= i < |r.events| => LookOf(r.events[i])), r.blocks, r.threw)
  }

  /** The run makes exactly the lookups of the program, whatever its cache answers. */
  lemma {:induction false} ExecMakesTheLooks(projects: seq<Project>, f: Frame, r: Run, program: Program)
    ensures TraceOf(Exec(projects, f, r, program)) == Looks(projects, f, TraceOf(r), program)
    decreases program
  {
    match program
    case Done =>
    case Throw =>
    case Serve(cls, next) =>
      var one := ServeOne(projects, f, r.cache, cls);
      if one.Some? {
        var after := r.(cache := one.value.0, events := r.events + [one.value.1]);
        assert TraceOf(after).looks == TraceOf(r).looks + [LookOf(one.value.1)];
        ExecMakesTheLooks(projects, f, after, next);
      }
    case WithParams(params, body, next) =>
      var start := Run(map[], r.events, r.blocks + 1, false);
      var inner := Exec(projects, Frame(r.blocks, params, f.ability), start, body);
      ExecMakesTheLooks(projects, Frame(r.blocks, params, f.ability), start, body);
      assert TraceOf(inner.(cache := r.cache)) == TraceOf(inner);
      ExecMakesTheLooks(projects, f, inner.(cache := r.cache), next);
    case WithContext(ability, body, next) =>
      ExecMakesTheLooks(projects, f.(ability := ability), r, body);
      ExecMakesTheLooks(projects, f, Exec(projects, f.(ability := ability), r, body), next);
    case Catch(body, next) =>
      var after := Exec(projects, f, r, body);
      ExecMakesTheLooks(projects, f, r, body);
      assert TraceOf(after.(threw := false)) == TraceOf(after).(threw := false);
      ExecMakesTheLooks(projects, f, after.(threw := false), next);
  }

  /** A resource is registered for the class under the params in force. */
  predicate HasResource(projects: seq<Project>, look: Look) {
    var root := RootDefinition(projects, look.params);
    root.Some? && Fresh(projects, look.params, root.value, look.ability, look.cls).Some?
  }

  /** Lookups of one class with a resource, in one params block, are under one ability. */
  ghost predicate Agree(projects: seq<Project>, a: Look, b: Look) {
    a.block == b.block && a.cls == b.cls && HasResource(projects, a) && HasResource(projects, b) ==> a.ability == b.ability
  }

  /**
   * The cache is transparent in a whole run if and only if the program looks up no class under
   * two abilities in one params block.
   */
  lemma {:induction false} TransparentIffOneAbilityPerBlock(projects: seq<Project>, request: Params, ability: Ability, program: Program)
    ensures var events := RunOf(projects, request, ability, program).events;
            var looks := LooksOf(projects, request, ability, program);
            (forall k :: 0 <= k < |events| ==> Transparent(projects, events[k])) <==>
            (forall i, j :: 0 <= i < j < |looks| ==> Agree(projects, looks[i], looks[j]))
  {
    var events := RunOf(projects, request, ability, program).events;
    var looks := LooksOf(projects, request, ability, program);
    ExecMakesTheLooks(projects, Frame(0, request, ability), Run(map[], [], 1, false), program);
    assert TraceOf(Run(map[], [], 1, false)) == Trace([], 1, false);
    assert |looks| == |events| && forall k :: 0 <= k < |events| ==> looks[k] == LookOf(events[k]);
    TransparentIffServedUnderOneAbility(projects, request, ability, program);
    forall k | 0 <= k < |events| ensures events[k].served.Some? <==> HasResource(projects, looks[k]) {
      ServedUnderTheFirstAbility(projects, request, ability, program, k);
      ServedIffHasResource(projects, events, k);
    }
    forall i, j | 0 <= i < j < |events| ensures OneAbility(events[i], events[j]) <==> Agree(projects, looks[i], looks[j]) {}
  }

  lemma {:induction false} ServedIffHasResource(projects: seq<Project>, events: seq<Event>, k: nat)
    requires k < |events| && ServedByFirst(projects, events, k)
    ensures events[k].served.Some? <==> HasResource(projects, LookOf(events[k]))
  {
    var e := events[k];
    var first := FirstAbility(events[..k], e.block, e.cls);
    FreshShowsItsAbility(projects, e, if first.Some? then first.value else e.ability, e.ability);
  }

  /** The ability in force at every lookup made by a program whose contexts never change it inside a params block. */
  predicate Pinned(ability: Ability, program: Program)
    decreases program
  {
    match program
    case Done => true
    case Throw => true
    case Serve(_, next) => Pinned(ability, next)
    case WithParams(_, body, next) =>
      && (Pinned(ability, body) || (body.WithContext? && body.next.Done? && Pinned(body.ability, body.body)))
      && Pinned(ability, next)
    case WithContext(a, body, next) => a == ability && Pinned(ability, body) && Pinned(ability, next)
    case Catch(body, next) => Pinned(ability, body) && Pinned(ability, next)
  }

  ghost predicate BlockHasAbility(events: seq<Event>, block: nat, ability: Ability) {
    forall i :: 0 <= i < |events| && events[i].block == block ==> events[i].ability == ability
  }

  ghost predicate BlocksHaveOneAbility(events: seq<Event>) {
    forall i, j :: 0 <= i < j < |events| && events[i].block == events[j].block ==> events[i].ability == events[j].ability
  }

  lemma {:induction false} PinnedRun(projects: seq<Project>, f: Frame, r: Run, program: Program)
    requires Pinned(f.ability, program) && Good(projects, f, r)
    requires BlockHasAbility(r.events, f.block, f.ability) && BlocksHaveOneAbility(r.events)
    ensures var after := Exec(projects, f, r, program);
            BlockHasAbility(after.events, f.block, f.ability) && BlocksHaveOneAbility(after.events)
    decreases program
  {
    hide Mirrors, ServedByFirst, ServeOne, Fresh;
    match program
    case Done =>
    case Throw =>
    case Serve(cls, next) =>
      var one := ServeOne(projects, f, r.cache, cls);
      if one.Some? {
        ServeKeepsGood(projects, f, r, cls);
        ServeSaysWhere(projects, f, r.cache, cls);
        PinnedRun(projects, f, r.(cache := one.value.0, events := r.events + [one.value.1]), next);
      }
    case WithParams(params, body, next) =>
      var start := Run(map[], r.events, r.blocks + 1, false);
      var g := Frame(r.blocks, params, f.ability);
      NewBlockIsGood(projects, f, r, g);
      ExecKeepsGood(projects, g, start, body);
      var inner := Exec(projects, g, start, body);
      if Pinned(f.ability, body) {
        PinnedRun(projects, g, start, body);
      } else {
        AbilityIsNotInGood(projects, g, g.(ability := body.ability), start);
        PinnedRun(projects, g.(ability := body.ability), start, body.body);
      }
      LeavingBlockIsGood(projects, f, r, g, inner);
      assert forall i :: 0 <= i < |r.events| ==> inner.events[i] == r.events[i] by {
        assert inner.events[..|r.events|] == r.events;
      }
      if !inner.threw { PinnedRun(projects, f, inner.(cache := r.cache), next); }
    case WithContext(a, body, next) =>
      ExecKeepsGood(projects, f, r, body);
      PinnedRun(projects, f, r, body);
      var after := Exec(projects, f, r, body);
      if !after.threw { PinnedRun(projects, f, after, next); }
    case Catch(body, next) =>
      ExecKeepsGood(projects, f, r, body);
      PinnedRun(projects, f, r, body);
      var after := Exec(projects, f, r, body);
      ThrewIsGood(projects, f, after, false);
      PinnedRun(projects, f, after.(threw := false), next);
  }

  lemma {:induction false} ServeSaysWhere(projects: seq<Project>, f: Frame, cache: Cache, cls: string)
    requires ServeOne(projects, f, cache, cls).Some?
    ensures ServeOne(projects, f, cache, cls).value.1.block == f.block
    ensures ServeOne(projects, f, cache, cls).value.1.ability == f.ability
  {}

  /**
   * Every program that changes the ability only around the whole body of a params block, as
   * the command and replay handlers do, gets from every lookup what a fresh one builds.
   */
  lemma {:induction false} PinnedProgramsAreTransparent(projects: seq<Project>, request: Params, ability: Ability, program: Program)
    requires Pinned(ability, program)
    ensures var events := RunOf(projects, request, ability, program).events;
            forall k :: 0 <= k < |events| ==> Transparent(projects, events[k])
  {
    var f, r := Frame(0, request, ability), Run(map[], [], 1, false);
    PinnedRun(projects, f, r, program);
    TransparentIffServedUnderOneAbility(projects, request, ability, program);
  }

  /** An ability context entered after a lookup serves the instance built under the outer ability. */
  lemma {:induction false} ContextServesAStaleAbility()
    ensures var tasks := map["Task" := Definition(Some("TaskResource"), "Task")];
            var program := Serve("Task", WithContext(Some("admin"), Serve("Task", Done), Done));
            var events := RunOf([tasks], Params("Task", ""), Some("guest"), program).events;
            |events| == 2 && events[1].ability == Some("admin") && events[1].served.Some?
            && events[1].served.value.ability == Some("guest")
  {
    var projects := [map["Task" := Definition(Some("TaskResource"), "Task")]];
    var f, r := Frame(0, Params("Task", ""), Some("guest")), Run(map[], [], 1, false);
    var inner := Serve("Task", Done);
    var one := ServeOne(projects, f, r.cache, "Task").value;
    var mid := r.(cache := one.0, events := r.events + [one.1]);
    var g := f.(ability := Some("admin"));
    assert Cached(mid.cache, "Task", false) == one.1.served;
    var two := ServeOne(projects, g, mid.cache, "Task").value;
    assert Exec(projects, g, mid, inner) == Exec(projects, g, mid.(cache := two.0, events := mid.events + [two.1]), Done);
    assert Exec(projects, f, mid, WithContext(Some("admin"), inner, Done)) == Exec(projects, g, mid, inner);
  }

  // ---- What a fresh lookup builds -----------------------------------------------------

  /** The root definition is that of the first project that defines the named model, and must be a
      resource. */
  lemma {:induction false} RootIsTheFirstProjects(projects: seq<Project>, params: Params, d: Definition)
    ensures RootDefinition(projects, params) == Some(d) <==>
            && params.model != "" && d.resourceClass.Some?
            && exists i :: 0 <= i < |projects| && params.model in projects[i] && projects[i][params.model] == d
                           && forall j :: 0 <= j < i ==> params.model !in projects[j]
  {
    if projects != [] {
      var rest := projects[1..];
      RootIsTheFirstProjects(rest, params, d);
      if i :| 0 <= i < |rest| && params.model in rest[i] && rest[i][params.model] == d && (forall j :: 0 <= j < i ==> params.model !in rest[j])
              && params.model !in projects[0] {
        assert projects[i + 1] == rest[i];
        forall j | 0 <= j < i + 1 ensures params.model !in projects[j] {
          if j > 0 { assert projects[j] == rest[j - 1]; }
        }
      }
      if i :| 0 < i < |projects| && params.model in projects[i] && projects[i][params.model] == d && forall j :: 0 <= j < i ==> params.model !in projects[j] {
        assert rest[i - 1] == projects[i];
        forall j | 0 <= j < i - 1 ensures params.model !in rest[j] { assert rest[j] == projects[j + 1]; }
      }
    }
  }

  predicate Registers(project: Project, cls: string) { cls in project && project[cls].resourceClass.Some? }

  /** A related model's resource class is that of the first project that registers one. */
  lemma {:induction false} RelatedIsTheFirstProjects(projects: seq<Project>, cls: string, resourceClass: string)
    ensures RelatedClass(projects, cls) == Some(resourceClass) <==>
            exists i :: 0 <= i < |projects| && Registers(projects[i], cls) && projects[i][cls].resourceClass == Some(resourceClass)
                        && forall j :: 0 <= j < i ==> !Registers(projects[j], cls)
  {
    if projects != [] {
      var rest := projects[1..];
      RelatedIsTheFirstProjects(rest, cls, resourceClass);
      if i :| 0 <= i < |rest| && Registers(rest[i], cls) && rest[i][cls].resourceClass == Some(resourceClass)
              && (forall j :: 0 <= j < i ==> !Registers(rest[j], cls)) && !Registers(projects[0], cls) {
        assert projects[i + 1] == rest[i];
        forall j | 0 <= j < i + 1 ensures !Registers(projects[j], cls) {
          if j > 0 { assert projects[j] == rest[j - 1]; }
        }
      }
      if i :| 0 < i < |projects| && Registers(projects[i], cls) && projects[i][cls].resourceClass == Some(resourceClass)
              && forall j :: 0 <= j < i ==> !Registers(projects[j], cls) {
        assert rest[i - 1] == projects[i];
        forall j | 0 <= j < i - 1 ensures !Registers(rest[j], cls) { assert rest[j] == projects[j + 1]; }
      }
    }
  }

  /** The root's resource carries the request's model and params; a related model's carries its own
      name and no params; both carry the class and the ability in force. */
  lemma {:induction false} FreshCarriesWhatIsInForce(projects: seq<Project>, params: Params, ability: Ability, cls: string, d: Definition, r: Resource)
    requires RootDefinition(projects, params) == Some(d) && Fresh(projects, params, d, ability, cls) == Some(r)
    ensures r.modelClass == cls && r.ability == ability
    ensures cls == d.modelClass ==> Some(r.resourceClass) == d.resourceClass && r.modelName == params.model && r.params == Some(params)
    ensures cls != d.modelClass ==> r.modelName == cls && r.params.None? && RelatedClass(projects, cls) == Some(r.resourceClass)
  {
  }

  /** A lookup in a params block is under its params, a lookup after it under the request's again,
      also when the block threw and was caught. */
  lemma {:induction false} ParamsBlockEndsWithItsBody(projects: seq<Project>, request: Params, ability: Ability, params: Params, cls: string, throws: bool)
    requires RootDefinition(projects, request).Some? && RootDefinition(projects, params).Some?
    ensures var block := WithParams(params, Serve(cls, if throws then Throw else Done), Done);
            var events := RunOf(projects, request, ability, Catch(block, Serve(cls, Done))).events;
            && |events| == 2
            && events[0] == Event(1, cls, params, ability, Fresh(projects, params, RootDefinition(projects, params).value, ability, cls))
            && events[1] == Event(0, cls, request, ability, Fresh(projects, request, RootDefinition(projects, request).value, ability, cls))
  {
    hide Fresh, RootDefinition;
    var body := Serve(cls, if throws then Throw else Done);
    var f, g := Frame(0, request, ability), Frame(1, params, ability);
    var start := Run(map[], [], 1, false);
    var one := ServeOne(projects, g, map[], cls).value;
    var served := Run(one.0, [one.1], 2, false);
    assert Exec(projects, g, Run(map[], [], 2, false), body) == served.(threw := throws);
    assert Exec(projects, f, start, WithParams(params, body, Done)) == Run(map[], [one.1], 2, throws);
    var two := ServeOne(projects, f, map[], cls).value;
    assert Exec(projects, f, Run(map[], [one.1], 2, false), Serve(cls, Done)) == Run(two.0, [one.1] + [two.1], 2, false);
  }

  // ---- The controller's fields ------------------------------------------------------

  class InstanceMap {
    var byClass: Cache

    constructor ()
      ensures byClass == map[]
    {
      byClass := map[];
    }
  }

  class Controller {
    const projects: seq<Project>
    const request: Params
    var paramsOverride: Option<Params>
    var decodedParams: Option<Params>
    var instances: InstanceMap?
    var abilityOverride: Ability
    var ambientAbility: Ability
    ghost var events: seq<Event>
    ghost var blocks: nat

    constructor (projects: seq<Project>, request: Params, ability: Ability)
      ensures this.projects == projects && this.request == request && Memo()
      ensures fresh(this) && instances == null && events == [] && blocks == 1
      ensures InForce() == request && CurrentAbility() == ability
    {
      this.projects, this.request := projects, request;
      paramsOverride, decodedParams, instances := None, None, null;
      abilityOverride, ambientAbility := None, ability;
      events, blocks := [], 1;
    }

    /** The memoised params are those of the request, and are used only without an override. */
    ghost predicate Memo()
      reads this
    {
      decodedParams.Some? ==> decodedParams.value == request
    }

    ghost function InForce(): Params
      reads this
    {
      if paramsOverride.Some? then paramsOverride.value else request
    }

    function CurrentAbility(): Ability
      reads this
    {
      if abilityOverride.Some? then abilityOverride else ambientAbility
    }

    ghost function InFrame(block: nat): Frame
      reads this
    {
      Frame(block, InForce(), CurrentAbility())
    }

    ghost function State(threw: bool): Run
      reads this, instances
    {
      Run(if instances == null then map[] else instances.byClass, events, blocks, threw)
    }

    /** The fields a params block must leave as they were. */
    ghost function Saved(): (Option<Params>, InstanceMap?, Ability, Ability)
      reads this
    {
      (paramsOverride, instances, abilityOverride, ambientAbility)
    }

    method FrontendModelParams() returns (params: Params)
      requires Memo()
      modifies this`decodedParams
      ensures Memo() && params == InForce()
      ensures paramsOverride.Some? ==> decodedParams == old(decodedParams)
    {
      if paramsOverride.Some? { return paramsOverride.value; }
      if decodedParams.None? { decodedParams := Some(request); }
      return decodedParams.value;
    }

    method FindRootDefinition(params: Params) returns (root: Option<Definition>)
      ensures root == RootDefinition(projects, params)
    {
      for k := 0 to |projects|
        invariant RootDefinition(projects, params) == RootDefinition(projects[k..], params)
      {
        assert projects[k..][1..] == projects[k + 1..];
        if params.model != "" && params.model in projects[k] {
          var found := projects[k][params.model];
          if found.resourceClass.None? { return None; }
          return Some(found);
        }
      }
      return None;
    }

    method InstancesMap() returns (m: InstanceMap)
      modifies this`instances
      ensures m == instances && (if old(instances) == null then fresh(m) && m.byClass == map[] else m == old(instances))
    {
      if instances == null { instances := new InstanceMap(); }
      return instances;
    }

    method Build(params: Params, root: Definition, cls: string, related: bool) returns (resource: Option<Resource>)
      requires related == (cls != root.modelClass)
      ensures resource == Fresh(projects, params, root, CurrentAbility(), cls)
    {
      if !related {
        return if root.resourceClass.None? then None else Some(Resource(root.resourceClass.value, cls, params.model, CurrentAbility(), Some(params)));
      }
      for k := 0 to |projects|
        invariant RelatedClass(projects, cls) == RelatedClass(projects[k..], cls)
      {
        assert projects[k..][1..] == projects[k + 1..];
        if cls in projects[k] && projects[k][cls].resourceClass.Some? {
          return Some(Resource(projects[k][cls].resourceClass.value, cls, cls, CurrentAbility(), None));
        }
      }
      return None;
    }

    method SerializationResourceInstanceForModel(cls: string, ghost block: nat, ghost r: Run) returns (threw: bool, resource: Option<Resource>)
      requires Memo() && State(false) == r
      modifies this`decodedParams, this`instances, this`events, instances
      ensures Memo() && (paramsOverride.Some? ==> decodedParams == old(decodedParams))
      ensures if old(instances) == null then instances == null || fresh(instances) else instances == old(instances)
      ensures var one := ServeOne(projects, old(InFrame(block)), r.cache, cls);
              if one.None? then threw && State(false) == r
              else !threw && resource == one.value.1.served
                   && State(false) == r.(cache := one.value.0, events := r.events + [one.value.1])
    {
      hide Fresh, RootDefinition, RelatedClass;
      var params := FrontendModelParams();
      var root := FindRootDefinition(params);
      if root.None? { return true, None; }
      var related := cls != root.value.modelClass;
      var m := InstancesMap();
      assert m.byClass == r.cache && CurrentAbility() == old(CurrentAbility());
      if cls in m.byClass && related in m.byClass[cls] {
        resource := Some(m.byClass[cls][related]);
      } else {
        resource := Build(params, root.value, cls, related);
        if resource.Some? {
          var byRelated := if cls in m.byClass then m.byClass[cls] else map[];
          m.byClass := m.byClass[cls := byRelated[related := resource.value]];
        }
      }
      assert (m.byClass, Event(block, cls, params, CurrentAbility(), resource)) == ServeOne(projects, old(InFrame(block)), r.cache, cls).value;
      threw := false;
      events := events + [Event(block, cls, params, CurrentAbility(), resource)];
    }

    method WithFrontendModelParams(params: Params, body: Program, ghost block: nat, ghost r: Run) returns (threw: bool)
      requires Memo() && State(false) == r && block < blocks
      modifies this, instances
      ensures old(blocks) <= blocks
      ensures Memo() && Saved() == old(Saved()) && decodedParams == old(decodedParams)
      ensures var inner := Exec(projects, Frame(r.blocks, params, old(CurrentAbility())), Run(map[], r.events, r.blocks + 1, false), body);
              threw == inner.threw && State(threw) == inner.(cache := r.cache)
      decreases body, 1
    {
      var previousOverride, previousParams, previousInstances := paramsOverride, decodedParams, instances;
      paramsOverride, decodedParams, instances := Some(params), None, null;
      ghost var newBlock := blocks;
      blocks := blocks + 1;
      threw := Perform(body, newBlock, Run(map[], r.events, r.blocks + 1, false));
      paramsOverride, decodedParams, instances := previousOverride, previousParams, previousInstances;
    }

    method WithFrontendModelRequestContext(ability: Ability, body: Program, ghost block: nat, ghost r: Run) returns (threw: bool)
      requires Memo() && State(false) == r && block < blocks
      modifies this, instances
      ensures old(blocks) <= blocks
      ensures Memo() && paramsOverride == old(paramsOverride) && abilityOverride == old(abilityOverride) && ambientAbility == old(ambientAbility)
      ensures paramsOverride.Some? ==> decodedParams == old(decodedParams)
      ensures if old(instances) == null then instances == null || fresh(instances) else instances == old(instances)
      ensures var after := Exec(projects, old(InFrame(block)).(ability := ability), r, body);
              threw == after.threw && State(threw) == after
      decreases body, 1
    {
      var previousAbilityOverride, previousAmbient := abilityOverride, ambientAbility;
      abilityOverride, ambientAbility := ability, ability;
      threw := Perform(body, block, r);
      abilityOverride, ambientAbility := previousAbilityOverride, previousAmbient;
    }

    /** Any program, run on the fields, does what `Exec` says and leaves every override as it found it. */
    method Perform(program: Program, ghost block: nat, ghost r: Run) returns (threw: bool)
      requires Memo() && State(false) == r && block < blocks
      modifies this, instances
      ensures old(blocks) <= blocks
      ensures Memo() && paramsOverride == old(paramsOverride) && abilityOverride == old(abilityOverride) && ambientAbility == old(ambientAbility)
      ensures paramsOverride.Some? ==> decodedParams == old(decodedParams)
      ensures if old(instances) == null then instances == null || fresh(instances) else instances == old(instances)
      ensures var after := Exec(projects, old(InFrame(block)), r, program);
              threw == after.threw && State(threw) == after
      decreases program, 0
    {
      match program
      case Done => return false;
      case Throw => return true;
      case Serve(cls, next) =>
        var resource;
        threw, resource := SerializationResourceInstanceForModel(cls, block, r);
        if threw { return; }
        threw := Perform(next, block, State(false));
      case WithParams(params, body, next) =>
        threw := WithFrontendModelParams(params, body, block, r);
        if threw { return; }
        threw := Perform(next, block, State(false));
      case WithContext(ability, body, next) =>
        threw := WithFrontendModelRequestContext(ability, body, block, r);
        if threw { return; }
        threw := Perform(next, block, State(false));
      case Catch(body, next) =>
        threw := Perform(body, block, r);
        threw := Perform(next, block, State(false));
    }
  }
}

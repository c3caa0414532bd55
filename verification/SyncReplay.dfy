/** Replay of signed sync mutations (src/frontend-model-controller.js): verification, grant
    checks, command dispatch and the server change feed. */
module SyncReplay {
  import opened Outcomes

  /** A signed envelope as received; everything about it is asked of the environment. */
  type Envelope = string

  /** A JSON value with its rendering; `Missing` is undefined or null. */
  datatype Json = Missing | Text(text: string) | Number(text: string, zero: bool) | Other(text: string, truthy: bool)

  predicate Truthy(v: Json) {
    match v
    case Missing => false
    case Text(text) => text != ""
    case Number(_, zero) => !zero
    case Other(_, truthy) => truthy
  }

  predicate IsKey(v: Json) { v.Text? || v.Number? }

  /** A JSON object, split into the fields the replay reads and the rest. */
  datatype Fields = Fields(id: Json, recordId: Json, rest: string)

  const NO_FIELDS := Fields(Missing, Missing, "")

  function OrEmpty(fields: Option<Fields>): Fields { if fields.Some? then fields.value else NO_FIELDS }

  /** A verified mutation; a payload or attributes that are no object are None, and `primaryKey` is
      the attribute under the resource's primary key. */
  datatype Mutation = Mutation(
    model: string, operation: string, policyHash: string, offlineGrantId: string,
    actorDeviceId: string, actorUserId: string,
    command: Option<string>,                            // a non-empty custom command name
    payload: Option<Fields>, attributes: Option<Fields>, primaryKey: Json)

  datatype SyncResource = SyncResource(operations: seq<string>, policyHash: string)

  datatype GrantResource = GrantResource(enabled: bool, operations: seq<string>, policyHash: string)

  datatype Grant = Grant(
    grantId: string, deviceId: string, userId: string, resources: map<string, GrantResource>,
    scopes: Option<string>)                             // None when the scopes are no object

  /** The custom commands a resource registers. */
  datatype CommandResource = CommandResource(collectionCommands: set<string>, memberCommands: set<string>)

  datatype Command = BuiltIn(operation: string) | Collection(name: string) | Member(name: string)

  datatype Refusal =
    | BadEnvelope | NoBackendKey | BadSignature | ModelNotEnabled | OperationNotEnabled | ManifestPolicyMismatch
    | NoGrant | BadGrant | GrantMismatch | DeviceMismatch | UserMismatch
    | GrantDeniesModel | GrantDeniesOperation | GrantPolicyMismatch | BadScopes | IdRequired | CommandNotRegistered

  /** One change of a command response; fields of the wrong type are absent. */
  datatype Change = NotAnObject | Change(
    model: Option<string>, operation: Option<string>, recordId: Json, payload: Option<Fields>, attributes: Option<Fields>)

  datatype Response = Response(status: string, syncChanges: seq<Change>)

  /** A dispatched command returns a payload, is halted by beforeAction, or throws. */
  datatype CommandOutcome = Returned(response: Response) | Halted | Raised

  datatype FeedChange = FeedChange(
    idempotencyKey: string, model: string, operation: string, recordId: Option<string>, actorDeviceId: string, actorUserId: string,
    attributes: Fields, payload: Fields, response: Response, scope: Option<string>)

  datatype FeedEntry = FeedEntry(change: FeedChange, sequence: nat)

  datatype Dispatch = Dispatch(envelope: Envelope, mutation: Mutation, grant: Grant, command: Command, id: Option<Json>)

  datatype World = World(dispatched: seq<Dispatch>, feed: seq<FeedEntry>)

  /** Cryptography, configuration and the outside world as oracles; the effectful ones may answer
      differently in every state.  `prepares` is tenant, connection and ability resolution. */
  datatype Env = Env(
    hasBackendKey: bool,
    idempotencyKey: Envelope -> Option<string>,
    verify: Envelope -> Option<Mutation>,
    manifest: map<string, SyncResource>,
    signedGrant: Envelope -> Option<string>,
    verifyGrant: string -> Option<Grant>,
    commands: map<string, CommandResource>,
    prepares: (World, Mutation) -> bool,
    respond: (World, Dispatch) -> CommandOutcome,
    append: (World, FeedChange) -> Option<nat>)

  const BUILT_IN: set<string> := {"create", "update", "destroy"}

  // ---------------------------------------------------------------- the checks, in order

  /** `frontendSyncReplayValidateOfflineGrant`. */
  function ValidateGrant(m: Mutation, grant: Grant, resource: SyncResource): Option<Refusal> {
    if grant.grantId != m.offlineGrantId then Some(GrantMismatch)
    else if grant.deviceId != m.actorDeviceId then Some(DeviceMismatch)
    else if grant.userId != m.actorUserId then Some(UserMismatch)
    else if m.model !in grant.resources || !grant.resources[m.model].enabled then Some(GrantDeniesModel)
    else if m.operation !in grant.resources[m.model].operations then Some(GrantDeniesOperation)
    else if grant.resources[m.model].policyHash != m.policyHash || grant.resources[m.model].policyHash != resource.policyHash then
      Some(GrantPolicyMismatch)
    else if grant.scopes.None? then Some(BadScopes)
    else None
  }

  /** `frontendSyncReplayCommandForMutation`. */
  function CommandFor(env: Env, m: Mutation): Outcome<Command, Refusal> {
    if m.operation in BUILT_IN then Ok(BuiltIn(m.operation))
    else if m.model !in env.commands then Threw(ModelNotEnabled)
    else
      var name := if m.command.Some? then m.command.value else m.operation;
      if name in env.commands[m.model].collectionCommands then Ok(Collection(name))
      else if name in env.commands[m.model].memberCommands then Ok(Member(name))
      else Threw(CommandNotRegistered)
  }

  /** `commandParams.id || commandParams.recordId || primaryKeyValue`, if it is a string or a number. */
  function CommandId(m: Mutation): Option<Json> {
    var payload := OrEmpty(m.payload);
    var primaryKeyValue := if IsKey(m.primaryKey) then m.primaryKey else Missing;
    var id := if Truthy(payload.id) then payload.id else if Truthy(payload.recordId) then payload.recordId else primaryKeyValue;
    if IsKey(id) then Some(id) else None
  }

  predicate NeedsId(command: Command) {
    command.Member? || (command.BuiltIn? && command.operation != "create")
  }

  /** Everything before the dispatch: the envelope's command, or the refusal it throws. */
  function Authorize(env: Env, envelope: Envelope): Outcome<Dispatch, Refusal> {
    if !env.hasBackendKey then Threw(NoBackendKey)
    else if env.verify(envelope).None? then Threw(BadSignature)
    else
      var m := env.verify(envelope).value;
      if m.model !in env.manifest then Threw(ModelNotEnabled)
      else if m.operation !in env.manifest[m.model].operations then Threw(OperationNotEnabled)
      else if env.manifest[m.model].policyHash != m.policyHash then Threw(ManifestPolicyMismatch)
      else if env.signedGrant(envelope).None? then Threw(NoGrant)
      else if env.verifyGrant(env.signedGrant(envelope).value).None? then Threw(BadGrant)
      else
        var grant := env.verifyGrant(env.signedGrant(envelope).value).value;
        var refusal := ValidateGrant(m, grant, env.manifest[m.model]);
        if refusal.Some? then Threw(refusal.value)
        else
          var command := CommandFor(env, m);
          if command.Threw? then Threw(command.error)
          else if NeedsId(command.value) && CommandId(m).None? then Threw(IdRequired)
          else Ok(Dispatch(envelope, m, grant, command.value, if NeedsId(command.value) then CommandId(m) else None))
  }

  // ---------------------------------------------------------------- who is entitled to what

  /** The grant, as verified, covers the mutation under the manifest's policy. */
  predicate Covers(grant: Grant, m: Mutation, manifest: map<string, SyncResource>) {
    && grant.grantId == m.offlineGrantId && grant.deviceId == m.actorDeviceId && grant.userId == m.actorUserId
    && m.model in manifest && m.operation in manifest[m.model].operations
    && m.model in grant.resources && grant.resources[m.model].enabled && m.operation in grant.resources[m.model].operations
    && manifest[m.model].policyHash == m.policyHash == grant.resources[m.model].policyHash
    && grant.scopes.Some?
  }

  /** The name a custom mutation asks for, on a model that has commands. */
  predicate Custom(env: Env, m: Mutation, name: string) {
    m.operation !in BUILT_IN && m.model in env.commands && name == (if m.command.Some? then m.command.value else m.operation)
  }

  /** An id the command may use: the payload's own, which must be a string or number if it is there
      at all, before the payload's record id, before the primary key among the attributes. */
  predicate Identifies(m: Mutation, id: Json) {
    var payload := OrEmpty(m.payload);
    && IsKey(id)
    && (id == payload.id || !Truthy(payload.id))
    && (Truthy(payload.id) || id == payload.recordId || !Truthy(payload.recordId))
    && (Truthy(payload.id) || Truthy(payload.recordId) || id == m.primaryKey)
  }

  /** The command exists for the mutation, with an id exactly where one is needed. */
  predicate Runs(env: Env, m: Mutation, command: Command, id: Option<Json>) {
    && (match command
        case BuiltIn(operation) => operation == m.operation && operation in BUILT_IN
        case Collection(name) => Custom(env, m, name) && name in env.commands[m.model].collectionCommands
        case Member(name) =>
          && Custom(env, m, name) && name in env.commands[m.model].memberCommands
          && name !in env.commands[m.model].collectionCommands)
    && (NeedsId(command) <==> id.Some?)
    && (id.Some? ==> Identifies(m, id.value))
  }

  /** A dispatch that every verified document agrees on. */
  predicate Entitled(env: Env, d: Dispatch) {
    && env.hasBackendKey && env.verify(d.envelope) == Some(d.mutation)
    && env.signedGrant(d.envelope).Some? && env.verifyGrant(env.signedGrant(d.envelope).value) == Some(d.grant)
    && Covers(d.grant, d.mutation, env.manifest) && Runs(env, d.mutation, d.command, d.id)
  }

  /** The ordered checks let through exactly the entitled dispatches. */
  lemma {:induction false} AuthorizeIffEntitled(env: Env, d: Dispatch)
    ensures Authorize(env, d.envelope) == Ok(d) <==> Entitled(env, d)
  {
    if env.verify(d.envelope) == Some(d.mutation) {
      var m := d.mutation;
      var command := CommandFor(env, m);
      IdIsTheOne(m, d.id);
      assert Runs(env, m, d.command, d.id) <==>
        command == Ok(d.command) && (if NeedsId(d.command) then CommandId(m).Some? && d.id == CommandId(m) else d.id.None?);
    }
  }

  /** The id the fallbacks settle on is the only one that identifies the mutation. */
  lemma {:induction false} IdIsTheOne(m: Mutation, id: Option<Json>)
    ensures id.Some? ==> (Identifies(m, id.value) <==> id == CommandId(m))
  {}

  /** Updates, destroys and member commands carry an id, creates and collection commands none. */
  lemma {:induction false} WhoCarriesAnId(env: Env, d: Dispatch)
    requires Entitled(env, d)
    ensures d.command == BuiltIn("create") || d.command.Collection? ==> d.id.None?
    ensures d.command == BuiltIn("update") || d.command == BuiltIn("destroy") || d.command.Member? ==> d.id.Some? && d.id == CommandId(d.mutation)
    ensures d.command.BuiltIn? ==> d.command.operation == d.mutation.operation
  {
    IdIsTheOne(d.mutation, d.id);
    assert "update" != "create" by { assert "update"[0] != "create"[0]; }
    assert "destroy" != "create" by { assert "destroy"[0] != "create"[0]; }
  }

  /** A missing, empty or zero id falls back to the record id and then to the primary key; a present id
      of another type is not fallen back from. */
  lemma {:induction false} IdFallsBack(m: Mutation, payload: Fields)
    requires m.payload == Some(payload)
    ensures payload.id.Text? && payload.id.text != "" ==> CommandId(m) == Some(payload.id)
    ensures payload.id.Number? && !payload.id.zero ==> CommandId(m) == Some(payload.id)
    ensures payload.id.Other? && payload.id.truthy ==> CommandId(m).None?
    ensures payload.id.Missing? || payload.id == Text("") || (payload.id.Number? && payload.id.zero) ==>
      && (payload.recordId.Text? && payload.recordId.text != "" ==> CommandId(m) == Some(payload.recordId))
      && (payload.recordId.Missing? || payload.recordId == Text("") ==>
            CommandId(m) == if m.primaryKey.Text? || m.primaryKey.Number? then Some(m.primaryKey) else None)
  {
  }

  // ---------------------------------------------------------------- one mutation

  datatype Result =
    | Failure(attemptedKey: Option<string>, refusal: Refusal)
    | Success(idempotencyKey: string, response: Response, feedError: bool, serverSequence: Option<nat>)

  const ERROR_RESPONSE := Response("error", [])

  /** `a ?? b`. */
  function OrElse(a: Json, b: Json): Json { if a.Missing? then b else a }

  function Rendered(v: Json): Option<string> { if v.Missing? then None else Some(v.text) }

  function FeedChangeFor(key: string, m: Mutation, grant: Grant, response: Response, change: Change): FeedChange
    requires change.Change?
  {
    var payload, attributes := OrEmpty(change.payload), OrEmpty(change.attributes);
    FeedChange(key,
      if change.model.Some? && change.model.value != "" then change.model.value else m.model,
      if change.operation.Some? && change.operation.value != "" then change.operation.value else m.operation,
      Rendered(OrElse(change.recordId, OrElse(payload.id, OrElse(payload.recordId, attributes.id)))),
      m.actorDeviceId, m.actorUserId, attributes, payload, response, grant.scopes)
  }

  /** A response without changes stands for the mutation itself. */
  function ChangesOf(m: Mutation, response: Response): seq<Change> {
    if |response.syncChanges| > 0 then response.syncChanges
    else [Change(Some(m.model), Some(m.operation), Missing, m.payload, m.attributes)]
  }

  class Replay {
    const env: Env
    var dispatched: seq<Dispatch>
    var feed: seq<FeedEntry>

    constructor (env: Env)
      ensures this.env == env && dispatched == [] && feed == []
    {
      this.env, dispatched, feed := env, [], [];
    }

    function Now(): World
      reads this
    {
      World(dispatched, feed)
    }

    /** Appends the changes of a successful response; stops at the first append that throws. */
    method AppendServerChange(key: string, m: Mutation, grant: Grant, response: Response) returns (sequence: Outcome<Option<nat>, ()>)
      modifies this`feed
      ensures |old(feed)| <= |feed| && feed[..|old(feed)|] == old(feed)
      ensures response.status != "success" ==> feed == old(feed) && sequence == Ok(None)
      ensures Feeds(key, m, grant, response, ChangesOf(m, response), feed[|old(feed)|..], sequence.Ok?) || response.status != "success"
      ensures sequence.Ok? ==>
        sequence.value == if |feed| == |old(feed)| then None else Some(feed[|feed| - 1].sequence)
    {
      if response.status != "success" { return Ok(None); }
      hide Feeds, ValidChanges, FeedChangeFor;
      var changes := ChangesOf(m, response);
      var last: Option<nat> := None;
      ghost var appended: seq<FeedEntry> := [];
      FeedsNothing(key, m, grant, response);
      for k := 0 to |changes|
        invariant feed == old(feed) + appended
        invariant Feeds(key, m, grant, response, changes[..k], appended, true)
        invariant last == if |appended| == 0 then None else Some(feed[|feed| - 1].sequence)
      {
        var change := changes[k];
        if change.NotAnObject? {
          FeedsSkip(key, m, grant, response, changes, k, appended);
        } else {
          var feedChange := FeedChangeFor(key, m, grant, response, change);
          var number := env.append(Now(), feedChange);
          if number.None? {
            FeedsStop(key, m, grant, response, changes, k, appended);
            return Threw(());
          }
          var entry := FeedEntry(feedChange, number.value);
          FeedsOneMore(key, m, grant, response, changes, k, appended, entry);
          feed, appended := feed + [entry], appended + [entry];
          last := Some(number.value);
        }
      }
      assert changes[..|changes|] == changes;
      return Ok(last);
    }

    /** `frontendSyncReplaySignedMutation`: throws only before anything was dispatched. */
    method ReplaySignedMutation(key: string, envelope: Envelope) returns (result: Outcome<Result, Refusal>)
      modifies this
      ensures Step(env, old(Now()), Now(), key, envelope, result)
    {
      var authorized := Authorize(env, envelope);
      if authorized.Threw? { return Threw(authorized.error); }
      var d := authorized.value;
      if !env.prepares(Now(), d.mutation) { return Ok(Success(key, ERROR_RESPONSE, false, None)); }
      var outcome := env.respond(Now(), d);
      dispatched := dispatched + [d];
      if outcome.Raised? { return Ok(Success(key, ERROR_RESPONSE, false, None)); }
      var response := if outcome.Returned? then outcome.response else ERROR_RESPONSE;
      var appended := AppendServerChange(key, d.mutation, d.grant, response);
      assert feed[|old(feed)|..] == feed[|old(feed)|..];
      return Ok(Success(key, response, appended.Threw?, if appended.Ok? then appended.value else None));
    }

    /** One result per mutation, in order; `worlds` are the states between the mutations. */
    method FrontendSyncReplay(envelopes: seq<Envelope>) returns (results: seq<Result>, ghost worlds: seq<World>)
      modifies this
      ensures |results| == |envelopes| && |worlds| == |envelopes| + 1
      ensures worlds[0] == old(Now()) && worlds[|envelopes|] == Now()
      ensures forall i :: 0 <= i < |envelopes| ==> Replayed(env, worlds[i], worlds[i + 1], envelopes[i], results[i])
      ensures forall d :: d in dispatched && d !in old(dispatched) ==> Entitled(env, d) && d.envelope in envelopes
    {
      results, worlds := [], [Now()];
      for k := 0 to |envelopes|
        invariant |results| == k && |worlds| == k + 1 && worlds[0] == old(Now()) && worlds[k] == Now()
        invariant forall i :: 0 <= i < k ==> Replayed(env, worlds[i], worlds[i + 1], envelopes[i], results[i])
        invariant forall d :: d in dispatched && d !in old(dispatched) ==> Entitled(env, d) && d.envelope in envelopes
      {
        hide Step, Entitled;
        ghost var before := Now();
        var key := env.idempotencyKey(envelopes[k]);
        if key.None? {
          results := results + [Failure(None, BadEnvelope)];
        } else {
          var result := ReplaySignedMutation(key.value, envelopes[k]);
          StepIsEntitled(env, before, Now(), key.value, envelopes[k], result);
          results := results + [if result.Ok? then result.value else Failure(key, result.error)];
        }
        worlds := worlds + [Now()];
      }
    }
  }

  // ---------------------------------------------------------------- what a step may do

  function ValidChanges(changes: seq<Change>): seq<Change> {
    if changes == [] then [] else ValidChange(changes[0]) + ValidChanges(changes[1..])
  }

  function ValidChange(change: Change): seq<Change> {
    if change.Change? then [change] else []
  }

  lemma {:induction false} ValidCons(change: Change, rest: seq<Change>)
    ensures ValidChanges([change] + rest) == ValidChange(change) + ValidChanges(rest)
  {
    assert ([change] + rest)[1..] == rest;
  }

  lemma {:induction false} ValidOfConcat(a: seq<Change>, b: seq<Change>)
    ensures ValidChanges(a + b) == ValidChanges(a) + ValidChanges(b)
  {
    if a == [] {
      assert a + b == b;
    } else {
      hide *;
      var first, rest := a[0], a[1..];
      assert a == [first] + rest && a + b == [first] + (rest + b);
      ValidCons(first, rest);
      ValidCons(first, rest + b);
      ValidOfConcat(rest, b);
    }
  }

  /** The feed entries are those of the valid changes, in order: all of them, or a proper prefix
      when an append threw. */
  ghost predicate Feeds(key: string, m: Mutation, grant: Grant, response: Response, changes: seq<Change>, entries: seq<FeedEntry>, all: bool) {
    var valid := ValidChanges(changes);
    && (if all then |entries| == |valid| else |entries| < |valid|)
    && forall i :: 0 <= i < |entries| && i < |valid| ==> valid[i].Change? && entries[i].change == FeedChangeFor(key, m, grant, response, valid[i])
  }

  lemma {:induction false} FeedsNothing(key: string, m: Mutation, grant: Grant, response: Response)
    ensures Feeds(key, m, grant, response, [], [], true)
  {
  }

  lemma {:induction false} FeedsSkip(key: string, m: Mutation, grant: Grant, response: Response, changes: seq<Change>, k: nat, entries: seq<FeedEntry>)
    requires k < |changes| && changes[k].NotAnObject? && Feeds(key, m, grant, response, changes[..k], entries, true)
    ensures Feeds(key, m, grant, response, changes[..k + 1], entries, true)
  {
    assert changes[..k + 1] == changes[..k] + [changes[k]];
    ValidOfConcat(changes[..k], [changes[k]]);
  }

  lemma {:induction false} FeedsOneMore(key: string, m: Mutation, grant: Grant, response: Response, changes: seq<Change>, k: nat, entries: seq<FeedEntry>, entry: FeedEntry)
    requires k < |changes| && changes[k].Change? && Feeds(key, m, grant, response, changes[..k], entries, true)
    requires entry.change == FeedChangeFor(key, m, grant, response, changes[k])
    ensures Feeds(key, m, grant, response, changes[..k + 1], entries + [entry], true)
  {
    assert changes[..k + 1] == changes[..k] + [changes[k]];
    ValidOfConcat(changes[..k], [changes[k]]);
  }

  lemma {:induction false} FeedsStop(key: string, m: Mutation, grant: Grant, response: Response, changes: seq<Change>, k: nat, entries: seq<FeedEntry>)
    requires k < |changes| && changes[k].Change? && Feeds(key, m, grant, response, changes[..k], entries, true)
    ensures Feeds(key, m, grant, response, changes, entries, false)
  {
    ValidOfConcat(changes[..k], changes[k..]);
    assert changes[..k] + changes[k..] == changes;
  }

  /** The answer of the command, or the error payload when it was halted, threw or was not reached. */
  function Answer(env: Env, before: World, d: Dispatch): Response {
    if env.prepares(before, d.mutation) && env.respond(before, d).Returned? then env.respond(before, d).response else ERROR_RESPONSE
  }

  /** What replaying one envelope may do to the world, and what it reports. */
  ghost predicate Step(env: Env, before: World, after: World, key: string, envelope: Envelope, result: Outcome<Result, Refusal>) {
    match result
    case Threw(refusal) => Authorize(env, envelope) == Threw(refusal) && after == before
    case Ok(Failure(_, _)) => false
    case Ok(Success(k, response, feedError, sequence)) =>
      && k == key && Authorize(env, envelope).Ok?
      && var d := Authorize(env, envelope).value;
         && (after.dispatched == before.dispatched || after.dispatched == before.dispatched + [d])
         && (after.dispatched != before.dispatched <==> env.prepares(before, d.mutation))
         && response == Answer(env, before, d)
         && |before.feed| <= |after.feed| && after.feed[..|before.feed|] == before.feed
         && (after.feed != before.feed || feedError ==> after.dispatched != before.dispatched && response.status == "success")
         && (after.dispatched != before.dispatched && response.status == "success" ==>
               Feeds(key, d.mutation, d.grant, response, ChangesOf(d.mutation, response), after.feed[|before.feed|..], !feedError))
         && sequence == (if feedError || |after.feed| == |before.feed| then None else Some(after.feed[|after.feed| - 1].sequence))
  }

  /** A reported error left the world alone, and means that no dispatch of the envelope is
      entitled (or that it has no idempotency key); otherwise the step is reported as it was. */
  ghost predicate Replayed(env: Env, before: World, after: World, envelope: Envelope, result: Result) {
    match result
    case Failure(key, _) =>
      && after == before && key == env.idempotencyKey(envelope)
      && (key.Some? ==> forall d :: Entitled(env, d) ==> d.envelope != envelope)
    case Success(key, _, _, _) =>
      Some(key) == env.idempotencyKey(envelope) && Step(env, before, after, key, envelope, Ok(result))
  }

  /** Only entitled dispatches are added, and a refusal adds nothing at all. */
  lemma {:induction false} StepIsEntitled(env: Env, before: World, after: World, key: string, envelope: Envelope, result: Outcome<Result, Refusal>)
    requires Step(env, before, after, key, envelope, result)
    ensures result.Threw? ==> after == before && forall d :: Entitled(env, d) ==> d.envelope != envelope
    ensures result.Ok? ==> result.value.Success? && result.value.idempotencyKey == key
    ensures |after.dispatched| <= |before.dispatched| + 1
    ensures forall d :: d in after.dispatched && d !in before.dispatched ==> Entitled(env, d) && d.envelope == envelope
  {
    if result.Ok? {
      AuthorizeIffEntitled(env, Authorize(env, envelope).value);
    } else {
      forall d | Entitled(env, d) ensures d.envelope != envelope { AuthorizeIffEntitled(env, d); }
    }
  }

  // ---------------------------------------------------------------- what reaches the feed

  function Appended(before: World, after: World): seq<FeedEntry>
    requires |before.feed| <= |after.feed|
  {
    after.feed[|before.feed|..]
  }

  /** A command that ran and returned is reported with its own response; if that is a success and the
      feed takes every change, each valid change has become one entry, and the last is reported. */
  lemma {:induction false} ReturnedIsReportedAndFed(env: Env, before: World, after: World, d: Dispatch, result: Result)
    requires Replayed(env, before, after, d.envelope, result) && Entitled(env, d)
    requires env.prepares(before, d.mutation) && env.respond(before, d).Returned? && env.idempotencyKey(d.envelope).Some?
    ensures var response := env.respond(before, d).response;
      && result.Success? && result.response == response && after.dispatched == before.dispatched + [d]
      && |before.feed| <= |after.feed|
      && (response.status != "success" ==> after.feed == before.feed && result.serverSequence.None? && !result.feedError)
      && (response.status == "success" && !result.feedError ==>
            && |Appended(before, after)| == |ValidChanges(ChangesOf(d.mutation, response))|
            && (Appended(before, after) != [] ==> result.serverSequence == Some(after.feed[|after.feed| - 1].sequence)))
  {
    AuthorizeIffEntitled(env, d);
    assert after.feed[..|before.feed|] == before.feed;
  }

  /** A command that was halted or threw is reported with the error payload and feeds nothing. */
  lemma {:induction false} HaltedOrRaisedFeedsNothing(env: Env, before: World, after: World, d: Dispatch, result: Result)
    requires Replayed(env, before, after, d.envelope, result) && Entitled(env, d)
    requires env.prepares(before, d.mutation) && !env.respond(before, d).Returned? && env.idempotencyKey(d.envelope).Some?
    ensures result.Success? && result.response == ERROR_RESPONSE && after.dispatched == before.dispatched + [d] && after.feed == before.feed
  {
    AuthorizeIffEntitled(env, d);
  }

  /** Every entry a replay appends is under the envelope's key, for the device and user the grant was
      given to, in the grant's scope, with the response the command returned. */
  lemma {:induction false} EntriesBelongToTheGrant(env: Env, before: World, after: World, d: Dispatch, result: Result, entry: FeedEntry)
    requires Replayed(env, before, after, d.envelope, result) && Entitled(env, d) && |before.feed| <= |after.feed|
    requires entry in Appended(before, after)
    ensures result.Success? && Some(entry.change.idempotencyKey) == env.idempotencyKey(d.envelope)
    ensures entry.change.actorDeviceId == d.grant.deviceId && entry.change.actorUserId == d.grant.userId
    ensures entry.change.scope == d.grant.scopes && entry.change.response == result.response
  {
    AuthorizeIffEntitled(env, d);
    var i :| 0 <= i < |Appended(before, after)| && Appended(before, after)[i] == entry;
    assert after.feed != before.feed;
  }

  /** A successful response without changes feeds the mutation itself: its model, operation,
      attributes and payload, under the first id the payload or the attributes have. */
  lemma {:induction false} MutationItselfIsFed(key: string, m: Mutation, grant: Grant, response: Response, entries: seq<FeedEntry>)
    requires response.syncChanges == [] && m.model != "" && m.operation != ""
    requires Feeds(key, m, grant, response, ChangesOf(m, response), entries, true)
    ensures |entries| == 1
    ensures var change := entries[0].change;
      && change.model == m.model && change.operation == m.operation
      && (m.attributes.Some? ==> change.attributes == m.attributes.value)
      && (m.payload.Some? ==> change.payload == m.payload.value)
      && (m.payload.Some? && !m.payload.value.id.Missing? ==> change.recordId == Some(m.payload.value.id.text))
      && (m.payload.Some? && m.payload.value.id.Missing? && !m.payload.value.recordId.Missing? ==>
            change.recordId == Some(m.payload.value.recordId.text))
      && ((m.payload.Some? ==> m.payload.value.id.Missing? && m.payload.value.recordId.Missing?) ==>
            change.recordId == if m.attributes.Some? && !m.attributes.value.id.Missing? then Some(m.attributes.value.id.text) else None)
  {
    var change := ChangesOf(m, response)[0];
    assert ChangesOf(m, response)[1..] == [];
    assert ValidChanges(ChangesOf(m, response)) == [change];
  }

  /** A change of the response is fed as it is: its own fields before those of the mutation. */
  lemma {:induction false} ChangeIsFedAsItIs(key: string, m: Mutation, grant: Grant, response: Response, entries: seq<FeedEntry>, i: nat)
    requires Feeds(key, m, grant, response, response.syncChanges, entries, true) && i < |entries|
    ensures |entries| == |ValidChanges(response.syncChanges)|
    ensures var change := ValidChanges(response.syncChanges)[i];
      && change.Change?
      && (change.model.Some? && change.model.value != "" ==> entries[i].change.model == change.model.value)
      && (change.operation.Some? && change.operation.value != "" ==> entries[i].change.operation == change.operation.value)
      && (change.attributes.Some? ==> entries[i].change.attributes == change.attributes.value)
      && (change.payload.Some? ==> entries[i].change.payload == change.payload.value)
      && (!change.recordId.Missing? ==> entries[i].change.recordId == Some(change.recordId.text))
  {
    hide ValidChanges;
  }
}

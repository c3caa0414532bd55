/**
 * Local channel broadcasts: fire-and-forget deliveries, the set that tracks them, and the
 * snapshot barrier that drains them.
 */
module Broadcasts {
  import opened Outcomes

  // `matches` answers for the broadcast parameters, or throws.
  datatype Subscription = Subscription(id: nat, closed: bool, matches: string -> Outcome<bool, string>)

  // A settled delivery stays tracked until the reaction that removes it has run.
  datatype Phase = Running | Settled | Untracked

  datatype Delivery = Delivery(to: nat, body: string, phase: Phase)

  datatype Barrier = Barrier(launchedBefore: nat, snapshot: set<nat>, returned: bool)

  datatype State = State(deliveries: seq<Delivery>, tracked: set<nat>, barriers: seq<Barrier>)

  // Deliveries and barriers are named by their position.
  datatype Event =
    | Broadcast(bucket: seq<Subscription>, params: string, body: string)
    | Settle(delivery: nat)
    | React(delivery: nat)
    | Await
    | Return(barrier: nat)

  const INITIAL := State([], {}, [])

  function Selected(s: Subscription, params: string): bool {
    !s.closed && s.matches(params) == Ok(true)
  }

  function Chosen(s: Subscription, params: string): seq<nat> {
    if Selected(s, params) then [s.id] else []
  }

  /** The ids a broadcast delivers to, in the order of the bucket. */
  function Recipients(bucket: seq<Subscription>, params: string): seq<nat> {
    if bucket == [] then [] else Chosen(bucket[0], params) + Recipients(bucket[1..], params)
  }

  function Launch(s: State, to: nat, body: string): State {
    s.(deliveries := s.deliveries + [Delivery(to, body, Running)], tracked := s.tracked + {|s.deliveries|})
  }

  function LaunchAll(s: State, ids: seq<nat>, body: string): State
    decreases |ids|
  {
    if ids == [] then s else LaunchAll(Launch(s, ids[0], body), ids[1..], body)
  }

  predicate CanReturn(s: State, barrier: Barrier) {
    forall k <- barrier.snapshot :: k < |s.deliveries| && !s.deliveries[k].phase.Running?
  }

  function Step(s: State, e: Event): State {
    match e
    case Broadcast(bucket, params, body) => LaunchAll(s, Recipients(bucket, params), body)
    case Settle(k) =>
      if k < |s.deliveries| && s.deliveries[k].phase.Running? then s.(deliveries := s.deliveries[k := s.deliveries[k].(phase := Settled)])
      else s
    case React(k) =>
      if k < |s.deliveries| && s.deliveries[k].phase.Settled? then
        s.(deliveries := s.deliveries[k := s.deliveries[k].(phase := Untracked)], tracked := s.tracked - {k})
      else s
    case Await => s.(barriers := s.barriers + [Barrier(|s.deliveries|, s.tracked, false)])
    case Return(b) =>
      if b < |s.barriers| && CanReturn(s, s.barriers[b]) then s.(barriers := s.barriers[b := s.barriers[b].(returned := true)])
      else s
  }

  function Run(s: State, events: seq<Event>): State
    decreases |events|
  {
    if events == [] then s else Run(Step(s, events[0]), events[1..])
  }

  // ---- Who is delivered to -----------------------------------------------------------

  lemma {:induction false} RecipientsCons(s: Subscription, rest: seq<Subscription>, params: string)
    ensures Recipients([s] + rest, params) == Chosen(s, params) + Recipients(rest, params)
  {
    assert ([s] + rest)[1..] == rest;
  }

  lemma {:induction false} RecipientsConcat(a: seq<Subscription>, b: seq<Subscription>, params: string)
    ensures Recipients(a + b, params) == Recipients(a, params) + Recipients(b, params)
  {
    if a == [] {
      assert a + b == b;
    } else {
      hide Recipients, Chosen;
      var first, rest := a[0], a[1..];
      assert a == [first] + rest && a + b == [first] + (rest + b);
      RecipientsCons(first, rest, params);
      RecipientsCons(first, rest + b, params);
      RecipientsConcat(rest, b, params);
    }
  }

  /** A subscription that is closed, throws or does not match changes nothing for the others. */
  lemma {:induction false} BrokenMatchesAffectsOnlyItself(before: seq<Subscription>, s: Subscription, after: seq<Subscription>, params: string)
    ensures Recipients(before + [s] + after, params)
            == if s.closed || s.matches(params) != Ok(true) then Recipients(before + after, params)
               else Recipients(before, params) + [s.id] + Recipients(after, params)
  {
    assert Recipients([s], params) == Chosen(s, params) + Recipients([], params);
    RecipientsConcat(before + [s], after, params);
    RecipientsConcat(before, [s], params);
    RecipientsConcat(before, after, params);
  }

  lemma {:induction false} RecipientsCome(bucket: seq<Subscription>, params: string, id: nat)
    ensures id in Recipients(bucket, params) <==> exists i :: 0 <= i < |bucket| && bucket[i].id == id && Selected(bucket[i], params)
  {
    if bucket != [] {
      RecipientsCome(bucket[1..], params, id);
      if i :| 1 <= i < |bucket| && bucket[i].id == id && Selected(bucket[i], params) {
        assert bucket[1..][i - 1] == bucket[i];
      }
    }
  }

  /** Each open subscription that matches gets exactly one delivery, every other gets none. */
  lemma {:induction false} OneDeliveryEach(bucket: seq<Subscription>, params: string, i: nat)
    requires i < |bucket|
    requires forall j, k :: 0 <= j < k < |bucket| ==> bucket[j].id != bucket[k].id
    ensures multiset(Recipients(bucket, params))[bucket[i].id] == if Selected(bucket[i], params) then 1 else 0
  {
    var rest := Recipients(bucket[1..], params);
    var head := Chosen(bucket[0], params);
    assert multiset(head + rest) == multiset(head) + multiset(rest);
    RecipientsCome(bucket[1..], params, bucket[0].id);
    if i > 0 {
      assert bucket[1..][i - 1] == bucket[i];
      OneDeliveryEach(bucket[1..], params, i - 1);
    }
  }

  // ---- Invariants over every run -------------------------------------------------------

  ghost predicate Inv(s: State) {
    && (forall k: nat :: k in s.tracked <==> k < |s.deliveries| && !s.deliveries[k].phase.Untracked?)
    && (forall b <- s.barriers ::
          && b.launchedBefore <= |s.deliveries|
          && (forall k <- b.snapshot :: k < b.launchedBefore)
          && (forall k: nat :: k < b.launchedBefore && k !in b.snapshot ==> !s.deliveries[k].phase.Running?)
          && (b.returned ==> CanReturn(s, b)))
  }

  lemma {:induction false} LaunchAllKeepsInv(s: State, ids: seq<nat>, body: string)
    requires Inv(s)
    ensures Inv(LaunchAll(s, ids, body))
    decreases |ids|
  {
    if ids != [] { LaunchAllKeepsInv(Launch(s, ids[0], body), ids[1..], body); }
  }

  lemma {:induction false} StepKeepsInv(s: State, e: Event)
    requires Inv(s)
    ensures Inv(Step(s, e))
  {
    if e.Broadcast? { LaunchAllKeepsInv(s, Recipients(e.bucket, e.params), e.body); }
  }

  lemma {:induction false} RunKeepsInv(s: State, events: seq<Event>)
    requires Inv(s)
    ensures Inv(Run(s, events))
    decreases |events|
  {
    if events != [] {
      StepKeepsInv(s, events[0]);
      RunKeepsInv(Step(s, events[0]), events[1..]);
    }
  }

  /** Every launched delivery is tracked or settled; it is untracked only once settled. */
  lemma {:induction false} TrackedOrSettled(events: seq<Event>, k: nat)
    requires k < |Run(INITIAL, events).deliveries|
    ensures var s := Run(INITIAL, events);
            (k in s.tracked || !s.deliveries[k].phase.Running?)
            && (k in s.tracked <==> !s.deliveries[k].phase.Untracked?)
  {
    RunKeepsInv(INITIAL, events);
  }

  /**
   * A barrier can return exactly when every delivery launched before its snapshot has
   * settled: it misses none of them, and waits for none launched later.
   */
  lemma {:induction false} BarrierWaitsForExactlyTheEarlier(events: seq<Event>, b: nat)
    requires b < |Run(INITIAL, events).barriers|
    ensures var s := Run(INITIAL, events);
            var barrier := s.barriers[b];
            barrier.launchedBefore <= |s.deliveries|
            && (CanReturn(s, barrier) <==> forall k: nat :: k < barrier.launchedBefore ==> !s.deliveries[k].phase.Running?)
            && (barrier.returned ==> forall k: nat :: k < barrier.launchedBefore ==> !s.deliveries[k].phase.Running?)
  {
    RunKeepsInv(INITIAL, events);
    var s := Run(INITIAL, events);
    assert s.barriers[b] in s.barriers;
  }

  /** The deliveries a run of broadcasts asks for. */
  function Asked(events: seq<Event>): seq<(nat, string)>
    decreases |events|
  {
    if events == [] then [] else AskedBy(events[0]) + Asked(events[1..])
  }

  function AskedBy(e: Event): seq<(nat, string)> {
    if e.Broadcast? then Addressed(Recipients(e.bucket, e.params), e.body) else []
  }

  function Addressed(ids: seq<nat>, body: string): seq<(nat, string)> {
    seq(|ids|, i requires 0 <= i < |ids| => (ids[i], body))
  }

  function Launched(s: State): seq<(nat, string)> {
    seq(|s.deliveries|, i requires 0 <= i < |s.deliveries| => (s.deliveries[i].to, s.deliveries[i].body))
  }

  lemma {:induction false} LaunchAllLaunches(s: State, ids: seq<nat>, body: string)
    ensures Launched(LaunchAll(s, ids, body)) == Launched(s) + Addressed(ids, body)
    decreases |ids|
  {
    if ids != [] {
      var one := Launch(s, ids[0], body);
      LaunchAllLaunches(one, ids[1..], body);
      assert Launched(one) == Launched(s) + [(ids[0], body)];
      assert Addressed(ids, body) == [(ids[0], body)] + Addressed(ids[1..], body);
    }
  }

  /** Over every run, the launched deliveries are exactly those the broadcasts select, in order. */
  lemma {:induction false} EveryBroadcastLaunchesItsRecipients(s: State, events: seq<Event>)
    ensures Launched(Run(s, events)) == Launched(s) + Asked(events)
    decreases |events|
  {
    if events != [] {
      hide Launched, AskedBy, Step;
      var e := events[0];
      StepLaunches(s, e);
      EveryBroadcastLaunchesItsRecipients(Step(s, e), events[1..]);
      Associates(Launched(s), AskedBy(e), Asked(events[1..]));
    } else {
      assert Launched(s) + [] == Launched(s);
    }
  }

  lemma {:induction false} Associates(a: seq<(nat, string)>, b: seq<(nat, string)>, c: seq<(nat, string)>)
    ensures (a + b) + c == a + (b + c)
  {}

  lemma {:induction false} StepLaunches(s: State, e: Event)
    ensures Launched(Step(s, e)) == Launched(s) + AskedBy(e)
  {
    if e.Broadcast? {
      LaunchAllLaunches(s, Recipients(e.bucket, e.params), e.body);
    } else {
      assert Launched(Step(s, e)) == Launched(s);
    }
  }

  // ---- What each event brings about -----------------------------------------------------------

  function PhaseOf(s: State, k: nat): Option<Phase> { if k < |s.deliveries| then Some(s.deliveries[k].phase) else None }

  /** A running delivery settles, and its reaction then takes it, and nothing else, off the set. */
  lemma {:induction false} SettledDeliveryIsUntracked(events: seq<Event>, k: nat)
    requires PhaseOf(Run(INITIAL, events), k) == Some(Running)
    ensures var s := Run(INITIAL, events);
      var settled := Step(s, Settle(k));
      && PhaseOf(settled, k) == Some(Settled) && settled.tracked == s.tracked
      && Step(settled, React(k)).tracked == s.tracked - {k}
  {
    RunKeepsInv(INITIAL, events);
  }

  lemma {:induction false} DeliveriesGrow(s: State, events: seq<Event>)
    requires Inv(s)
    ensures Inv(Run(s, events)) && |s.deliveries| <= |Run(s, events).deliveries|
    ensures |s.barriers| <= |Run(s, events).barriers|
    ensures forall b: nat :: b < |s.barriers| ==>
      Run(s, events).barriers[b].launchedBefore == s.barriers[b].launchedBefore && Run(s, events).barriers[b].snapshot == s.barriers[b].snapshot
    decreases |events|
  {
    if events != [] {
      StepKeepsInv(s, events[0]);
      StepGrows(s, events[0]);
      DeliveriesGrow(Step(s, events[0]), events[1..]);
    }
  }

  lemma {:induction false} StepGrows(s: State, e: Event)
    ensures var t := Step(s, e);
      && |s.deliveries| <= |t.deliveries| && |s.barriers| <= |t.barriers|
      && forall b: nat :: b < |s.barriers| ==>
           t.barriers[b].launchedBefore == s.barriers[b].launchedBefore && t.barriers[b].snapshot == s.barriers[b].snapshot
  {
    if e.Broadcast? { LaunchAllGrows(s, Recipients(e.bucket, e.params), e.body); }
  }

  lemma {:induction false} LaunchAllGrows(s: State, ids: seq<nat>, body: string)
    ensures |LaunchAll(s, ids, body).deliveries| >= |s.deliveries| && LaunchAll(s, ids, body).barriers == s.barriers
    decreases |ids|
  {
    if ids != [] { LaunchAllGrows(Launch(s, ids[0], body), ids[1..], body); }
  }

  /** A barrier awaited now returns, at any later moment, exactly if all deliveries that exist now
      have settled by then. */
  lemma {:induction false} BarrierReturnsIffEarlierSettled(events: seq<Event>, later: seq<Event>)
    ensures var s := Run(INITIAL, events);
      var b, now := |s.barriers|, |s.deliveries|;
      var t := Run(Step(s, Await), later);
      && b < |t.barriers| && now <= |t.deliveries|
      && (Step(t, Return(b)).barriers[b].returned <==> forall k: nat :: k < now ==> !t.deliveries[k].phase.Running?)
  {
    var s := Run(INITIAL, events);
    RunKeepsInv(INITIAL, events);
    StepKeepsInv(s, Await);
    var s1 := Step(s, Await);
    DeliveriesGrow(s1, later);
    var t := Run(s1, later);
    assert s1.barriers[|s.barriers|].launchedBefore == |s.deliveries|;
    assert t.barriers[|s.barriers|] in t.barriers;
  }

  // ---- The configuration's methods ---------------------------------------------------------

  class LocalBroadcasts {
    var websocketChannelSubscriptions: map<string, seq<Subscription>>
    var localBroadcastDeliveries: set<nat>
    // The runtime: every delivery promise ever made, and the barriers awaiting some of them.
    var deliveries: seq<Delivery>
    var barriers: seq<Barrier>

    constructor ()
      ensures Contents() == INITIAL && websocketChannelSubscriptions == map[]
    {
      websocketChannelSubscriptions, localBroadcastDeliveries, deliveries, barriers := map[], {}, [], [];
    }

    ghost function Contents(): State
      reads this
    {
      State(deliveries, localBroadcastDeliveries, barriers)
    }

    method BroadcastToChannelLocal(name: string, params: string, body: string)
      requires Inv(Contents())
      modifies this`deliveries, this`localBroadcastDeliveries
      ensures var bucket := if name in websocketChannelSubscriptions then websocketChannelSubscriptions[name] else [];
              Contents() == Step(old(Contents()), Broadcast(bucket, params, body))
      ensures Inv(Contents())
    {
      if name !in websocketChannelSubscriptions { return; }
      var bucket := websocketChannelSubscriptions[name];
      ghost var all := LaunchAll(Contents(), Recipients(bucket, params), body);
      LaunchAllKeepsInv(Contents(), Recipients(bucket, params), body);
      for k := 0 to |bucket|
        invariant all == LaunchAll(Contents(), Recipients(bucket[k..], params), body)
        invariant barriers == old(barriers)
      {
        assert bucket[k..][0] == bucket[k] && bucket[k..][1..] == bucket[k + 1..];
        var subscription := bucket[k];
        ghost var rest := Recipients(bucket[k + 1..], params);
        assert Recipients(bucket[k..], params) == Chosen(subscription, params) + rest;
        assert [] + rest == rest;
        if subscription.closed { continue; }
        var matches := subscription.matches(params);
        if matches.Threw? { continue; }
        if !matches.value { continue; }
        assert ([subscription.id] + rest)[1..] == rest;
        var delivery := |deliveries|;
        deliveries := deliveries + [Delivery(subscription.id, body, Running)];
        localBroadcastDeliveries := localBroadcastDeliveries + {delivery};
      }
    }

    method DeliverySettles(delivery: nat)
      requires Inv(Contents()) && delivery < |deliveries| && deliveries[delivery].phase.Running?
      modifies this`deliveries
      ensures Inv(Contents()) && Contents() == Step(old(Contents()), Settle(delivery))
    {
      StepKeepsInv(Contents(), Settle(delivery));
      deliveries := deliveries[delivery := deliveries[delivery].(phase := Settled)];
    }

    method UntrackReaction(delivery: nat)
      requires Inv(Contents()) && delivery < |deliveries| && deliveries[delivery].phase.Settled?
      modifies this`deliveries, this`localBroadcastDeliveries
      ensures Inv(Contents()) && Contents() == Step(old(Contents()), React(delivery))
    {
      StepKeepsInv(Contents(), React(delivery));
      localBroadcastDeliveries := localBroadcastDeliveries - {delivery};
      deliveries := deliveries[delivery := deliveries[delivery].(phase := Untracked)];
    }

    method AwaitLocalBroadcastDeliveries() returns (barrier: nat)
      requires Inv(Contents())
      modifies this`barriers
      ensures Inv(Contents()) && Contents() == Step(old(Contents()), Await)
      ensures barrier == |old(barriers)| && barriers[barrier].snapshot == localBroadcastDeliveries
    {
      StepKeepsInv(Contents(), Await);
      barrier := |barriers|;
      barriers := barriers + [Barrier(|deliveries|, localBroadcastDeliveries, false)];
    }

    method AllSnapshotSettled(barrier: nat)
      requires Inv(Contents()) && barrier < |barriers| && CanReturn(Contents(), barriers[barrier])
      modifies this`barriers
      ensures Inv(Contents()) && Contents() == Step(old(Contents()), Return(barrier))
      ensures forall k: nat :: k < barriers[barrier].launchedBefore ==> k < |deliveries| && !deliveries[k].phase.Running?
    {
      StepKeepsInv(Contents(), Return(barrier));
      assert barriers[barrier] in barriers;
      barriers := barriers[barrier := barriers[barrier].(returned := true)];
    }
  }
}

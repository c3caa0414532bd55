/**
 * Paused websocket sessions: the registry, its grace timers, and their history.
 *
 * A timer callback finds its session by session id, not by timer, so that an old timer never
 * ends a newer pause is a property of whole runs. A pause episode is named by its timer.
 */
module PausedSessions {
  import opened Outcomes

  // Milliseconds, and seconds of grace: any finite number that is not negative.
  type Duration = r: real | r >= 0.0

  datatype Entry = Entry(session: nat, timer: nat, pausedAt: Duration)

  // An armed timer of the runtime, and the session id its callback captured.
  datatype Timer = Timer(sessionId: string, due: Duration)

  datatype Happening =
    | Paused(episode: nat, sessionId: string, session: nat, at: Duration, grace: Duration)
    | Cleared(episode: nat, sessionId: string, at: Duration)
    | Finalized(episode: nat, sessionId: string, session: nat, at: Duration)

  datatype State = State(
    registry: map<string, Entry>,
    timers: map<nat, Timer>,
    nextTimer: nat,
    now: Duration,
    history: seq<Happening>
  )

  // Fire runs a callback that is due; Wait lets time pass.
  datatype Event =
    | Pause(sessionId: string, session: nat, graceSeconds: Duration)
    | Clear(sessionId: string)
    | Fire(timer: nat)
    | Wait(ms: Duration)

  const INITIAL := State(map[], map[], 0, 0.0, [])

  function PauseStep(s: State, sessionId: string, session: nat, graceSeconds: Duration): State {
    if sessionId == "" || sessionId in s.registry then s
    else
      var grace := graceSeconds * 1000.0;
      State(s.registry[sessionId := Entry(session, s.nextTimer, s.now)],
            s.timers[s.nextTimer := Timer(sessionId, s.now + grace)],
            s.nextTimer + 1, s.now,
            s.history + [Paused(s.nextTimer, sessionId, session, s.now, grace)])
  }

  function ClearStep(s: State, sessionId: string): State {
    if sessionId !in s.registry then s
    else
      var entry := s.registry[sessionId];
      s.(registry := s.registry - {sessionId}, timers := s.timers - {entry.timer},
         history := s.history + [Cleared(entry.timer, sessionId, s.now)])
  }

  function ExpireStep(s: State, sessionId: string): State {
    if sessionId !in s.registry then s
    else
      var entry := s.registry[sessionId];
      s.(registry := s.registry - {sessionId},
         history := s.history + [Finalized(entry.timer, sessionId, entry.session, s.now)])
  }

  predicate Due(s: State, timer: nat) {
    timer in s.timers && s.timers[timer].due <= s.now
  }

  function Step(s: State, e: Event): State {
    match e
    case Pause(sessionId, session, graceSeconds) => PauseStep(s, sessionId, session, graceSeconds)
    case Clear(sessionId) => ClearStep(s, sessionId)
    case Fire(timer) =>
      if Due(s, timer) then ExpireStep(s.(timers := s.timers - {timer}), s.timers[timer].sessionId) else s
    case Wait(ms) => s.(now := s.now + ms)
  }

  function Run(s: State, events: seq<Event>): State
    decreases |events|
  {
    if events == [] then s else Run(Step(s, events[0]), events[1..])
  }

  // ---- The registry against the armed timers --------------------------------------

  /** Entries and armed timers are in bijection, each pointing at the other. */
  ghost predicate Bijection(s: State) {
    && (forall id <- s.registry :: s.registry[id].timer in s.timers && s.timers[s.registry[id].timer].sessionId == id)
    && (forall t <- s.timers :: s.timers[t].sessionId in s.registry && s.registry[s.timers[t].sessionId].timer == t)
  }

  function About(h: Happening): string { h.sessionId }

  /** The last thing that happened to a session id. */
  function LastAbout(history: seq<Happening>, sessionId: string): Option<Happening> {
    if history == [] then None
    else if About(history[|history| - 1]) == sessionId then Some(history[|history| - 1])
    else LastAbout(history[..|history| - 1], sessionId)
  }

  function Starts(history: seq<Happening>, episode: nat): nat {
    if history == [] then 0
    else
      var last := if history[|history| - 1].Paused? && history[|history| - 1].episode == episode then 1 else 0;
      Starts(history[..|history| - 1], episode) + last
  }

  function Ends(history: seq<Happening>, episode: nat): nat {
    if history == [] then 0
    else
      var last := if !history[|history| - 1].Paused? && history[|history| - 1].episode == episode then 1 else 0;
      Ends(history[..|history| - 1], episode) + last
  }

  /**
   * The end of a pause ends the last pause of its session id, with nothing in between, and
   * a finalisation comes a full grace window after it and gets the session paused then.
   */
  ghost predicate EndsItsPause(history: seq<Happening>, i: nat)
    requires i < |history|
  {
    var h := history[i];
    var last := LastAbout(history[..i], h.sessionId);
    match h
    case Paused(_, _, _, _, _) => last.None? || !last.value.Paused?
    case Cleared(episode, _, _) => last.Some? && last.value.Paused? && last.value.episode == episode
    case Finalized(episode, _, session, at) =>
      && last.Some? && last.value.Paused? && last.value.episode == episode && last.value.session == session
      && last.value.at + last.value.grace <= at
  }

  /** A registered session was paused last of all, by the armed timer; any other is not paused. */
  ghost predicate Remembers(s: State, id: string)
    requires Bijection(s)
  {
    var last := LastAbout(s.history, id);
    if id in s.registry then
      var entry := s.registry[id];
      && entry.pausedAt <= s.timers[entry.timer].due
      && last == Some(Paused(entry.timer, id, entry.session, entry.pausedAt, s.timers[entry.timer].due - entry.pausedAt))
    else last.None? || !last.value.Paused?
  }

  /** Every handle given out started one episode, which is armed or has ended, once. */
  ghost predicate Counted(s: State, e: nat) {
    && Starts(s.history, e) == (if e < s.nextTimer then 1 else 0)
    && Starts(s.history, e) == Ends(s.history, e) + (if e in s.timers then 1 else 0)
  }

  ghost predicate EndsMatch(history: seq<Happening>) {
    forall i: nat :: i < |history| ==> EndsItsPause(history, i)
  }

  ghost predicate Inv(s: State) {
    && Bijection(s)
    && (forall t <- s.timers :: t < s.nextTimer)
    && (forall id: string :: Remembers(s, id))
    && (forall e: nat :: Counted(s, e))
    && EndsMatch(s.history)
  }

  lemma {:induction false} Recorded(history: seq<Happening>, h: Happening)
    ensures forall id: string :: LastAbout(history + [h], id) == if About(h) == id then Some(h) else LastAbout(history, id)
    ensures forall e: nat :: Starts(history + [h], e) == Starts(history, e) + (if h.Paused? && h.episode == e then 1 else 0)
    ensures forall e: nat :: Ends(history + [h], e) == Ends(history, e) + (if !h.Paused? && h.episode == e then 1 else 0)
    ensures (history + [h])[..|history|] == history
    ensures EndsMatch(history) && EndsItsPause(history + [h], |history|) ==> EndsMatch(history + [h])
  {
    assert (history + [h])[..|history|] == history;
    forall i: nat | EndsMatch(history) && i < |history| ensures EndsItsPause(history + [h], i) {
      assert (history + [h])[..i] == history[..i];
      assert EndsItsPause(history, i);
    }
  }

  lemma {:induction false} PauseKeepsInv(s: State, sessionId: string, session: nat, graceSeconds: Duration)
    requires Inv(s)
    ensures Inv(PauseStep(s, sessionId, session, graceSeconds))
  {
    hide LastAbout, Starts, Ends, EndsMatch;
    if sessionId != "" && sessionId !in s.registry {
      var after := PauseStep(s, sessionId, session, graceSeconds);
      Recorded(s.history, after.history[|s.history|]);
      assert Remembers(s, sessionId);
      forall id: string ensures Remembers(after, id) { assert Remembers(s, id); }
      forall e: nat ensures Counted(after, e) { assert Counted(s, e); }
    }
  }

  lemma {:induction false} ClearKeepsInv(s: State, sessionId: string)
    requires Inv(s)
    ensures Inv(ClearStep(s, sessionId))
  {
    hide LastAbout, Starts, Ends, EndsMatch;
    if sessionId in s.registry {
      var after := ClearStep(s, sessionId);
      Recorded(s.history, after.history[|s.history|]);
      assert Remembers(s, sessionId);
      forall id: string ensures Remembers(after, id) { assert Remembers(s, id); }
      forall e: nat ensures Counted(after, e) { assert Counted(s, e); }
    }
  }

  lemma {:induction false} FireKeepsInv(s: State, timer: nat)
    requires Inv(s)
    ensures Inv(Step(s, Fire(timer)))
  {
    hide LastAbout, Starts, Ends, EndsMatch;
    if Due(s, timer) {
      var after := Step(s, Fire(timer));
      Recorded(s.history, after.history[|s.history|]);
      assert Remembers(s, s.timers[timer].sessionId);
      forall id: string ensures Remembers(after, id) { assert Remembers(s, id); }
      forall e: nat ensures Counted(after, e) { assert Counted(s, e); }
    }
  }

  lemma {:induction false} StepKeepsInv(s: State, e: Event)
    requires Inv(s)
    ensures Inv(Step(s, e))
  {
    match e
    case Pause(sessionId, session, graceSeconds) => PauseKeepsInv(s, sessionId, session, graceSeconds);
    case Clear(sessionId) => ClearKeepsInv(s, sessionId);
    case Fire(timer) => FireKeepsInv(s, timer);
    case Wait(_) =>
      var after := Step(s, e);
      forall id: string ensures Remembers(after, id) { assert Remembers(s, id); }
      forall k: nat ensures Counted(after, k) { assert Counted(s, k); }
  }

  lemma {:induction false} RunKeepsInv(s: State, events: seq<Event>)
    requires Inv(s)
    ensures Inv(Run(s, events))
    decreases |events|
  {
    if events != [] {
      StepKeepsInv(s, events[0]);
      RunKeepsInv(Step(s, events[0]), events[1..]);
    }
  }

  /** Over every run, entries and armed timers are in bijection. */
  lemma {:induction false} EntriesMatchTimers(events: seq<Event>)
    ensures Bijection(Run(INITIAL, events))
  {
    RunKeepsInv(INITIAL, events);
  }

  /** Every pause episode starts once and, unless it is still armed, ends exactly once. */
  lemma {:induction false} EpisodesEndOnce(events: seq<Event>, episode: nat)
    ensures var s := Run(INITIAL, events);
            Ends(s.history, episode) == (if episode < s.nextTimer && episode !in s.timers then 1 else 0)
  {
    RunKeepsInv(INITIAL, events);
    assert Counted(Run(INITIAL, events), episode);
  }

  /**
   * Every end of every run ends the last pause of its session id, undisturbed since: a cleared
   * or re-paused session is never finalised by an older timer, and each pause has a full window.
   */
  lemma {:induction false} EveryEndEndsItsPause(events: seq<Event>, i: nat)
    requires i < |Run(INITIAL, events).history|
    ensures EndsItsPause(Run(INITIAL, events).history, i)
  {
    RunKeepsInv(INITIAL, events);
  }

  /** A due timer always finalises its own session: the callback never finds it missing. */
  lemma {:induction false} DueTimerFinalizesItsOwn(events: seq<Event>, timer: nat)
    requires Due(Run(INITIAL, events), timer)
    ensures var s := Run(INITIAL, events);
            var id := s.timers[timer].sessionId;
            id in s.registry && Step(s, Fire(timer)).history == s.history + [Finalized(timer, id, s.registry[id].session, s.now)]
  {
    RunKeepsInv(INITIAL, events);
  }

  // ---- What a pause and a clear bring about ------------------------------------------

  function Waited(events: seq<Event>): Duration {
    if events == [] then 0.0 else (if events[0].Wait? then events[0].ms else 0.0) + Waited(events[1..])
  }

  /** The session is paused by this timer, which is due at this time. */
  ghost predicate PausedUntil(s: State, id: string, session: nat, timer: nat, due: Duration) {
    && id in s.registry && s.registry[id].session == session && s.registry[id].timer == timer
    && timer in s.timers && s.timers[timer] == Timer(id, due)
  }

  lemma {:induction false} StepKeepsPause(s: State, e: Event, id: string, session: nat, timer: nat, due: Duration)
    requires Bijection(s) && (forall t <- s.timers :: t < s.nextTimer) && PausedUntil(s, id, session, timer, due)
    requires e != Clear(id) && s.now < due
    ensures PausedUntil(Step(s, e), id, session, timer, due)
    ensures Step(s, e).now == s.now + (if e.Wait? then e.ms else 0.0)
  {
  }

  lemma {:induction false} RunKeepsPause(s: State, events: seq<Event>, id: string, session: nat, timer: nat, due: Duration)
    requires Inv(s) && PausedUntil(s, id, session, timer, due)
    requires Clear(id) !in events && s.now + Waited(events) < due
    ensures Inv(Run(s, events)) && PausedUntil(Run(s, events), id, session, timer, due)
    ensures Run(s, events).now == s.now + Waited(events)
    decreases |events|
  {
    hide Inv, PausedUntil;
    if events != [] {
      assert Inv(s) ==> Bijection(s) && forall t <- s.timers :: t < s.nextTimer by { InvTimers(s); }
      WaitedIsNatural(events[1..]);
      StepKeepsPause(s, events[0], id, session, timer, due);
      StepKeepsInv(s, events[0]);
      RunKeepsPause(Step(s, events[0]), events[1..], id, session, timer, due);
    }
  }

  lemma {:induction false} WaitedIsNatural(events: seq<Event>)
    ensures Waited(events) >= 0.0
  {}

  lemma {:induction false} InvTimers(s: State)
    requires Inv(s)
    ensures Bijection(s) && forall t <- s.timers :: t < s.nextTimer
  {}

  lemma {:induction false} RunConcat(s: State, a: seq<Event>, b: seq<Event>)
    ensures Run(s, a + b) == Run(Run(s, a), b)
    decreases |a|
  {
    if a == [] {
      assert a + b == b;
    } else {
      assert (a + b)[1..] == a[1..] + b;
      RunConcat(Step(s, a[0]), a[1..], b);
    }
  }

  /** A session paused with a grace of g seconds stays paused, whatever else happens, until it is
      cleared or 1000 g milliseconds have passed; with them its timer is due. */
  lemma {:induction false} PauseLastsItsGrace(before: seq<Event>, id: string, session: nat, g: Duration, rest: seq<Event>, ms: Duration)
    requires id != "" && id !in Run(INITIAL, before).registry && Clear(id) !in rest && Waited(rest) < 1000.0 * g
    ensures var s := Run(INITIAL, before + [Pause(id, session, g)] + rest);
      && id in s.registry && s.registry[id].session == session
      && (Due(Step(s, Wait(ms)), s.registry[id].timer) <==> Waited(rest) + ms >= 1000.0 * g)
  {
    var s0 := Run(INITIAL, before);
    var pause := Pause(id, session, g);
    RunKeepsInv(INITIAL, before);
    StepKeepsInv(s0, pause);
    var s1 := Step(s0, pause);
    RunKeepsPause(s1, rest, id, session, s0.nextTimer, s0.now + 1000.0 * g);
    RunConcat(INITIAL, before, [pause]);
    assert [pause][1..] == [];
    assert Run(s0, [pause]) == s1;
    RunConcat(INITIAL, before + [pause], rest);
  }

  /** With no grace at all the timer is due at once. */
  lemma {:induction false} PauseWithoutGraceIsDue(before: seq<Event>, id: string, session: nat)
    requires id != "" && id !in Run(INITIAL, before).registry
    ensures var s := Step(Run(INITIAL, before), Pause(id, session, 0.0));
      id in s.registry && s.registry[id].session == session && Due(s, s.registry[id].timer)
  {
  }

  /** A cleared session is gone together with its timer, and nothing else is. */
  lemma {:induction false} ClearRemovesSessionAndTimer(events: seq<Event>, id: string)
    ensures var s, t := Run(INITIAL, events), Run(INITIAL, events + [Clear(id)]);
      && t.registry == s.registry - {id} && (forall k <- t.timers :: t.timers[k].sessionId != id)
      && (forall k <- s.timers :: s.timers[k].sessionId != id ==> k in t.timers && t.timers[k] == s.timers[k])
  {
    RunKeepsInv(INITIAL, events);
    RunConcat(INITIAL, events, [Clear(id)]);
    assert [Clear(id)][1..] == [];
    var s := Run(INITIAL, events);
    assert Run(s, [Clear(id)]) == Step(s, Clear(id));
    if id !in s.registry { assert s.registry - {id} == s.registry; }
  }

  function Finalization(s: State, timer: nat, id: string): seq<Happening> {
    if id in s.registry then [Finalized(timer, id, s.registry[id].session, s.now)] else []
  }

  /** The history is that of the events: a pause that takes effect, with the grace asked for, a clear
      of a paused session, a due timer, and nothing else. */
  lemma {:induction false} HistoryIsOfTheEvents(events: seq<Event>, e: Event)
    ensures var s := Run(INITIAL, events);
      Step(s, e).history == s.history +
        match e
        case Pause(id, session, g) => if id != "" && id !in s.registry then [Paused(s.nextTimer, id, session, s.now, 1000.0 * g)] else []
        case Clear(id) => if id in s.registry then [Cleared(s.registry[id].timer, id, s.now)] else []
        case Fire(timer) =>
          if Due(s, timer) then Finalization(s, timer, s.timers[timer].sessionId) else []
        case Wait(_) => []
  {
    RunKeepsInv(INITIAL, events);
  }

  // ---- The configuration's methods ----------------------------------------------------

  class Sessions {
    var pausedWebsocketSessions: map<string, Entry>
    var graceSeconds: Duration
    // The runtime: armed timers, the next handle, the clock.
    var timers: map<nat, Timer>
    var nextTimer: nat
    var now: Duration
    ghost var history: seq<Happening>

    constructor (graceSeconds: Duration)
      ensures Contents() == INITIAL && this.graceSeconds == graceSeconds
    {
      this.graceSeconds := graceSeconds;
      pausedWebsocketSessions, timers, nextTimer, now, history := map[], map[], 0, 0.0, [];
    }

    ghost function Contents(): State
      reads this
    {
      State(pausedWebsocketSessions, timers, nextTimer, now, history)
    }

    method PauseWebsocketSession(sessionId: string, session: nat) returns (threw: bool)
      requires Inv(Contents())
      modifies this`pausedWebsocketSessions, this`timers, this`nextTimer, this`history
      ensures threw == (sessionId == "")
      ensures Inv(Contents()) && Contents() == Step(old(Contents()), Pause(sessionId, session, graceSeconds))
    {
      hide Inv;
      PauseKeepsInv(Contents(), sessionId, session, graceSeconds);
      if sessionId == "" { return true; }
      threw := false;
      if sessionId in pausedWebsocketSessions { return; }
      var graceMs := graceSeconds * 1000.0;
      var graceTimer := nextTimer;
      timers, nextTimer := timers[graceTimer := Timer(sessionId, now + graceMs)], nextTimer + 1;
      pausedWebsocketSessions := pausedWebsocketSessions[sessionId := Entry(session, graceTimer, now)];
      history := history + [Paused(graceTimer, sessionId, session, now, graceMs)];
    }

    method ClearPausedWebsocketSession(sessionId: string)
      requires Inv(Contents())
      modifies this`pausedWebsocketSessions, this`timers, this`history
      ensures Inv(Contents()) && Contents() == Step(old(Contents()), Clear(sessionId))
    {
      hide Inv;
      ClearKeepsInv(Contents(), sessionId);
      if sessionId !in pausedWebsocketSessions { return; }
      var entry := pausedWebsocketSessions[sessionId];
      timers := timers - {entry.timer};
      pausedWebsocketSessions := pausedWebsocketSessions - {sessionId};
      history := history + [Cleared(entry.timer, sessionId, now)];
    }

    // The session's own teardown hook may throw; the error is swallowed.
    method ExpireWebsocketSession(sessionId: string) returns (finalized: Option<nat>)
      modifies this`pausedWebsocketSessions, this`history
      ensures Contents() == ExpireStep(old(Contents()), sessionId)
      ensures finalized == if sessionId in old(pausedWebsocketSessions) then Some(old(pausedWebsocketSessions)[sessionId].session) else None
    {
      if sessionId !in pausedWebsocketSessions { return None; }
      var entry := pausedWebsocketSessions[sessionId];
      pausedWebsocketSessions := pausedWebsocketSessions - {sessionId};
      history := history + [Finalized(entry.timer, sessionId, entry.session, now)];
      return Some(entry.session);
    }

    method TimerFires(timer: nat) returns (finalized: Option<nat>)
      requires Inv(Contents()) && Due(Contents(), timer)
      modifies this`pausedWebsocketSessions, this`timers, this`history
      ensures Inv(Contents()) && Contents() == Step(old(Contents()), Fire(timer))
      ensures finalized.Some? && history == old(history) + [Finalized(timer, old(timers)[timer].sessionId, finalized.value, now)]
    {
      FireKeepsInv(Contents(), timer);
      var sessionId := timers[timer].sessionId;
      timers := timers - {timer};
      finalized := ExpireWebsocketSession(sessionId);
    }
  }
}

/**
 * Beacon outage reporting: a timed machine over down, up, timer and disconnect events.
 *
 * The armed timers of the runtime are kept apart from the field that remembers a handle, so
 * that "the pending timer" and "a timer that will fire" are two things proved to agree.
 */
module BeaconOutage {
  import opened Outcomes

  datatype DownError = DownError(stage: string, error: string)

  datatype Happening =
    | WentDown(error: DownError, at: nat, reportAfterMs: nat)
    | Recovered(at: nat)
    | Reported(error: DownError, at: nat)

  datatype State = State(
    lastDownError: Option<DownError>,
    reportTimer: Option<nat>,
    outageReported: bool,
    armed: map<nat, nat>,
    nextTimer: nat,
    now: nat,
    history: seq<Happening>
  )

  // `connected` is what the client, if there is one, answers when the timer fires.
  datatype Event =
    | Down(error: DownError, reportAfterMs: nat)
    | Up
    | Fire(timer: nat, connected: bool)
    | Disconnect
    | Wait(ms: nat)

  const INITIAL := State(None, None, false, map[], 0, 0, [])

  function DownStep(s: State, error: DownError, reportAfterMs: nat): State {
    var seen := s.(lastDownError := Some(error), history := s.history + [WentDown(error, s.now, reportAfterMs)]);
    if s.reportTimer.Some? || s.outageReported then seen
    else seen.(armed := s.armed[s.nextTimer := s.now + reportAfterMs], reportTimer := Some(s.nextTimer), nextTimer := s.nextTimer + 1)
  }

  /** Both a (re)connect and a disconnect clear the outage. */
  function ClearStep(s: State): State {
    s.(armed := if s.reportTimer.Some? then s.armed - {s.reportTimer.value} else s.armed,
       reportTimer := None, outageReported := false, lastDownError := None,
       history := s.history + [Recovered(s.now)])
  }

  predicate Due(s: State, timer: nat) {
    timer in s.armed && s.armed[timer] <= s.now
  }

  function FireStep(s: State, timer: nat, connected: bool): State {
    var fired := s.(armed := s.armed - {timer}, reportTimer := None);
    if connected then ClearStep(fired)
    else
      fired.(outageReported := true,
             history := if s.lastDownError.Some? then s.history + [Reported(s.lastDownError.value, s.now)] else s.history)
  }

  function Step(s: State, e: Event): State {
    match e
    case Down(error, reportAfterMs) => DownStep(s, error, reportAfterMs)
    case Up => ClearStep(s)
    case Fire(timer, connected) => if Due(s, timer) then FireStep(s, timer, connected) else s
    case Disconnect => ClearStep(s)
    case Wait(ms) => s.(now := s.now + ms)
  }

  function Run(s: State, events: seq<Event>): State
    decreases |events|
  {
    if events == [] then s else Run(Step(s, events[0]), events[1..])
  }

  // ---- The history since the last clear ----------------------------------------------

  function Since(history: seq<Happening>): seq<Happening> {
    if history == [] then []
    else if history[|history| - 1].Recovered? then []
    else Since(history[..|history| - 1]) + [history[|history| - 1]]
  }

  function LastDown(outage: seq<Happening>): Option<DownError> {
    if outage == [] then None
    else if outage[|outage| - 1].WentDown? then Some(outage[|outage| - 1].error)
    else LastDown(outage[..|outage| - 1])
  }

  /** Since the last clear: a report is the first one, carries the latest error and is late enough. */
  ghost predicate Earned(outage: seq<Happening>, report: Happening) {
    && report.Reported?
    && outage != [] && AllDowns(outage)
    && outage[0].at + outage[0].reportAfterMs <= report.at
    && report.error == outage[|outage| - 1].error
  }

  ghost predicate ReportsEarned(history: seq<Happening>) {
    forall i: nat :: i < |history| && history[i].Reported? ==> Earned(Since(history[..i]), history[i])
  }

  ghost predicate AllDowns(outage: seq<Happening>) {
    forall i :: 0 <= i < |outage| ==> outage[i].WentDown?
  }

  ghost predicate HasReport(outage: seq<Happening>) {
    exists i :: 0 <= i < |outage| && outage[i].Reported?
  }

  /** The fields say exactly what happened since the last clear. */
  ghost predicate Remembers(s: State, outage: seq<Happening>) {
    && s.lastDownError == LastDown(outage)
    && (outage == [] <==> s.reportTimer.None? && !s.outageReported)
    && (outage != [] ==> outage[0].WentDown?)
    && (if s.outageReported then s.reportTimer.None? && HasReport(outage) else AllDowns(outage))
    && (if s.reportTimer.None? then s.armed == map[]
        else s.reportTimer.value < s.nextTimer && s.armed == map[s.reportTimer.value := outage[0].at + outage[0].reportAfterMs])
  }

  ghost predicate Inv(s: State) {
    Remembers(s, Since(s.history)) && ReportsEarned(s.history)
  }

  lemma {:induction false} Recorded(history: seq<Happening>, h: Happening)
    ensures Since(history + [h]) == if h.Recovered? then [] else Since(history) + [h]
    ensures ReportsEarned(history) && (h.Reported? ==> Earned(Since(history), h)) ==> ReportsEarned(history + [h])
  {
    assert (history + [h])[..|history|] == history;
    forall i: nat | i < |history| ensures (history + [h])[..i] == history[..i] {}
  }

  lemma {:induction false} LastDownOf(outage: seq<Happening>, h: Happening)
    ensures LastDown(outage + [h]) == if h.WentDown? then Some(h.error) else LastDown(outage)
    ensures outage != [] && outage[0].WentDown? ==> LastDown(outage).Some?
    ensures AllDowns(outage) && outage != [] ==> LastDown(outage) == Some(outage[|outage| - 1].error)
  {
    assert (outage + [h])[..|outage|] == outage;
    if |outage| > 1 {
      var init := outage[..|outage| - 1];
      LastDownOf(init, outage[|outage| - 1]);
      assert outage == init + [outage[|outage| - 1]];
    }
  }

  lemma {:induction false} DownKeepsInv(s: State, error: DownError, reportAfterMs: nat)
    requires Inv(s)
    ensures Inv(DownStep(s, error, reportAfterMs))
  {
    hide Since, LastDown, ReportsEarned;
    var h := WentDown(error, s.now, reportAfterMs);
    var outage := Since(s.history);
    Recorded(s.history, h);
    LastDownOf(outage, h);
    if s.outageReported {
      var i :| 0 <= i < |outage| && outage[i].Reported?;
      assert (outage + [h])[i].Reported?;
    }
  }

  lemma {:induction false} FireKeepsInv(s: State, timer: nat)
    requires Inv(s) && Due(s, timer)
    ensures Inv(FireStep(s, timer, false))
    ensures s.reportTimer == Some(timer) && s.lastDownError.Some?
  {
    hide Since, LastDown, ReportsEarned;
    var outage := Since(s.history);
    LastDownOf(outage, outage[0]);
    var h := Reported(s.lastDownError.value, s.now);
    LastDownOf(outage, h);
    Recorded(s.history, h);
    assert (outage + [h])[|outage|].Reported?;
  }

  lemma {:induction false} ClearKeepsInv(s: State)
    requires ReportsEarned(s.history) && s.armed.Keys == (if s.reportTimer.Some? then {s.reportTimer.value} else {})
    ensures Inv(ClearStep(s))
  {
    Recorded(s.history, Recovered(s.now));
  }

  lemma {:induction false} StepKeepsInv(s: State, e: Event)
    requires Inv(s)
    ensures Inv(Step(s, e))
  {
    hide Since, LastDown, ReportsEarned;
    match e
    case Down(error, reportAfterMs) => DownKeepsInv(s, error, reportAfterMs);
    case Up => ClearKeepsInv(s);
    case Fire(timer, connected) =>
      if Due(s, timer) {
        if connected {
          ClearKeepsInv(s.(armed := s.armed - {timer}, reportTimer := None));
        } else {
          FireKeepsInv(s, timer);
        }
      }
    case Disconnect => ClearKeepsInv(s);
    case Wait(_) =>
  }

  lemma {:induction false} RunKeepsInv(s: State, events: seq<Event>)
    requires Inv(s)
    ensures Inv(Run(s, events))
    decreases |events|
  {
    if events != [] {
      StepKeepsInv(s, events[0]);
      RunKeepsInv(Step(s, events[0]), events[1..]);
    }
  }

  /** The last error is remembered exactly while a report is pending or made, never both. */
  lemma {:induction false} ErrorKeptWhilePendingOrReported(events: seq<Event>)
    ensures var s := Run(INITIAL, events);
            && (s.lastDownError.Some? <==> s.reportTimer.Some? || s.outageReported)
            && !(s.reportTimer.Some? && s.outageReported)
            && s.armed.Keys == (if s.reportTimer.Some? then {s.reportTimer.value} else {})
  {
    RunKeepsInv(INITIAL, events);
    var outage := Since(Run(INITIAL, events).history);
    if outage != [] { LastDownOf(outage, outage[0]); }
  }

  /**
   * Every report of every run is the only one since the last clear, follows a down at least
   * its own window earlier with no clear since, and carries the most recent down error.
   */
  lemma {:induction false} EveryReportIsEarned(events: seq<Event>, i: nat)
    requires i < |Run(INITIAL, events).history| && Run(INITIAL, events).history[i].Reported?
    ensures Earned(Since(Run(INITIAL, events).history[..i]), Run(INITIAL, events).history[i])
  {
    RunKeepsInv(INITIAL, events);
  }

  function ReportCount(history: seq<Happening>): nat {
    if history == [] then 0 else ReportCount(history[..|history| - 1]) + (if history[|history| - 1].Reported? then 1 else 0)
  }

  function ClearCount(history: seq<Happening>): nat {
    if history == [] then 0 else ClearCount(history[..|history| - 1]) + (if history[|history| - 1].Recovered? then 1 else 0)
  }

  lemma {:induction false} ReportsAgainstClears(history: seq<Happening>)
    requires ReportsEarned(history)
    ensures ReportCount(history) <= ClearCount(history) + (if HasReport(Since(history)) then 1 else 0)
  {
    if history != [] {
      var n := |history| - 1;
      var init, h := history[..n], history[n];
      assert init + [h] == history;
      forall i: nat | i < n ensures init[..i] == history[..i] && init[i] == history[i] {}
      ReportsAgainstClears(init);
      Recorded(init, h);
      if !h.Recovered? && HasReport(Since(init)) {
        var i :| 0 <= i < |Since(init)| && Since(init)[i].Reported?;
        assert Since(history)[i].Reported?;
      }
      if h.Reported? {
        assert Since(history)[|Since(init)|].Reported?;
        assert Earned(Since(init), h);
      }
    }
  }

  /** Over every run: at most one report per clear, plus one for the outage still open. */
  lemma {:induction false} AtMostOneReportBetweenClears(events: seq<Event>)
    ensures var s := Run(INITIAL, events);
            ReportCount(s.history) <= ClearCount(s.history) + (if s.outageReported then 1 else 0)
  {
    RunKeepsInv(INITIAL, events);
    ReportsAgainstClears(Run(INITIAL, events).history);
  }

  /** A due timer with no connected client always reports: the remembered error is never missing. */
  lemma {:induction false} SustainedOutageIsReported(events: seq<Event>, timer: nat)
    requires Due(Run(INITIAL, events), timer)
    ensures var s := Run(INITIAL, events);
            s.lastDownError.Some?
            && Step(s, Fire(timer, false)).history == s.history + [Reported(s.lastDownError.value, s.now)]
            && Step(s, Fire(timer, true)) == ClearStep(s)
  {
    RunKeepsInv(INITIAL, events);
    FireKeepsInv(Run(INITIAL, events), timer);
  }

  // ---- What each event brings about -------------------------------------------------------

  function Waited(events: seq<Event>): nat {
    if events == [] then 0 else (if events[0].Wait? then events[0].ms else 0) + Waited(events[1..])
  }

  predicate Clears(e: Event) { e.Up? || e.Disconnect? }

  /** A report is pending, due at this time. */
  ghost predicate PendingUntil(s: State, timer: nat, due: nat) {
    s.reportTimer == Some(timer) && !s.outageReported && s.armed == map[timer := due]
  }

  lemma {:induction false} RunKeepsPending(s: State, events: seq<Event>, timer: nat, due: nat)
    requires PendingUntil(s, timer, due) && s.now + Waited(events) < due && forall e :: e in events ==> !Clears(e)
    ensures PendingUntil(Run(s, events), timer, due) && Run(s, events).now == s.now + Waited(events)
    decreases |events|
  {
    if events != [] {
      assert !Clears(events[0]);
      RunKeepsPending(Step(s, events[0]), events[1..], timer, due);
    }
  }

  lemma {:induction false} RunConcat(s: State, a: seq<Event>, b: seq<Event>)
    ensures Run(s, a + b) == Run(Run(s, a), b)
    decreases |a|
  {
    if a == [] {
      assert a + b == b;
    } else {
      assert (a + b)[1..] == a[1..] + b;
      RunConcat(Step(s, a[0]), a[1..], b);
    }
  }

  /** After the first down of an outage, whatever else happens short of a clear, nothing is reported
      before its window has passed, and once it has the report is due. */
  lemma {:induction false} FirstDownOpensTheWindow(before: seq<Event>, error: DownError, window: nat, rest: seq<Event>, ms: nat)
    requires Run(INITIAL, before).lastDownError.None?
    requires Waited(rest) < window && forall e :: e in rest ==> !Clears(e)
    ensures var s := Run(INITIAL, before + [Down(error, window)] + rest);
      && s.reportTimer.Some? && !s.outageReported
      && (Due(Step(s, Wait(ms)), s.reportTimer.value) <==> Waited(rest) + ms >= window)
  {
    var s0, down := Run(INITIAL, before), Down(error, window);
    ErrorKeptWhilePendingOrReported(before);
    var s1 := Step(s0, down);
    RunKeepsInv(INITIAL, before);
    assert s1.armed == map[s0.nextTimer := s0.now + window];
    RunKeepsPending(s1, rest, s0.nextTimer, s0.now + window);
    RunConcat(INITIAL, before, [down]);
    assert [down][1..] == [];
    assert Run(s0, [down]) == s1;
    RunConcat(INITIAL, before + [down], rest);
  }

  /** A down is remembered, and a (re)connect or disconnect forgets the outage and its timer. */
  lemma {:induction false} DownIsKeptAndClearForgets(events: seq<Event>, error: DownError, window: nat, clear: Event)
    requires Clears(clear)
    ensures var s := Run(INITIAL, events);
      && Step(s, Down(error, window)).lastDownError == Some(error)
      && var t := Step(s, clear);
         t.lastDownError.None? && t.reportTimer.None? && !t.outageReported && t.armed == map[]
  {
    RunKeepsInv(INITIAL, events);
  }

  /** The history is that of the events: every down with its window, every clear, every report. */
  lemma {:induction false} HistoryIsOfTheEvents(events: seq<Event>, e: Event)
    ensures var s := Run(INITIAL, events);
      Step(s, e).history == s.history +
        match e
        case Down(error, window) => [WentDown(error, s.now, window)]
        case Fire(timer, connected) =>
          if !Due(s, timer) then [] else if connected then [Recovered(s.now)]
          else if s.lastDownError.Some? then [Reported(s.lastDownError.value, s.now)] else []
        case Wait(_) => []
        case _ => [Recovered(s.now)]
  {
  }

  // ---- The configuration's methods -----------------------------------------------------

  class Beacon {
    var beaconLastDownError: Option<DownError>
    var beaconReportTimer: Option<nat>
    var beaconOutageReported: bool
    // The runtime: armed timers with their due times, the next handle, the clock.
    var armed: map<nat, nat>
    var nextTimer: nat
    var now: nat
    ghost var history: seq<Happening>

    constructor ()
      ensures Contents() == INITIAL
    {
      beaconLastDownError, beaconReportTimer, beaconOutageReported := None, None, false;
      armed, nextTimer, now, history := map[], 0, 0, [];
    }

    ghost function Contents(): State
      reads this
    {
      State(beaconLastDownError, beaconReportTimer, beaconOutageReported, armed, nextTimer, now, history)
    }

    method HandleBeaconDown(error: DownError, reportAfterMs: nat)
      requires Inv(Contents())
      modifies this
      ensures Inv(Contents()) && Contents() == Step(old(Contents()), Down(error, reportAfterMs))
    {
      hide Inv;
      StepKeepsInv(Contents(), Down(error, reportAfterMs));
      beaconLastDownError, history := Some(error), history + [WentDown(error, now, reportAfterMs)];
      if beaconReportTimer.Some? || beaconOutageReported { return; }
      var timer := nextTimer;
      armed, nextTimer := armed[timer := now + reportAfterMs], nextTimer + 1;
      beaconReportTimer := Some(timer);
    }

    method HandleBeaconUp()
      modifies this
      ensures Contents() == ClearStep(old(Contents()))
    {
      if beaconReportTimer.Some? {
        armed := armed - {beaconReportTimer.value};
        beaconReportTimer := None;
      }
      beaconOutageReported := false;
      beaconLastDownError := None;
      history := history + [Recovered(now)];
    }

    method ReportTimerFires(timer: nat, connected: bool) returns (reported: Option<DownError>)
      requires Inv(Contents()) && Due(Contents(), timer)
      modifies this
      ensures Inv(Contents()) && Contents() == Step(old(Contents()), Fire(timer, connected))
      ensures reported == if connected then None else old(beaconLastDownError)
    {
      hide Inv;
      StepKeepsInv(Contents(), Fire(timer, connected));
      armed := armed - {timer};
      beaconReportTimer := None;
      if connected {
        HandleBeaconUp();
        return None;
      }
      beaconOutageReported := true;
      if beaconLastDownError.Some? {
        history := history + [Reported(beaconLastDownError.value, now)];
      }
      return beaconLastDownError;
    }

    method DisconnectBeacon()
      requires Inv(Contents())
      modifies this
      ensures Inv(Contents()) && Contents() == Step(old(Contents()), Disconnect)
    {
      hide Inv;
      StepKeepsInv(Contents(), Disconnect);
      if beaconReportTimer.Some? {
        armed := armed - {beaconReportTimer.value};
        beaconReportTimer := None;
      }
      beaconOutageReported := false;
      beaconLastDownError := None;
      history := history + [Recovered(now)];
    }
  }
}

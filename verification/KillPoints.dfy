/** The crash example's kill point: the moment a committed round is behind a run's
    latest script and its sign-off is pending. */
module KillPoints {
  import opened Wrappers

  datatype EndStatus = Completed | Refused

  datatype Event =
    | ToolStart(aggregateId: string, logId: string, toolName: string)
    | ToolEnd(aggregateId: string, logId: string, status: EndStatus)
    | OtherEvent(aggregateId: string)

  predicate Starts(event: Event, own: string, toolName: string) {
    event.ToolStart? && event.aggregateId == own && event.toolName == toolName
  }

  // ----- what a log says -----

  /** Where the run's latest script starts; the beginning when none has. */
  function Window(log: seq<Event>, own: string): nat {
    if log == [] then 0
    else if Starts(log[|log| - 1], own, "script") then |log| - 1
    else Window(log[..|log| - 1], own)
  }

  ghost predicate SelfStartedAt(log: seq<Event>, own: string, i: int) {
    Window(log, own) <= i < |log| && Starts(log[i], own, "self")
  }

  /** A `self` call of the latest script has completed at `j`. */
  ghost predicate SelfEndedAt(log: seq<Event>, own: string, j: int) {
    && Window(log, own) <= j < |log|
    && log[j].ToolEnd? && log[j].aggregateId == own && log[j].status.Completed?
    && exists i | i < j :: SelfStartedAt(log, own, i) && log[i].logId == log[j].logId
  }

  ghost predicate SignoffStartedAt(log: seq<Event>, own: string, k: int) {
    Window(log, own) <= k < |log| && Starts(log[k], own, "await_signoff")
  }

  ghost predicate SignoffStarted(log: seq<Event>, own: string) {
    exists k :: SignoffStartedAt(log, own, k)
  }

  ghost predicate AtKillPoint(log: seq<Event>, own: string) {
    && (exists j :: SelfEndedAt(log, own, j))
    && SignoffStarted(log, own)
  }

  /** The id of the run's latest script start, if any. */
  function LatestScript(log: seq<Event>, own: string): Option<string> {
    var start := Window(log, own);
    if start < |log| && Starts(log[start], own, "script") then Some(log[start].logId) else None
  }

  ghost function SelfCards(log: seq<Event>, own: string): set<string> {
    set i | 0 <= i < |log| && SelfStartedAt(log, own, i) :: match log[i] case ToolStart(_, id, _) => id
  }

  ghost function SelfEnds(log: seq<Event>, own: string): set<int> {
    set j | 0 <= j < |log| && SelfEndedAt(log, own, j)
  }

  lemma {:induction false} WindowInLog(log: seq<Event>, own: string)
    ensures Window(log, own) <= |log|
    ensures log != [] && !Starts(log[|log| - 1], own, "script") ==> Window(log, own) < |log|
    ensures forall i | Window(log, own) < i < |log| :: !Starts(log[i], own, "script")
  {
    if log != [] && !Starts(log[|log| - 1], own, "script") {
      WindowInLog(log[..|log| - 1], own);
    }
  }

  // ----- one event more -----

  lemma ScriptStartClears(log: seq<Event>, own: string, event: Event)
    requires Starts(event, own, "script")
    ensures var next := log + [event];
            && SelfCards(next, own) == {}
            && SelfEnds(next, own) == {}
            && !SignoffStarted(next, own)
            && LatestScript(next, own) == Some(event.logId)
  {
    var next := log + [event];
    assert Window(next, own) == |log|;
    forall i ensures !SelfStartedAt(next, own, i) && !SelfEndedAt(next, own, i) && !SignoffStartedAt(next, own, i) {
      assert Window(next, own) <= i < |next| ==> i == |log|;
    }
  }

  lemma NextStarts(log: seq<Event>, own: string, event: Event)
    requires !Starts(event, own, "script")
    ensures var next := log + [event];
            && Window(next, own) == Window(log, own) <= |log|
            && (forall i | i != |log| :: SelfStartedAt(next, own, i) <==> SelfStartedAt(log, own, i))
            && (SelfStartedAt(next, own, |log|) <==> Starts(event, own, "self"))
            && (forall k | k != |log| :: SignoffStartedAt(next, own, k) <==> SignoffStartedAt(log, own, k))
            && (SignoffStartedAt(next, own, |log|) <==> Starts(event, own, "await_signoff"))
  {
    var next := log + [event];
    assert next[..|next| - 1] == log;
    WindowInLog(log, own);
  }

  lemma NextCards(log: seq<Event>, own: string, event: Event)
    requires !Starts(event, own, "script")
    ensures SelfCards(log + [event], own) ==
            SelfCards(log, own) + if Starts(event, own, "self") then {event.logId} else {}
  {
    var next, cards := log + [event], SelfCards(log + [event], own);
    NextStarts(log, own, event);
    forall id | id in SelfCards(log, own) ensures id in cards {
      var i :| 0 <= i < |log| && SelfStartedAt(log, own, i) && log[i].logId == id;
      assert next[i] == log[i] && SelfStartedAt(next, own, i);
    }
    if Starts(event, own, "self") {
      assert next[|log|] == event && SelfStartedAt(next, own, |log|);
    }
  }

  predicate Completes(event: Event, own: string) {
    event.ToolEnd? && event.aggregateId == own && event.status.Completed?
  }

  lemma NextEnds(log: seq<Event>, own: string, event: Event)
    requires !Starts(event, own, "script")
    ensures SelfEnds(log + [event], own) ==
            SelfEnds(log, own)
            + if Completes(event, own) && event.logId in SelfCards(log, own) then {|log|} else {}
  {
    var next := log + [event];
    NextStarts(log, own, event);
    forall j | 0 <= j < |log| ensures SelfEndedAt(next, own, j) <==> SelfEndedAt(log, own, j) {
      assert next[j] == log[j];
      forall i | i < j && SelfStartedAt(log, own, i) ensures SelfStartedAt(next, own, i) && next[i] == log[i] {
      }
      forall i | i < j && SelfStartedAt(next, own, i) ensures SelfStartedAt(log, own, i) && next[i] == log[i] {
      }
    }
    assert next[|log|] == event;
    forall i | 0 <= i < |log| && SelfStartedAt(log, own, i)
      ensures SelfStartedAt(next, own, i) && next[i] == log[i]
    {
    }
  }

  // ----- the closure's variables as one value -----

  datatype Reading = Reading(script: Option<string>, selfCards: set<string>, selfEnded: nat, signoffStarted: bool)

  ghost function ReadingOf(log: seq<Event>, own: string): Reading {
    Reading(LatestScript(log, own), SelfCards(log, own), |SelfEnds(log, own)|, SignoffStarted(log, own))
  }

  function After(reading: Reading, event: Event, own: string): Reading {
    if event.aggregateId != own then reading
    else
      match event
      case ToolStart(_, logId, toolName) =>
        if toolName == "script" then Reading(Some(logId), {}, 0, false)
        else if toolName == "self" then reading.(selfCards := reading.selfCards + {logId})
        else if toolName == "await_signoff" then reading.(signoffStarted := true)
        else reading
      case ToolEnd(_, logId, Completed) =>
        if logId in reading.selfCards then reading.(selfEnded := reading.selfEnded + 1) else reading
      case _ => reading
  }

  lemma NextSignoff(log: seq<Event>, own: string, event: Event)
    requires !Starts(event, own, "script")
    ensures SignoffStarted(log + [event], own) <==> SignoffStarted(log, own) || Starts(event, own, "await_signoff")
  {
    NextStarts(log, own, event);
    assert SignoffStartedAt(log + [event], own, |log|) <==> Starts(event, own, "await_signoff");
    assert !SignoffStartedAt(log, own, |log|);
    if k :| SignoffStartedAt(log, own, k) {
      assert SignoffStartedAt(log + [event], own, k);
    }
    if k :| SignoffStartedAt(log + [event], own, k) && k != |log| {
      assert SignoffStartedAt(log, own, k);
    }
  }

  lemma NextEndCount(log: seq<Event>, own: string, event: Event)
    requires !Starts(event, own, "script")
    ensures |SelfEnds(log + [event], own)| ==
            |SelfEnds(log, own)| + if Completes(event, own) && event.logId in SelfCards(log, own) then 1 else 0
  {
    NextEnds(log, own, event);
    assert |log| !in SelfEnds(log, own);
  }

  /** One event takes what the log says to what the longer log says. */
  lemma NextReading(log: seq<Event>, own: string, event: Event)
    ensures ReadingOf(log + [event], own) == After(ReadingOf(log, own), event, own)
  {
    if Starts(event, own, "script") {
      ScriptStartClears(log, own, event);
    } else {
      NextStarts(log, own, event);
      NextCards(log, own, event);
      NextEndCount(log, own, event);
      NextSignoff(log, own, event);
    }
  }

  lemma KillPointIff(log: seq<Event>, own: string)
    ensures AtKillPoint(log, own) <==> ReadingOf(log, own).selfEnded > 0 && ReadingOf(log, own).signoffStarted
  {
    WindowInLog(log, own);
    if exists j :: SelfEndedAt(log, own, j) {
      var j :| SelfEndedAt(log, own, j);
      assert j in SelfEnds(log, own);
    }
    if |SelfEnds(log, own)| > 0 {
      var j :| j in SelfEnds(log, own);
    }
  }

  /** The filter closure. */
  class KillPointFilter {
    const own: string
    var script: Option<string>
    var selfCards: set<string>
    var selfEnded: nat
    var signoffStarted: bool

    function Now(): Reading
      reads this
    {
      Reading(script, selfCards, selfEnded, signoffStarted)
    }

    constructor (own: string)
      ensures this.own == own && Now() == Reading(None, {}, 0, false)
    {
      this.own := own;
      script := None;
      selfCards := {};
      selfEnded := 0;
      signoffStarted := false;
    }

    method Observe(event: Event) returns (fires: bool)
      modifies this
      ensures Now() == After(old(Now()), event, own)
      ensures fires <==> event.aggregateId == own && Now().selfEnded > 0 && Now().signoffStarted
    {
      if event.aggregateId != own {
        return false;
      }
      if event.ToolStart? && event.toolName == "script" {
        script := Some(event.logId);
        selfCards := {};
        selfEnded := 0;
        signoffStarted := false;
      }
      if event.ToolStart? && event.toolName == "self" {
        selfCards := selfCards + {event.logId};
      }
      if event.ToolEnd? && event.logId in selfCards && event.status == Completed {
        selfEnded := selfEnded + 1;
      }
      if event.ToolStart? && event.toolName == "await_signoff" {
        signoffStarted := true;
      }
      return selfEnded > 0 && signoffStarted;
    }
  }

  ghost predicate NoneBefore(log: seq<Event>, own: string, n: nat)
    requires n <= |log|
  {
    forall m: nat | m <= n :: !AtKillPoint(log[..m], own)
  }

  lemma NoneYet(log: seq<Event>, own: string)
    ensures ReadingOf([], own) == Reading(None, {}, 0, false)
    ensures NoneBefore(log, own, 0)
  {
    assert SelfCards([], own) == {} && SelfEnds([], own) == {};
    assert log[..0] == [];
    KillPointIff([], own);
  }

  /** The filter's verdict on event `n`, behind events that were not at the kill
      point, is whether the log is now: an event of another aggregate cannot
      bring it there. */
  lemma VerdictIsExact(log: seq<Event>, own: string, n: nat)
    requires n < |log| && NoneBefore(log, own, n)
    ensures var reading := ReadingOf(log[..n + 1], own);
            && reading == After(ReadingOf(log[..n], own), log[n], own)
            && (AtKillPoint(log[..n + 1], own) <==>
                  log[n].aggregateId == own && reading.selfEnded > 0 && reading.signoffStarted)
  {
    assert log[..n + 1] == log[..n] + [log[n]];
    NextReading(log[..n], own, log[n]);
    KillPointIff(log[..n], own);
    KillPointIff(log[..n + 1], own);
    assert !AtKillPoint(log[..n], own);
  }

  /** The first event the filter lets through is the last of the shortest prefix
      at the kill point; until then, and over every log, its variables are what
      the log says of the run's latest script. */
  method FirstKillPoint(log: seq<Event>, own: string) returns (at: Option<nat>, variables: Reading)
    ensures at.Some? ==>
              && at.value < |log|
              && AtKillPoint(log[..at.value + 1], own)
              && NoneBefore(log, own, at.value)
              && variables == ReadingOf(log[..at.value + 1], own)
    ensures at.None? ==> NoneBefore(log, own, |log|) && variables == ReadingOf(log, own)
  {
    var filter := new KillPointFilter(own);
    NoneYet(log, own);
    assert log[..0] == [];
    for i := 0 to |log|
      invariant filter.own == own && filter.Now() == ReadingOf(log[..i], own)
      invariant NoneBefore(log, own, i)
    {
      VerdictIsExact(log, own, i);
      var fires := filter.Observe(log[i]);
      if fires {
        return Some(i), filter.Now();
      }
    }
    assert log[..|log|] == log;
    return None, filter.Now();
  }
}

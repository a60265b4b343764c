/** An exported trace answered at a cut: the prefix the live plane would have
    delivered at that moment. */
module TraceFrames {
  import opened Wrappers

  /** A display event. What it lists and which aggregates it names are its own. */
  datatype Event = Event(commit: nat, isPosition: bool, isListing: bool, references: seq<string>, body: string)

  datatype Input =
    | Debug(enabled: bool)
    | Local
    | Listed(event: Event)
    | Subscriptions(aggregates: seq<string>)
    | Delivered(event: Event)
    | ReplayComplete(checkedAggregateIds: seq<string>)

  datatype Frame = Frame(generation: nat, cursor: nat, inputs: seq<Input>)

  datatype Subscribe = Subscribe(generation: nat, debug: bool, aggregates: seq<string>)

  function Positions(events: seq<Event>): seq<Event> {
    if events == [] then []
    else if events[0].isPosition then [events[0]] + Positions(events[1..])
    else Positions(events[1..])
  }

  function Listing(events: seq<Event>): seq<Event> {
    if events == [] then []
    else if events[0].isListing then [events[0]] + Listing(events[1..])
    else Listing(events[1..])
  }

  /** The events no later than a commit. */
  function UpTo(events: seq<Event>, commit: nat): seq<Event> {
    if events == [] then []
    else if events[0].commit <= commit then [events[0]] + UpTo(events[1..], commit)
    else UpTo(events[1..], commit)
  }

  /** The document at a cut; whole at no cut, or at one that names no position. */
  function CutAt(events: seq<Event>, cut: Option<int>): seq<Event> {
    if cut.Some? && 0 <= cut.value < |Positions(events)| then
      UpTo(events, Positions(events)[cut.value].commit)
    else events
  }

  function References(events: seq<Event>): seq<string> {
    if events == [] then [] else References(events[..|events| - 1]) + events[|events| - 1].references
  }

  /** Each value once, where it first occurs. */
  function Unique(values: seq<string>): seq<string> {
    if values == [] then []
    else
      var before, last := Unique(values[..|values| - 1]), values[|values| - 1];
      if last in before then before else before + [last]
  }

  function CheckedIds(events: seq<Event>): seq<string> {
    Unique(References(Listing(events)))
  }

  function ListedInputs(events: seq<Event>): seq<Input> {
    seq(|events|, i requires 0 <= i < |events| => Listed(events[i]))
  }

  function DeliveredInputs(events: seq<Event>): seq<Input> {
    seq(|events|, i requires 0 <= i < |events| => Delivered(events[i]))
  }

  function TraceFrame(events: seq<Event>, runAggregate: string, subscribe: Subscribe, cut: Option<int>): Frame {
    var shown := CutAt(events, cut);
    var listing := Listing(shown);
    Frame(
      subscribe.generation,
      if shown == [] then 0 else shown[|shown| - 1].commit,
      [Debug(subscribe.debug), Local]
      + ListedInputs(listing)
      + [Subscriptions(subscribe.aggregates)]
      + (if runAggregate in subscribe.aggregates then DeliveredInputs(shown) else [])
      + [ReplayComplete(CheckedIds(shown))])
  }

  // ----- a cut is a prefix -----

  predicate InCommitOrder(events: seq<Event>) {
    forall i, j | 0 <= i <= j < |events| :: events[i].commit <= events[j].commit
  }

  lemma {:induction false} UpToIsPrefix(events: seq<Event>, commit: nat)
    requires InCommitOrder(events)
    ensures var n := |UpTo(events, commit)|;
            && n <= |events|
            && UpTo(events, commit) == events[..n]
            && forall i | 0 <= i < |events| :: i < n <==> events[i].commit <= commit
  {
    if events != [] {
      UpToIsPrefix(events[1..], commit);
      if events[0].commit > commit && |events| > 1 {
        assert events[1..][0].commit > commit;
      }
      assert forall i | 0 < i < |events| :: events[i] == events[1..][i - 1];
    }
  }

  lemma {:induction false} PositionAt(events: seq<Event>, k: nat) returns (i: nat)
    requires k < |Positions(events)|
    ensures i < |events| && events[i] == Positions(events)[k]
  {
    if events[0].isPosition && k == 0 {
      i := 0;
    } else {
      var j := PositionAt(events[1..], if events[0].isPosition then k - 1 else k);
      i := j + 1;
    }
  }

  /** A cut shows a prefix of the document, exactly what was committed by its
      position, and its cursor is the position's commit. */
  lemma CutIsPrefix(events: seq<Event>, runAggregate: string, subscribe: Subscribe, k: nat)
    requires InCommitOrder(events) && k < |Positions(events)|
    ensures var shown, commit := CutAt(events, Some(k)), Positions(events)[k].commit;
            && shown <= events
            && (forall i | 0 <= i < |events| :: i < |shown| <==> events[i].commit <= commit)
            && TraceFrame(events, runAggregate, subscribe, Some(k)).cursor == commit
  {
    UpToIsPrefix(events, Positions(events)[k].commit);
    var i := PositionAt(events, k);
  }

  /** The selected events, one for each place there is in the document. */
  lemma {:induction false} PositionsExact(events: seq<Event>, n: nat)
    requires n <= |events|
    ensures Positions(events[..n]) <= Positions(events)
    ensures n < |events| ==>
              Positions(events[..n + 1]) == Positions(events[..n]) + if events[n].isPosition then [events[n]] else []
  {
    if n > 0 {
      PositionsExact(events[1..], n - 1);
      assert events[..n][1..] == events[1..][..n - 1];
      if n < |events| {
        assert events[..n + 1][1..] == events[1..][..n];
      }
    } else if events != [] {
      assert events[..1] == [events[0]];
    }
  }

  lemma {:induction false} ListingNext(events: seq<Event>, n: nat)
    requires n < |events|
    ensures Listing(events[..n + 1]) == Listing(events[..n]) + if events[n].isListing then [events[n]] else []
  {
    if n > 0 {
      ListingNext(events[1..], n - 1);
      assert events[..n][1..] == events[1..][..n - 1];
      assert events[..n + 1][1..] == events[1..][..n];
    } else {
      assert events[..1] == [events[0]];
    }
  }

  /** Whole without a cut, or at one that names no position. */
  lemma UncutIsWhole(events: seq<Event>, cut: Option<int>)
    requires cut.None? || cut.value < 0 || cut.value >= |Positions(events)|
    ensures CutAt(events, cut) == events
  {
  }

  /** Where each of five stretches is in their concatenation. */
  lemma StretchesInOrder<T>(a: seq<T>, b: seq<T>, c: seq<T>, d: seq<T>, e: seq<T>)
    ensures var all := a + b + c + d + e;
            && |all| == |a| + |b| + |c| + |d| + |e|
            && (forall i | 0 <= i < |a| :: all[i] == a[i])
            && (forall i | 0 <= i < |b| :: all[|a| + i] == b[i])
            && (forall i | 0 <= i < |c| :: all[|a| + |b| + i] == c[i])
            && (forall i | 0 <= i < |d| :: all[|a| + |b| + |c| + i] == d[i])
            && (forall i | 0 <= i < |e| :: all[|a| + |b| + |c| + |d| + i] == e[i])
  {
  }

  /** A frame in order: whether to debug, that the plane is local, each listing
      event shown, what is subscribed to, each event shown if the run is named
      there, and last that the replay is complete. */
  lemma FrameInOrder(events: seq<Event>, runAggregate: string, subscribe: Subscribe, cut: Option<int>)
    ensures var frame, shown := TraceFrame(events, runAggregate, subscribe, cut), CutAt(events, cut);
            var inputs, listing := frame.inputs, Listing(shown);
            var told := if runAggregate in subscribe.aggregates then |shown| else 0;
            && frame.generation == subscribe.generation
            && (shown == [] ==> frame.cursor == 0)
            && |inputs| == |listing| + told + 4
            && inputs[0] == Debug(subscribe.debug) && inputs[1] == Local
            && (forall i | 0 <= i < |listing| :: inputs[2 + i] == Listed(listing[i]))
            && inputs[2 + |listing|] == Subscriptions(subscribe.aggregates)
            && (forall i | 0 <= i < told :: inputs[3 + |listing| + i] == Delivered(shown[i]))
            && inputs[3 + |listing| + told] == ReplayComplete(CheckedIds(shown))
  {
    var shown := CutAt(events, cut);
    var listing := Listing(shown);
    var start, subscribed := [Debug(subscribe.debug), Local], [Subscriptions(subscribe.aggregates)];
    var delivered := if runAggregate in subscribe.aggregates then DeliveredInputs(shown) else [];
    var end := [ReplayComplete(CheckedIds(shown))];
    StretchesInOrder(start, ListedInputs(listing), subscribed, delivered, end);
  }

  // ----- cutting again -----

  lemma {:induction false} PositionsOfCut(events: seq<Event>, commit: nat)
    ensures Positions(UpTo(events, commit)) == UpTo(Positions(events), commit)
  {
    if events != [] {
      PositionsOfCut(events[1..], commit);
    }
  }

  lemma {:induction false} UpToTwice(events: seq<Event>, later: nat, earlier: nat)
    requires earlier <= later
    ensures UpTo(UpTo(events, later), earlier) == UpTo(events, earlier)
  {
    if events != [] {
      UpToTwice(events[1..], later, earlier);
    }
  }

  lemma {:induction false} PositionsInOrder(events: seq<Event>)
    requires InCommitOrder(events)
    ensures InCommitOrder(Positions(events))
  {
    if events != [] {
      PositionsInOrder(events[1..]);
      forall j | 0 <= j < |Positions(events[1..])| ensures events[0].commit <= Positions(events[1..])[j].commit {
        var i := PositionAt(events[1..], j);
        assert events[1..][i] == events[i + 1];
      }
    }
  }

  /** A cut document cut again at an earlier position is the document cut there:
      the positions a cut keeps are the document's own. */
  lemma RecutIsCut(events: seq<Event>, later: nat, earlier: nat)
    requires InCommitOrder(events) && earlier <= later < |Positions(events)|
    ensures CutAt(CutAt(events, Some(later)), Some(earlier)) == CutAt(events, Some(earlier))
    ensures CutAt(events, Some(earlier)) <= CutAt(events, Some(later))
  {
    var positions := Positions(events);
    var last, first := positions[later].commit, positions[earlier].commit;
    PositionsInOrder(events);
    PositionsOfCut(events, last);
    UpToIsPrefix(positions, last);
    UpToTwice(events, last, first);
    UpToIsPrefix(events, last);
    UpToIsPrefix(events, first);
    var n, m := |UpTo(events, first)|, |UpTo(events, last)|;
    assert n == 0 || events[n - 1].commit <= first;
    assert events[..n] <= events[..m];
  }

  // ----- the aggregates a cut checks -----

  lemma {:induction false} UniqueExact(values: seq<string>)
    ensures forall v :: v in Unique(values) <==> v in values
    ensures forall i, j | 0 <= i < j < |Unique(values)| :: Unique(values)[i] != Unique(values)[j]
  {
    if values != [] {
      UniqueExact(values[..|values| - 1]);
      assert values == values[..|values| - 1] + [values[|values| - 1]];
    }
  }

  lemma {:induction false} UniqueGrows(values: seq<string>, n: nat)
    requires n <= |values|
    ensures Unique(values[..n]) <= Unique(values)
  {
    if n < |values| {
      UniqueGrows(values[..|values| - 1], n);
      assert values[..|values| - 1][..n] == values[..n];
    } else {
      assert values[..n] == values;
    }
  }

  lemma {:induction false} ReferencesExact(events: seq<Event>)
    ensures forall v :: v in References(events) <==> exists i | 0 <= i < |events| :: v in events[i].references
  {
    if events != [] {
      ReferencesExact(events[..|events| - 1]);
    }
  }

  lemma {:induction false} ReferencesGrow(events: seq<Event>, n: nat)
    requires n <= |events|
    ensures References(events[..n]) <= References(events)
  {
    if n < |events| {
      ReferencesGrow(events[..|events| - 1], n);
      assert events[..|events| - 1][..n] == events[..n];
    } else {
      assert events[..n] == events;
    }
  }

  lemma {:induction false} ListingExact(events: seq<Event>)
    ensures forall event :: event in Listing(events) <==> event in events && event.isListing
  {
    if events != [] {
      ListingExact(events[1..]);
      assert events == [events[0]] + events[1..];
    }
  }

  lemma {:induction false} ListingGrows(events: seq<Event>, n: nat)
    requires n <= |events|
    ensures Listing(events[..n]) <= Listing(events)
  {
    if n > 0 {
      ListingGrows(events[1..], n - 1);
      assert events[..n][1..] == events[1..][..n - 1];
    }
  }

  /** The ids a frame checks are each checked once, are exactly those its listing
      names, and only grow as the cut moves on. */
  lemma CheckedIdsExact(events: seq<Event>, n: nat)
    requires n <= |events|
    ensures var checked := CheckedIds(events);
            && (forall i, j | 0 <= i < j < |checked| :: checked[i] != checked[j])
            && (forall v :: v in checked <==>
                  exists event :: event in events && event.isListing && v in event.references)
            && CheckedIds(events[..n]) <= checked
  {
    var listing := Listing(events);
    ListingExact(events);
    ReferencesExact(listing);
    UniqueExact(References(listing));
    forall v
      ensures v in References(listing) <==>
              exists event :: event in events && event.isListing && v in event.references
    {
      if event :| event in events && event.isListing && v in event.references {
        assert event in listing;
        var i :| 0 <= i < |listing| && listing[i] == event;
        assert v in listing[i].references;
      }
      if v in References(listing) {
        var i :| 0 <= i < |listing| && v in listing[i].references;
        assert listing[i] in listing;
      }
    }
    ListingGrows(events, n);
    var m := |Listing(events[..n])|;
    assert Listing(events[..n]) == listing[..m];
    ReferencesGrow(listing, m);
    var r := |References(listing[..m])|;
    assert References(listing[..m]) == References(listing)[..r];
    UniqueGrows(References(listing), r);
  }
}

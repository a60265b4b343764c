/** The rules a history meets before a turn may send it: every calling
    assistant is answered by the next message, completely and in call order. */
module PreparedHistory {
  import opened Wrappers
  import opened Messages
  import opened Sequences

  datatype IssueKind = UnansweredCalls | OrphanResults
  datatype Issue = Issue(index: nat, kind: IssueKind)

  predicate Calling(message: Message) {
    message.Assistant? && LocalCalls(message.content) != []
  }

  /** One complete group: `calls` results, numbered in call order. */
  predicate Answers(message: Message, calls: nat) {
    && message.Tool?
    && |message.results| == calls
    && forall k | 0 <= k < |message.results| :: message.results[k].callOrdinal == k
  }

  /** What is wrong with message `i`, read off its two neighbours. */
  function IssueAt(messages: seq<Message>, i: nat): Option<IssueKind>
    requires i < |messages|
  {
    if Calling(messages[i]) then
      if i + 1 < |messages| && Answers(messages[i + 1], |LocalCalls(messages[i].content)|)
      then None else Some(UnansweredCalls)
    else if messages[i].Tool? then
      if i > 0 && Calling(messages[i - 1]) then None else Some(OrphanResults)
    else None
  }

  function IssueIf(messages: seq<Message>, i: nat): seq<Issue>
    requires i < |messages|
  {
    match IssueAt(messages, i)
    case None => []
    case Some(kind) => [Issue(i, kind)]
  }

  /** The issues of the first `n` messages, in message order. */
  function IssuesUpTo(messages: seq<Message>, n: nat): seq<Issue>
    requires n <= |messages|
  {
    if n == 0 then [] else IssuesUpTo(messages, n - 1) + IssueIf(messages, n - 1)
  }

  function PreparedIssues(messages: seq<Message>): seq<Issue> {
    IssuesUpTo(messages, |messages|)
  }

  predicate Sendable(messages: seq<Message>) {
    PreparedIssues(messages) == []
  }

  method CheckPreparedHistory(messages: seq<Message>) returns (issues: seq<Issue>)
    ensures issues == PreparedIssues(messages)
  {
    issues := [];
    for index := 0 to |messages|
      invariant issues == IssuesUpTo(messages, index)
    {
      var message := messages[index];
      match message
      case Assistant(_, content) =>
        var calls := LocalCalls(content);
        if |calls| == 0 {
          continue;
        }
        var answered := false;
        if index + 1 < |messages| && messages[index + 1].Tool? {
          var results := messages[index + 1].results;
          answered :=
            |results| == |calls|
            && forall ordinal | 0 <= ordinal < |results| :: results[ordinal].callOrdinal == ordinal;
        }
        if !answered {
          issues := issues + [Issue(index, UnansweredCalls)];
        }
      case Tool(_) =>
        var follows := false;
        if index > 0 && messages[index - 1].Assistant? {
          var content := messages[index - 1].content;
          follows := exists part | part in content :: part.LocalCallPart?;
          LocalCallsIffSome(content);
        }
        if !follows {
          issues := issues + [Issue(index, OrphanResults)];
        }
      case _ =>
    }
  }

  /** At most one issue a message, listed in message order, and exactly at the
      messages whose neighbours break the rule. */
  lemma {:induction false} IssuesExact(messages: seq<Message>, n: nat)
    requires n <= |messages|
    ensures var issues := IssuesUpTo(messages, n);
            && (forall i, j | 0 <= i < j < |issues| :: issues[i].index < issues[j].index)
            && (forall issue :: issue in issues <==>
                                issue.index < n && IssueAt(messages, issue.index) == Some(issue.kind))
  {
    if n > 0 {
      IssuesExact(messages, n - 1);
    }
  }

  lemma {:induction false} SendableIffNoIssueAt(messages: seq<Message>)
    ensures Sendable(messages) <==> forall i: nat | i < |messages| :: IssueAt(messages, i).None?
  {
    IssuesExact(messages, |messages|);
    var issues := PreparedIssues(messages);
    if issues != [] {
      assert issues[0] in issues;
    }
    forall i: nat | i < |messages| && IssueAt(messages, i).Some?
      ensures issues != []
    {
      assert Issue(i, IssueAt(messages, i).value) in issues;
    }
  }

  // ----- composition -----

  /** A cut between a calling assistant and a tool group. */
  predicate CutsExchange(a: seq<Message>, b: seq<Message>) {
    a != [] && b != [] && Calling(a[|a| - 1]) && b[0].Tool?
  }

  function Shifted(issues: seq<Issue>, offset: nat): seq<Issue> {
    seq(|issues|, i requires 0 <= i < |issues| => issues[i].(index := issues[i].index + offset))
  }

  lemma IssueIfIsLocal(a: seq<Message>, b: seq<Message>, i: nat)
    requires i < |a| + |b| && !CutsExchange(a, b)
    ensures IssueIf(a + b, i) == if i < |a| then IssueIf(a, i) else Shifted(IssueIf(b, i - |a|), |a|)
  {
    assert IssueAt(a + b, i) == if i < |a| then IssueAt(a, i) else IssueAt(b, i - |a|);
  }

  lemma ShiftedConcat(x: seq<Issue>, y: seq<Issue>, offset: nat)
    ensures Shifted(x + y, offset) == Shifted(x, offset) + Shifted(y, offset)
  {
  }

  lemma {:induction false} IssuesPrefix(a: seq<Message>, b: seq<Message>, n: nat)
    requires n <= |a| && !CutsExchange(a, b)
    ensures IssuesUpTo(a + b, n) == IssuesUpTo(a, n)
  {
    if n > 0 {
      IssuesPrefix(a, b, n - 1);
      IssueIfIsLocal(a, b, n - 1);
    }
  }

  lemma {:induction false} IssuesSplit(a: seq<Message>, b: seq<Message>, n: nat)
    requires n <= |b| && !CutsExchange(a, b)
    ensures IssuesUpTo(a + b, |a| + n) == PreparedIssues(a) + Shifted(IssuesUpTo(b, n), |a|)
  {
    if n == 0 {
      IssuesPrefix(a, b, |a|);
    } else {
      IssuesSplit(a, b, n - 1);
      IssueIfIsLocal(a, b, |a| + n - 1);
      ShiftedConcat(IssuesUpTo(b, n - 1), IssueIf(b, n - 1), |a|);
      ConcatAssociative(
        PreparedIssues(a), Shifted(IssuesUpTo(b, n - 1), |a|), Shifted(IssueIf(b, n - 1), |a|));
    }
  }

  /** The verdict composes over a cut exactly when the cut does not fall
      between a calling assistant and a tool group. */
  lemma {:induction false} IssuesCompose(a: seq<Message>, b: seq<Message>)
    ensures PreparedIssues(a + b) == PreparedIssues(a) + Shifted(PreparedIssues(b), |a|)
            <==> !CutsExchange(a, b)
  {
    if !CutsExchange(a, b) {
      IssuesSplit(a, b, |b|);
    } else {
      // Alone, the group is an orphan; behind its assistant it is not.
      var orphan := Issue(0, OrphanResults);
      IssuesExact(b, |b|);
      assert orphan in PreparedIssues(b);
      var k :| 0 <= k < |PreparedIssues(b)| && PreparedIssues(b)[k] == orphan;
      assert Shifted(PreparedIssues(b), |a|)[k] == Issue(|a|, OrphanResults);
      IssuesExact(a + b, |a + b|);
      assert IssueAt(a + b, |a|) == None;
      assert Issue(|a|, OrphanResults) !in PreparedIssues(a + b);
    }
  }

  /** A cut outside an exchange leaves both sides as sendable as the whole; a
      cut inside one leaves neither side sendable. */
  lemma {:induction false} CutSendable(a: seq<Message>, b: seq<Message>)
    ensures !CutsExchange(a, b) ==> (Sendable(a + b) <==> Sendable(a) && Sendable(b))
    ensures CutsExchange(a, b) ==> !Sendable(a) && !Sendable(b)
  {
    if !CutsExchange(a, b) {
      IssuesCompose(a, b);
    } else {
      SendableIffNoIssueAt(a);
      SendableIffNoIssueAt(b);
      assert IssueAt(a, |a| - 1).Some? && IssueAt(b, 0).Some?;
    }
  }

  // ----- the rule as a one-pass automaton over unanswered calls -----

  /** The calls a message leaves unanswered. */
  function Opens(message: Message): nat {
    if message.Assistant? then |LocalCalls(message.content)| else 0
  }

  /** From `pending` unanswered calls, the rest answers each before going on. */
  predicate Accepts(messages: seq<Message>, pending: nat)
    decreases |messages|
  {
    if messages == [] then pending == 0
    else if pending > 0 then Answers(messages[0], pending) && Accepts(messages[1..], 0)
    else !messages[0].Tool? && Accepts(messages[1..], Opens(messages[0]))
  }

  lemma {:induction false} SendableIffAccepted(messages: seq<Message>)
    ensures Sendable(messages) <==> Accepts(messages, 0)
    decreases |messages|
  {
    SendableIffNoIssueAt(messages);
    if messages == [] || messages[0].Tool? {
      if messages != [] {
        assert IssueAt(messages, 0).Some?;
      }
    } else if Calling(messages[0]) {
      if |messages| > 1 && Answers(messages[1], Opens(messages[0])) {
        var exchange, rest := messages[..2], messages[2..];
        assert messages == exchange + rest;
        CutSendable(exchange, rest);
        SendableIffNoIssueAt(exchange);
        SendableIffAccepted(rest);
        assert messages[1..][1..] == rest;
      } else {
        assert IssueAt(messages, 0).Some?;
      }
    } else {
      assert messages == messages[..1] + messages[1..];
      CutSendable(messages[..1], messages[1..]);
      SendableIffNoIssueAt(messages[..1]);
      SendableIffAccepted(messages[1..]);
    }
  }

  // ----- the rule as a grammar -----

  datatype Unit = Single(message: Message) | Exchange(caller: Message, group: Message)

  predicate WellFormed(u: Unit) {
    match u
    case Single(message) => !message.Tool? && !Calling(message)
    case Exchange(caller, group) => Calling(caller) && Answers(group, Opens(caller))
  }

  function Flat(units: seq<Unit>): seq<Message> {
    if units == [] then []
    else
      (match units[0]
       case Single(message) => [message]
       case Exchange(caller, group) => [caller, group]) + Flat(units[1..])
  }

  lemma {:induction false} FlatUnitsAccepted(units: seq<Unit>)
    requires forall u | u in units :: WellFormed(u)
    ensures Accepts(Flat(units), 0)
  {
    if units != [] {
      FlatUnitsAccepted(units[1..]);
      var rest := Flat(units[1..]);
      assert WellFormed(units[0]);
      match units[0]
      case Single(message) =>
        assert Flat(units)[1..] == rest;
      case Exchange(caller, group) =>
        assert Flat(units)[1..] == [group] + rest;
        assert ([group] + rest)[1..] == rest;
    }
  }

  lemma {:induction false} ParseUnits(messages: seq<Message>) returns (units: seq<Unit>)
    requires Accepts(messages, 0)
    ensures forall u | u in units :: WellFormed(u)
    ensures Flat(units) == messages
    decreases |messages|
  {
    if messages == [] {
      units := [];
    } else if Calling(messages[0]) {
      var rest := ParseUnits(messages[1..][1..]);
      units := [Exchange(messages[0], messages[1])] + rest;
    } else {
      var rest := ParseUnits(messages[1..]);
      units := [Single(messages[0])] + rest;
    }
  }

  /** A history passes exactly when it reads as users, system texts, call-free
      assistants, and calling assistants each with its complete group. */
  lemma SendableIffUnits(messages: seq<Message>)
    ensures Sendable(messages) <==>
            exists units :: (forall u | u in units :: WellFormed(u)) && Flat(units) == messages
  {
    SendableIffAccepted(messages);
    if Sendable(messages) {
      var units := ParseUnits(messages);
    }
    forall units | (forall u | u in units :: WellFormed(u)) && Flat(units) == messages
      ensures Sendable(messages)
    {
      FlatUnitsAccepted(units);
    }
  }

  // ----- calls and results -----

  /** A call with the result that answers it; the arguments byte for byte. */
  datatype Exchanged = Exchanged(
    providerCallId: string, name: string, argumentsText: string, result: ToolResult)

  function Pairs(calls: seq<LocalCall>, results: seq<ToolResult>): seq<Exchanged>
  {
    if calls == [] || results == [] then []
    else
      [Exchanged(calls[0].providerCallId, calls[0].name, calls[0].argumentsText, results[0])]
      + Pairs(calls[1..], results[1..])
  }

  /** The pairs read from each assistant and the tool group right behind it. */
  function Exchanges(messages: seq<Message>): seq<Exchanged> {
    if |messages| < 2 then []
    else
      (if messages[0].Assistant? && messages[1].Tool?
       then Pairs(LocalCalls(messages[0].content), messages[1].results) else [])
      + Exchanges(messages[1..])
  }

  function AllCalls(messages: seq<Message>): seq<LocalCall>
  {
    if messages == [] then []
    else (if messages[0].Assistant? then LocalCalls(messages[0].content) else [])
         + AllCalls(messages[1..])
  }

  function AllResults(messages: seq<Message>): seq<ToolResult> {
    if messages == [] then []
    else (if messages[0].Tool? then messages[0].results else []) + AllResults(messages[1..])
  }

  lemma {:induction false} PairsConcat(
    calls: seq<LocalCall>, results: seq<ToolResult>, moreCalls: seq<LocalCall>, moreResults: seq<ToolResult>)
    requires |calls| == |results|
    ensures Pairs(calls + moreCalls, results + moreResults) ==
            Pairs(calls, results) + Pairs(moreCalls, moreResults)
  {
    if calls == [] {
      assert calls + moreCalls == moreCalls && results + moreResults == moreResults;
    } else {
      PairsConcat(calls[1..], results[1..], moreCalls, moreResults);
      assert (calls + moreCalls)[1..] == calls[1..] + moreCalls;
      assert (results + moreResults)[1..] == results[1..] + moreResults;
    }
  }

  lemma ExchangeFirst(messages: seq<Message>)
    requires |messages| >= 2 && Calling(messages[0]) && messages[1].Tool?
    ensures AllCalls(messages) == LocalCalls(messages[0].content) + AllCalls(messages[2..])
    ensures AllResults(messages) == messages[1].results + AllResults(messages[2..])
    ensures Exchanges(messages) ==
            Pairs(LocalCalls(messages[0].content), messages[1].results) + Exchanges(messages[2..])
  {
    assert messages[1..][1..] == messages[2..];
    assert AllCalls(messages[1..]) == AllCalls(messages[2..]);
    assert Exchanges(messages[1..]) == Exchanges(messages[2..]);
  }

  /** In a sendable history the exchanges pair all of the calls with all of the
      results, each once and in order: a bijection. */
  lemma {:induction false} ResultsMatchCalls(messages: seq<Message>)
    requires Sendable(messages)
    ensures |AllCalls(messages)| == |AllResults(messages)|
    ensures Exchanges(messages) == Pairs(AllCalls(messages), AllResults(messages))
  {
    SendableIffAccepted(messages);
    AcceptedMatch(messages);
  }

  lemma {:induction false} AcceptedMatch(messages: seq<Message>)
    requires Accepts(messages, 0)
    ensures |AllCalls(messages)| == |AllResults(messages)|
    ensures Exchanges(messages) == Pairs(AllCalls(messages), AllResults(messages))
    decreases |messages|
  {
    if messages == [] {
    } else if Calling(messages[0]) {
      assert messages[1..][1..] == messages[2..];
      AcceptedMatch(messages[2..]);
      ExchangeFirst(messages);
      PairsConcat(LocalCalls(messages[0].content), messages[1].results,
                  AllCalls(messages[2..]), AllResults(messages[2..]));
    } else {
      AcceptedMatch(messages[1..]);
      assert AllCalls(messages) == AllCalls(messages[1..]);
      assert AllResults(messages) == AllResults(messages[1..]);
      assert Exchanges(messages) == Exchanges(messages[1..]);
    }
  }
}

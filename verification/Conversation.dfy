/** Conversations: how a history grows turn by turn, and what always holds of it. */
module Conversation {
  import opened Wrappers
  import opened Protocols
  import opened Messages
  import opened PreparedHistory
  import opened Replay
  import opened ReplayValidity
  import opened ReplayLaws
  import opened ResponsesLowering
  import opened ResponsesWire
  import opened ResponsesRequests
  import opened TurnResults

  datatype Outcome = Outcome(status: ToolStatus, content: seq<InputPart>)

  datatype Event =
    | Asked(input: seq<InputPart>)
    | Instructed(text: string)
    | Generated(result: TurnResult)
    | Answered(outcomes: seq<Outcome>)

  /** One result for each outcome, numbered in call order. */
  function ToolGroup(outcomes: seq<Outcome>): Message {
    Tool(seq(|outcomes|, i requires 0 <= i < |outcomes| =>
      ToolResult(i, outcomes[i].status, outcomes[i].content)))
  }

  function MessageOf(event: Event): Message {
    match event
    case Asked(input) => User(input)
    case Instructed(text) => System(text)
    case Generated(result) => AssistantMessage(result)
    case Answered(outcomes) => ToolGroup(outcomes)
  }

  function History(events: seq<Event>): seq<Message> {
    seq(|events|, i requires 0 <= i < |events| => MessageOf(events[i]))
  }

  /** The calls of the last message, which nothing has answered yet. */
  function Pending(history: seq<Message>): nat {
    if history == [] then 0 else Opens(history[|history| - 1])
  }

  /** A turn is asked for on a history; its result passes its check; its calls
      are answered, each once, before anything else is said. */
  ghost predicate Enabled(history: seq<Message>, event: Event) {
    match event
    case Asked(input) => Pending(history) == 0 && input != []
    case Instructed(text) => Pending(history) == 0 && text != ""
    case Generated(result) => Pending(history) == 0 && history != [] && Sound(result)
    case Answered(outcomes) => Pending(history) > 0 && |outcomes| == Pending(history)
  }

  ghost predicate IsRun(events: seq<Event>)
    decreases |events|
  {
    events != [] ==>
      var before := events[..|events| - 1];
      IsRun(before) && Enabled(History(before), events[|events| - 1])
  }

  /** Between turns the history is sendable; while calls are open, the one
      thing wrong with it is that they are. */
  ghost predicate InOrder(history: seq<Message>) {
    && AllAdmitted(history)
    && (history != [] ==> !history[0].Assistant?)
    && PreparedIssues(history) ==
       if Pending(history) == 0 then [] else [Issue(|history| - 1, UnansweredCalls)]
  }

  lemma OneMessage(message: Message)
    ensures PreparedIssues([message]) ==
            if Calling(message) then [Issue(0, UnansweredCalls)]
            else if message.Tool? then [Issue(0, OrphanResults)]
            else []
  {
    assert IssuesUpTo([message], 1) == IssuesUpTo([message], 0) + IssueIf([message], 0);
  }

  lemma NextInOrder(history: seq<Message>, message: Message)
    requires InOrder(history) && Admitted(message)
    requires Pending(history) == 0 && !message.Tool? && (history == [] ==> !message.Assistant?)
    ensures InOrder(history + [message])
  {
    IssuesCompose(history, [message]);
    OneMessage(message);
    assert Shifted([Issue(0, UnansweredCalls)], |history|) == [Issue(|history|, UnansweredCalls)];
  }

  /** Taken back to before its open calls, the history is sendable. */
  lemma BeforeCaller(earlier: seq<Message>, caller: Message)
    requires InOrder(earlier + [caller]) && Calling(caller)
    ensures Sendable(earlier)
  {
    IssuesCompose(earlier, [caller]);
    OneMessage(caller);
    assert |PreparedIssues(earlier + [caller])| == |PreparedIssues(earlier)| + 1;
  }

  lemma ExchangeSendable(caller: Message, group: Message)
    requires Calling(caller) && Answers(group, Opens(caller))
    ensures Sendable([caller, group])
  {
    SendableIffNoIssueAt([caller, group]);
  }

  lemma AnswerSendable(earlier: seq<Message>, caller: Message, group: Message)
    requires InOrder(earlier + [caller])
    requires Calling(caller) && Answers(group, Opens(caller))
    ensures Sendable(earlier + [caller, group])
  {
    BeforeCaller(earlier, caller);
    ExchangeSendable(caller, group);
    CutSendable(earlier, [caller, group]);
  }

  lemma AnsweredInOrder(history: seq<Message>, group: Message)
    requires InOrder(history) && Admitted(group)
    requires Pending(history) > 0 && Answers(group, Pending(history))
    ensures InOrder(history + [group])
  {
    var earlier, caller := history[..|history| - 1], history[|history| - 1];
    assert history == earlier + [caller];
    AnswerSendable(earlier, caller, group);
    assert history + [group] == earlier + [caller, group];
  }

  lemma EventAdmitted(history: seq<Message>, event: Event)
    requires Enabled(history, event)
    ensures Admitted(MessageOf(event))
    ensures if event.Answered? then Pending(history) > 0 && Answers(MessageOf(event), Pending(history))
            else && Pending(history) == 0 && !MessageOf(event).Tool?
                 && (history == [] ==> !MessageOf(event).Assistant?)
  {
  }

  lemma {:induction false} RunInOrder(events: seq<Event>)
    requires IsRun(events)
    ensures InOrder(History(events))
    decreases |events|
  {
    if events == [] {
      assert History(events) == [];
    } else {
      var before, event := events[..|events| - 1], events[|events| - 1];
      RunInOrder(before);
      EventAdmitted(History(before), event);
      assert History(events) == History(before) + [MessageOf(event)];
      if event.Answered? {
        AnsweredInOrder(History(before), MessageOf(event));
      } else {
        NextInOrder(History(before), MessageOf(event));
      }
    }
  }

  /** Every moment of a run is the end of a run. */
  lemma {:induction false} RunPrefix(events: seq<Event>, n: nat)
    requires IsRun(events) && n <= |events|
    ensures IsRun(events[..n])
    decreases |events|
  {
    if n == |events| {
      assert events[..n] == events;
    } else {
      RunPrefix(events[..|events| - 1], n);
      assert events[..|events| - 1][..n] == events[..n];
    }
  }

  /** What a turn may be sent: not empty, schema-valid, every call answered. */
  ghost predicate TurnReady(history: seq<Message>) {
    history != [] && AllAdmitted(history) && Sendable(history)
  }

  /** Whenever a run has no call open, its history can be sent, and so can its
      replay for whatever model the next turn is bound to. Every moment of a run
      is the end of a run (`RunPrefix`), so this holds at each of them. */
  lemma RunsStaySendable(events: seq<Event>, turn: ModelOrigin)
    requires IsRun(events) && events != [] && Pending(History(events)) == 0
    ensures TurnReady(History(events))
    ensures TurnReady(Replayed(History(events), turn))
  {
    var history := History(events);
    RunInOrder(events);
    ReplayKeepsSendable(history, turn);
    ReplayKeepsAdmitted(history, turn);
    ReplayEmptyIff(history, turn);
    assert Slot(history[0], turn).Some?;
  }

  /** So whatever Responses request is built then, it makes the conversation's
      calls and answers each with its own result. */
  lemma RunsAnswerTheirCalls(events: seq<Event>, turn: ModelOrigin, config: Config, items: seq<Item>)
    requires IsRun(events) && events != [] && Pending(History(events)) == 0
    requires LowerAll(Replayed(History(events), turn), turn, config, []) == Ok(items)
    ensures Settles(items, Exchanges(History(events)), config)
  {
    RunsStaySendable(events, turn);
    RequestAnswersItsCalls(History(events), turn, config, items);
  }

  // ----- a request, on what was said -----

  /** The calls a conversation's turns made, in order. */
  function CallsMade(events: seq<Event>): seq<LocalCall> {
    if events == [] then []
    else (if events[0].Generated? then LocalCalls(events[0].result.content) else []) + CallsMade(events[1..])
  }

  /** The outcomes its answers gave, in order. */
  function OutcomesGiven(events: seq<Event>): seq<Outcome> {
    if events == [] then []
    else (if events[0].Answered? then events[0].outcomes else []) + OutcomesGiven(events[1..])
  }

  lemma {:induction false} HistoryHolds(events: seq<Event>)
    ensures AllCalls(History(events)) == CallsMade(events)
    ensures var results, outcomes := AllResults(History(events)), OutcomesGiven(events);
            && |results| == |outcomes|
            && forall k | 0 <= k < |results| ::
                 results[k].status == outcomes[k].status && results[k].content == outcomes[k].content
  {
    if events != [] {
      HistoryHolds(events[1..]);
      assert History(events) == [MessageOf(events[0])] + History(events[1..]);
    }
  }

  /** One item makes the call, the other tells its outcome under its id. */
  predicate Carries(made: Item, sent: Item, call: LocalCall, outcome: Outcome, config: Config) {
    && made.CallItem?
    && made.callId == Some(call.providerCallId)
    && made.name == call.name
    && made.arguments == call.argumentsText
    && sent.CallOutputItem?
    && sent.callId == Some(call.providerCallId)
    && ResultTold(sent.output, ToolResult(0, outcome.status, outcome.content), config)
  }

  lemma PairCarried(
    made: Item, sent: Item, call: LocalCall, result: ToolResult, outcome: Outcome, config: Config)
    requires var pair := Exchanged(call.providerCallId, call.name, call.argumentsText, result);
             Makes(made, pair) && Delivers(sent, pair, config)
    requires result.status == outcome.status && result.content == outcome.content
    ensures Carries(made, sent, call, outcome, config)
  {
  }

  /** Whatever Responses request is built when no call is open makes the calls
      the turns made, in order, and tells the k-th outcome given under the k-th
      call's id: from the events alone to the items sent. */
  lemma RequestTellsOutcomes(events: seq<Event>, turn: ModelOrigin, config: Config, items: seq<Item>)
    requires IsRun(events) && events != [] && Pending(History(events)) == 0
    requires LowerAll(Replayed(History(events), turn), turn, config, []) == Ok(items)
    ensures var calls, outcomes := CallsMade(events), OutcomesGiven(events);
            var made, sent := CallsIn(items), OutputsIn(items);
            && |made| == |sent| == |calls| == |outcomes|
            && forall k | 0 <= k < |calls| :: Carries(made[k], sent[k], calls[k], outcomes[k], config)
  {
    var history := History(events);
    RunsStaySendable(events, turn);
    RunsAnswerTheirCalls(events, turn, config, items);
    ResultsMatchCalls(history);
    HistoryHolds(events);
    var calls, results, outcomes := AllCalls(history), AllResults(history), OutcomesGiven(events);
    PairsAt(calls, results);
    forall k | 0 <= k < |calls|
      ensures Carries(CallsIn(items)[k], OutputsIn(items)[k], calls[k], outcomes[k], config)
    {
      PairCarried(CallsIn(items)[k], OutputsIn(items)[k], calls[k], results[k], outcomes[k], config);
    }
  }

  /** A turn's message, sent back to the model that produced it, is replayed as
      it is, reasoning, evidence and all. */
  lemma OwnTurnReplaysWhole(sent: seq<Message>, result: TurnResult)
    ensures Replayed(sent + [AssistantMessage(result)], result.requestedOrigin) ==
            Replayed(sent, result.requestedOrigin) + [AssistantMessage(result)]
  {
    var turn, message := result.requestedOrigin, AssistantMessage(result);
    var slots := Slots(sent, turn);
    assert Slots(sent + [message], turn) == slots + [Some(message)];
    SqueezeNext(slots, Some(message));
  }

  // ----- the two next requests after a turn -----

  /** The turn and a result for each of its calls. */
  function Answering(sent: seq<Message>, result: TurnResult, content: seq<InputPart>): seq<Message> {
    sent + [AssistantMessage(result),
            ToolGroup(seq(|LocalCalls(result.content)|, _ => Outcome(Success, content)))]
  }

  /** The turn and the user's next text. */
  function FollowingUp(sent: seq<Message>, result: TurnResult, input: seq<InputPart>): seq<Message> {
    sent + [AssistantMessage(result), User(input)]
  }

  /** After a turn, answering its calls makes a sendable request exactly when it
      made some, and following up exactly when it made none. */
  lemma NextRequestSendableIff(sent: seq<Message>, result: TurnResult, content: seq<InputPart>)
    requires Sendable(sent)
    ensures Sendable(Answering(sent, result, content)) <==> LocalCalls(result.content) != []
    ensures Sendable(FollowingUp(sent, result, content)) <==> LocalCalls(result.content) == []
  {
    var turn := AssistantMessage(result);
    var group := ToolGroup(seq(|LocalCalls(result.content)|, _ => Outcome(Success, content)));
    CutSendable(sent, [turn, group]);
    CutSendable(sent, [turn, User(content)]);
    SendableIffNoIssueAt([turn, group]);
    SendableIffNoIssueAt([turn, User(content)]);
    assert IssueAt([turn, group], 1).Some? <==> LocalCalls(result.content) == [];
    assert IssueAt([turn, User(content)], 0).Some? <==> LocalCalls(result.content) != [];
  }
}

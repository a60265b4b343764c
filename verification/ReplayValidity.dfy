/** What replay does to the prepared-history rules. */
module ReplayValidity {
  import opened Wrappers
  import opened Protocols
  import opened Messages
  import opened PreparedHistory
  import opened Replay

  /** The messages replay does not drop, as they were. */
  function Survivors(messages: seq<Message>, turn: ModelOrigin): seq<Message> {
    if messages == [] then []
    else if Slot(messages[0], turn).None? then Survivors(messages[1..], turn)
    else [messages[0]] + Survivors(messages[1..], turn)
  }

  lemma ReplayedFirst(messages: seq<Message>, turn: ModelOrigin)
    requires messages != []
    ensures Replayed(messages, turn) ==
            Attach(Slot(messages[0], turn),
                   |messages| > 1 && Slot(messages[1], turn).None?,
                   Replayed(messages[1..], turn))
  {
    assert Slots(messages, turn)[1..] == Slots(messages[1..], turn);
  }

  lemma {:induction false} PlainKeepsPairs(content: seq<OutputPart>, results: seq<ToolResult>)
    ensures |LocalCalls(Plain(content))| == |LocalCalls(content)|
    ensures Pairs(LocalCalls(Plain(content)), results) == Pairs(LocalCalls(content), results)
  {
    if content != [] {
      var rest := content[1..];
      LocalCallsConcat(PlainPart(content[0]), Plain(rest));
      if content[0].LocalCallPart? {
        var plain := PlainPart(content[0]);
        assert LocalCalls(plain) == plain;
        assert LocalCalls(Plain(content))[1..] == LocalCalls(Plain(rest));
        assert LocalCalls(content)[1..] == LocalCalls(rest);
        PlainKeepsPairs(rest, if results == [] then [] else results[1..]);
      } else {
        assert LocalCalls(PlainPart(content[0])) == [];
        assert LocalCalls(Plain(content)) == LocalCalls(Plain(rest));
        PlainKeepsPairs(rest, results);
      }
    }
  }

  /** Dropped or replayed, a message opens the calls it always did. */
  lemma SlotKeepsCalls(message: Message, turn: ModelOrigin)
    ensures var slot := Slot(message, turn);
            if slot.None? then message.Assistant? && Opens(message) == 0
            else && Opens(slot.value) == Opens(message)
                 && slot.value.Tool? == message.Tool?
                 && (message.Assistant? || slot.value == message)
  {
    if message.Assistant? {
      PlainKeepsPairs(message.content, []);
    }
  }

  lemma {:induction false} SurvivorsAccepted(messages: seq<Message>, turn: ModelOrigin, pending: nat)
    requires Accepts(messages, pending)
    ensures Accepts(Survivors(messages, turn), pending)
    decreases |messages|
  {
    if messages != [] {
      SlotKeepsCalls(messages[0], turn);
      SurvivorsAccepted(messages[1..], turn, if pending > 0 then 0 else Opens(messages[0]));
      if Slot(messages[0], turn).Some? {
        assert Survivors(messages, turn)[1..] == Survivors(messages[1..], turn);
      }
    }
  }

  lemma {:induction false} ReplayedAcceptedIff(messages: seq<Message>, turn: ModelOrigin, pending: nat)
    ensures Accepts(Replayed(messages, turn), pending) <==> Accepts(Survivors(messages, turn), pending)
    decreases |messages|
  {
    if messages != [] {
      ReplayedFirst(messages, turn);
      SlotKeepsCalls(messages[0], turn);
      var rest := Replayed(messages[1..], turn);
      var slot := Slot(messages[0], turn);
      if slot.None? {
        ReplayedAcceptedIff(messages[1..], turn, pending);
      } else {
        ReplayedAcceptedIff(messages[1..], turn, if pending > 0 then 0 else Opens(messages[0]));
        assert Survivors(messages, turn)[1..] == Survivors(messages[1..], turn);
        assert Replayed(messages, turn)[1..] == rest || (rest != [] && Replayed(messages, turn)[1..] == rest[1..]);
      }
    }
  }

  /** Replay is sendable exactly when the messages it keeps are, taken alone. */
  lemma ReplaySendableIff(messages: seq<Message>, turn: ModelOrigin)
    ensures Sendable(Replayed(messages, turn)) <==> Sendable(Survivors(messages, turn))
  {
    SendableIffAccepted(Replayed(messages, turn));
    SendableIffAccepted(Survivors(messages, turn));
    ReplayedAcceptedIff(messages, turn, 0);
  }

  /** A sendable history replays to a sendable one, whatever the turn. */
  lemma ReplayKeepsSendable(messages: seq<Message>, turn: ModelOrigin)
    requires Sendable(messages)
    ensures Sendable(Replayed(messages, turn))
  {
    SendableIffAccepted(messages);
    SurvivorsAccepted(messages, turn, 0);
    SendableIffAccepted(Survivors(messages, turn));
    ReplaySendableIff(messages, turn);
  }

  const A_CALL := Assistant(None, [LocalCallPart("id", "name", "{}", None)])
  const AN_ANSWER := Tool([ToolResult(0, Success, [])])

  function AThought(origin: ModelOrigin): Message {
    Assistant(Some(origin), [ReasoningPart(["thought"], None, None)])
  }

  /** The converse fails: dropping an assistant can bring a result next to its
      call, so a history that may not be sent replays to one that may. */
  lemma ReplayMayMend(turn: ModelOrigin, other: ModelOrigin)
    requires other.protocol == turn.protocol && other != turn
    ensures !Sendable([A_CALL, AThought(other), AN_ANSWER])
    ensures Sendable(Replayed([A_CALL, AThought(other), AN_ANSWER], turn))
  {
    var messages := [A_CALL, AThought(other), AN_ANSWER];
    SendableIffNoIssueAt(messages);
    assert IssueAt(messages, 0).Some?;
    assert Slot(messages[1], turn) == None;
    assert messages[1..] == [AThought(other), AN_ANSWER];
    assert messages[1..][1..] == [AN_ANSWER];
    assert Survivors([AN_ANSWER], turn) == [AN_ANSWER];
    assert Survivors(messages, turn) == [A_CALL, AN_ANSWER];
    assert Accepts([A_CALL, AN_ANSWER], 0) by {
      assert LocalCalls(A_CALL.content) == A_CALL.content;
      assert Accepts([AN_ANSWER], 1);
      assert [A_CALL, AN_ANSWER][1..] == [AN_ANSWER];
    }
    SendableIffAccepted([A_CALL, AN_ANSWER]);
    ReplaySendableIff(messages, turn);
  }

  // ----- calls and their results -----

  lemma ExchangesSkip(messages: seq<Message>)
    requires messages != [] && !Calling(messages[0])
    ensures Exchanges(messages) == Exchanges(messages[1..])
  {
  }

  /** Every pair of a call and its result survives: the same ids, names,
      argument bytes and results, in the same order. */
  lemma ReplayKeepsExchanges(messages: seq<Message>, turn: ModelOrigin)
    requires Sendable(messages)
    ensures Exchanges(Replayed(messages, turn)) == Exchanges(messages)
  {
    SendableIffAccepted(messages);
    AcceptedKeepsExchanges(messages, turn);
  }

  lemma {:induction false} AcceptedKeepsExchanges(messages: seq<Message>, turn: ModelOrigin)
    requires Accepts(messages, 0)
    ensures Exchanges(Replayed(messages, turn)) == Exchanges(messages)
    decreases |messages|
  {
    if messages == [] {
    } else if Calling(messages[0]) {
      var caller, group, rest := messages[0], messages[1], messages[1..][1..];
      assert rest == messages[2..];
      AcceptedKeepsExchanges(rest, turn);
      SlotKeepsCalls(caller, turn);
      PlainKeepsPairs(caller.content, group.results);
      ReplayedFirst(messages, turn);
      ReplayedFirst(messages[1..], turn);
      var replayed := Replayed(messages, turn);
      assert replayed == [Slot(caller, turn).value, group] + Replayed(rest, turn);
      assert replayed[2..] == Replayed(rest, turn);
      ExchangeFirst(messages);
      ExchangeFirst(replayed);
    } else {
      AcceptedKeepsExchanges(messages[1..], turn);
      ExchangesSkip(messages);
      SlotKeepsCalls(messages[0], turn);
      ReplayedFirst(messages, turn);
      var replayed, rest := Replayed(messages, turn), Replayed(messages[1..], turn);
      if Slot(messages[0], turn).Some? {
        ExchangesSkip(replayed);
        if replayed[1..] != rest {
          assert replayed[1..] == rest[1..];
          ExchangesSkip(rest);
        }
      }
    }
  }
}

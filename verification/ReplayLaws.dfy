/** Replaying again, replaying for two turns, and what a replay still shows. */
module ReplayLaws {
  import opened Wrappers
  import opened Protocols
  import opened Messages
  import opened AssistantContent
  import opened Replay
  import opened ReplayValidity
  import opened ReplayOrder
  import opened Sequences

  // ----- when a replay changes nothing -----

  predicate AlreadyPlain(part: OutputPart) {
    match part
    case MessagePart(segments, evidence) =>
      evidence.None? && forall i | 0 <= i < |segments| :: segments[i].TextSegment?
    case ReasoningPart(_, _, _) => false
    case LocalCallPart(_, _, _, evidence) => evidence.None?
  }

  /** An assistant of the turn's protocol and another origin with something to say
      and nothing to strip, or any other message. */
  predicate Untouched(message: Message, turn: ModelOrigin) {
    FromAnotherModel(message, turn) ==>
      message.content != [] && forall i | 0 <= i < |message.content| :: AlreadyPlain(message.content[i])
  }

  lemma PlainPartIsPlain(part: OutputPart)
    ensures forall i | 0 <= i < |PlainPart(part)| :: AlreadyPlain(PlainPart(part)[i])
    ensures AlreadyPlain(part) <==> PlainPart(part) == [part]
  {
    match part
    case MessagePart(segments, _) =>
      if PlainPart(part) == [part] {
        assert segments == PlainSegments(segments);
      } else if AlreadyPlain(part) {
        assert segments == PlainSegments(segments);
      }
    case ReasoningPart(_, _, _) =>
    case LocalCallPart(_, _, _, _) =>
  }

  lemma {:induction false} PlainIsPlain(content: seq<OutputPart>)
    ensures |Plain(content)| <= |content|
    ensures forall i | 0 <= i < |Plain(content)| :: AlreadyPlain(Plain(content)[i])
    ensures Plain(content) == content <==> forall i | 0 <= i < |content| :: AlreadyPlain(content[i])
  {
    if content != [] {
      PlainIsPlain(content[1..]);
      var plain := PlainPart(content[0]);
      PlainPartIsPlain(content[0]);
      assert content == [content[0]] + content[1..];
      if Plain(content) == content {
        assert plain != [];
        assert content[1..] == Plain(content)[1..] == Plain(content[1..]);
      }
    }
  }

  lemma SlotKeepsIffUntouched(message: Message, turn: ModelOrigin)
    ensures Slot(message, turn) == Some(message) <==> Untouched(message, turn)
    ensures Slot(message, turn).Some? ==> Untouched(Slot(message, turn).value, turn)
  {
    SwitchedIffFromAnotherModel(message, turn);
    if message.Assistant? {
      PlainIsPlain(message.content);
    }
  }

  lemma {:induction false} NoGaps(slots: seq<Option<Message>>)
    requires forall i | 0 <= i < |slots| :: slots[i].Some?
    ensures |Squeeze(slots)| == |slots|
    ensures forall i | 0 <= i < |slots| :: Squeeze(slots)[i] == slots[i].value
  {
    if slots != [] {
      NoGaps(slots[1..]);
    }
  }

  lemma {:induction false} GapsCounted(slots: seq<Option<Message>>, n: nat)
    requires n <= |slots| && Tally(slots, n, Fate.Dropped) == 0
    ensures forall i | 0 <= i < n :: slots[i].Some?
  {
    if n > 0 {
      GapsCounted(slots, n - 1);
    }
  }

  /** A replay is the history itself exactly when every message is untouched. */
  lemma ReplayFixpoint(messages: seq<Message>, turn: ModelOrigin)
    ensures Replayed(messages, turn) == messages <==>
            forall i | 0 <= i < |messages| :: Untouched(messages[i], turn)
  {
    var slots := Slots(messages, turn);
    forall i | 0 <= i < |messages| ensures slots[i] == Some(messages[i]) <==> Untouched(messages[i], turn) {
      SlotKeepsIffUntouched(messages[i], turn);
    }
    if forall i | 0 <= i < |messages| :: Untouched(messages[i], turn) {
      NoGaps(slots);
    }
    if Replayed(messages, turn) == messages {
      ReplayedLength(messages, turn);
      GapsCounted(slots, |slots|);
      NoGaps(slots);
    }
  }

  /** So a history no other model of the turn's protocol took part in replays to
      itself. */
  lemma UnswitchedReplaysToItself(messages: seq<Message>, turn: ModelOrigin)
    requires forall i | 0 <= i < |messages| && messages[i].Assistant? && messages[i].origin.Some? ::
               messages[i].origin.value.protocol != turn.protocol || messages[i].origin.value == turn
    ensures Replayed(messages, turn) == messages
  {
    ReplayFixpoint(messages, turn);
  }

  /** Every message of a replay is a user or some kept message's plain self. */
  lemma {:induction false} ReplayedFrom(messages: seq<Message>, turn: ModelOrigin, k: nat)
    requires k < |Replayed(messages, turn)|
    ensures var m := Replayed(messages, turn)[k];
            m.User? || exists i :: 0 <= i < |messages| && Slot(messages[i], turn) == Some(m)
  {
    ReplayedFirst(messages, turn);
    var m, rest := Replayed(messages, turn)[k], Replayed(messages[1..], turn);
    if !m.User? && Slot(messages[0], turn) != Some(m) {
      assert m in rest;
      var j :| 0 <= j < |rest| && rest[j] == m;
      ReplayedFrom(messages[1..], turn, j);
      var i :| 0 <= i < |messages[1..]| && Slot(messages[1..][i], turn) == Some(m);
      assert messages[i + 1] == messages[1..][i];
    }
  }

  /** Replaying a replay for the same turn changes nothing. */
  lemma ReplayIdempotent(messages: seq<Message>, turn: ModelOrigin)
    ensures Replayed(Replayed(messages, turn), turn) == Replayed(messages, turn)
  {
    var replayed := Replayed(messages, turn);
    forall k | 0 <= k < |replayed| ensures Untouched(replayed[k], turn) {
      ReplayedFrom(messages, turn, k);
      if !replayed[k].User? {
        var i :| 0 <= i < |messages| && Slot(messages[i], turn) == Some(replayed[k]);
        SlotKeepsIffUntouched(messages[i], turn);
      }
    }
    ReplayFixpoint(replayed, turn);
  }

  // ----- two turns -----

  function SlotTwice(message: Message, first: ModelOrigin, second: ModelOrigin): Option<Message> {
    var slot := Slot(message, first);
    if slot.None? then None else Slot(slot.value, second)
  }

  function SlotsTwice(messages: seq<Message>, first: ModelOrigin, second: ModelOrigin): seq<Option<Message>> {
    seq(|messages|, i requires 0 <= i < |messages| => SlotTwice(messages[i], first, second))
  }

  lemma SlotTwiceCommutes(message: Message, first: ModelOrigin, second: ModelOrigin)
    ensures SlotTwice(message, first, second) == SlotTwice(message, second, first)
  {
    if message.Assistant? {
      PlainIsPlain(message.content);
      PlainIsPlain(Plain(message.content));
    }
  }

  lemma AttachToUser(user: seq<InputPart>, more: seq<InputPart>, gap: bool, rest: seq<Message>)
    ensures Attach(Some(User(user)), true, Attach(Some(User(more)), gap, rest)) ==
            Attach(Some(User(user + more)), gap, rest)
  {
    if gap && rest != [] && rest[0].User? {
      ConcatAssociative(user, more, rest[0].input);
    }
  }

  /** Two passes squeeze the union of what each drops. */
  lemma {:induction false} ReplayedTwice(messages: seq<Message>, first: ModelOrigin, second: ModelOrigin)
    ensures Replayed(Replayed(messages, first), second) == Squeeze(SlotsTwice(messages, first, second))
  {
    if messages != [] {
      var rest := messages[1..];
      ReplayedTwice(rest, first, second);
      ReplayedFirst(messages, first);
      var slots := SlotsTwice(messages, first, second);
      assert slots[1..] == SlotsTwice(rest, first, second);
      var once, later := Replayed(messages, first), Replayed(rest, first);
      var slot := Slot(messages[0], first);
      if slot.Some? {
        ReplayedFirst(once, second);
        if later != [] {
          ReplayedFirst(later, second);
        }
        if once == [slot.value] + later {
          assert once[1..] == later;
          if IsUser(slot) && rest != [] {
            ReplayedFirst(rest, first);
          }
        } else {
          assert once[1..] == later[1..];
          AttachToUser(slot.value.input, later[0].input,
                       |later| > 1 && Slot(later[1], second).None?, Replayed(later[1..], second));
        }
      }
    }
  }

  /** For any two turns the two passes commute. */
  lemma ReplaysCommute(messages: seq<Message>, first: ModelOrigin, second: ModelOrigin)
    ensures Replayed(Replayed(messages, first), second) == Replayed(Replayed(messages, second), first)
  {
    ReplayedTwice(messages, first, second);
    ReplayedTwice(messages, second, first);
    forall i | 0 <= i < |messages|
      ensures SlotTwice(messages[i], first, second) == SlotTwice(messages[i], second, first)
    {
      SlotTwiceCommutes(messages[i], first, second);
    }
    assert SlotsTwice(messages, first, second) == SlotsTwice(messages, second, first);
  }

  // ----- replaying a longer history -----

  lemma AttachConcat(slot: Option<Message>, gap: bool, rest: seq<Message>, more: seq<Message>)
    requires rest != []
    ensures Attach(slot, gap, rest + more) == Attach(slot, gap, rest) + more
    ensures var whole := Attach(slot, gap, rest);
            whole != [] && (!rest[|rest| - 1].User? ==> whole[|whole| - 1] == rest[|rest| - 1])
  {
    assert (rest + more)[1..] == rest[1..] + more;
  }

  /** Behind an assistant that is kept, a replay starts over. */
  lemma {:induction false} ReplayedConcat(a: seq<Message>, b: seq<Message>, turn: ModelOrigin)
    requires a != [] && a[|a| - 1].Assistant? && Slot(a[|a| - 1], turn).Some?
    ensures Replayed(a + b, turn) == Replayed(a, turn) + Replayed(b, turn)
    ensures Replayed(a, turn) != []
    ensures Replayed(a, turn)[|Replayed(a, turn)| - 1] == Slot(a[|a| - 1], turn).value
  {
    ReplayedFirst(a, turn);
    ReplayedFirst(a + b, turn);
    assert (a + b)[1..] == a[1..] + b;
    var slot := Slot(a[0], turn);
    if |a| > 1 {
      ReplayedConcat(a[1..], b, turn);
      AttachConcat(slot, Slot(a[1], turn).None?, Replayed(a[1..], turn), Replayed(b, turn));
    } else {
      assert a[1..] + b == b;
      assert Replayed(a, turn) == [slot.value];
    }
  }

  // ----- what a replay still shows -----

  /** The message schema: contents that may not be empty are not, and an
      assistant's content passes its check. */
  ghost predicate Admitted(message: Message) {
    match message
    case User(input) => input != []
    case Assistant(origin, content) => Validated(origin, content)
    case Tool(results) => results != []
    case System(text) => text != ""
  }

  ghost predicate AllAdmitted(messages: seq<Message>) {
    forall i | 0 <= i < |messages| :: Admitted(messages[i])
  }

  /** Provider state: reasoning, a refusal's marking, evidence. */
  predicate Proprietary(part: OutputPart) {
    !AlreadyPlain(part)
  }

  /** After a replay, whatever another model of the turn's protocol left is
      plain; and of a schema-valid history, evidence of the turn's protocol
      belongs to the turn's own model. */
  lemma EvidenceIsOwn(messages: seq<Message>, turn: ModelOrigin, k: nat, j: nat)
    requires k < |Replayed(messages, turn)| && Replayed(messages, turn)[k].Assistant?
    requires j < |Replayed(messages, turn)[k].content|
    ensures var Assistant(origin, content) := Replayed(messages, turn)[k];
            && (origin.Some? && origin.value.protocol == turn.protocol && Proprietary(content[j]) ==>
                  SameModelOrigin(origin, turn))
            && (AllAdmitted(messages) && EvidenceKindOf(content[j]).Some?
                && EvidenceProtocol(EvidenceKindOf(content[j]).value) == turn.protocol ==>
                  SameModelOrigin(origin, turn))
  {
    ReplayedFrom(messages, turn, k);
    var m := Replayed(messages, turn)[k];
    var i :| 0 <= i < |messages| && Slot(messages[i], turn) == Some(m);
    SlotKeepsIffUntouched(messages[i], turn);
    assert AlreadyPlain(m.content[j]) ==> EvidenceKindOf(m.content[j]).None?;
    if AllAdmitted(messages) && !Switched(messages[i], turn) {
      assert Admitted(messages[i]);
      assert m.content[j] in m.content;
    }
  }

  lemma {:induction false} PlainCallFrom(content: seq<OutputPart>, i: nat) returns (j: nat)
    requires i < |Plain(content)|
    ensures j < |content| && IdOf(Plain(content)[i], CallId) == IdOf(content[j], CallId)
  {
    var plain := PlainPart(content[0]);
    if i < |plain| {
      j := 0;
    } else {
      var k := PlainCallFrom(content[1..], i - |plain|);
      j := k + 1;
    }
  }

  lemma {:induction false} PlainKeepsDistinct(content: seq<OutputPart>)
    requires Distinct(content, CallId)
    ensures Distinct(Plain(content), CallId)
  {
    if content != [] {
      var rest, plain := content[1..], PlainPart(content[0]);
      assert Distinct(rest, CallId) by {
        forall i, j | 0 <= i < j < |rest| && IdOf(rest[j], CallId).Some?
          ensures IdOf(rest[i], CallId) != IdOf(rest[j], CallId)
        {
          assert rest[i] == content[i + 1] && rest[j] == content[j + 1];
        }
      }
      PlainKeepsDistinct(rest);
      forall i, j | 0 <= i < j < |Plain(content)| && IdOf(Plain(content)[j], CallId).Some?
        ensures IdOf(Plain(content)[i], CallId) != IdOf(Plain(content)[j], CallId)
      {
        if i < |plain| {
          var k := PlainCallFrom(rest, j - |plain|);
          assert rest[k] == content[k + 1];
        }
      }
    }
  }

  lemma PlainValidated(origin: Option<ModelOrigin>, content: seq<OutputPart>)
    requires Validated(origin, content)
    ensures Validated(origin, Plain(content))
  {
    PlainIsPlain(content);
    PlainKeepsDistinct(content);
    forall part | part in Plain(content)
      ensures !Foreign(origin, part) && !Malformed(part) && IdOf(part, ItemId).None?
    {
      assert AlreadyPlain(part);
    }
  }

  /** A schema-valid history replays to a schema-valid one. */
  lemma ReplayKeepsAdmitted(messages: seq<Message>, turn: ModelOrigin)
    requires AllAdmitted(messages)
    ensures AllAdmitted(Replayed(messages, turn))
  {
    var replayed := Replayed(messages, turn);
    forall k | 0 <= k < |replayed| ensures Admitted(replayed[k]) {
      if replayed[k].User? {
        ReplayedUserNotEmpty(messages, turn, k);
      } else {
        ReplayedFrom(messages, turn, k);
        var i :| 0 <= i < |messages| && Slot(messages[i], turn) == Some(replayed[k]);
        assert Admitted(messages[i]);
        if Switched(messages[i], turn) {
          PlainValidated(messages[i].origin, messages[i].content);
        }
      }
    }
  }

  lemma {:induction false} ReplayedUserNotEmpty(messages: seq<Message>, turn: ModelOrigin, k: nat)
    requires AllAdmitted(messages) && k < |Replayed(messages, turn)| && Replayed(messages, turn)[k].User?
    ensures Replayed(messages, turn)[k].input != []
  {
    ReplayedFirst(messages, turn);
    assert Admitted(messages[0]);
    var replayed, rest := Replayed(messages, turn), Replayed(messages[1..], turn);
    if k > 0 {
      var j :| 0 <= j < |rest| && rest[j] == replayed[k];
      ReplayedUserNotEmpty(messages[1..], turn, j);
    } else if Slot(messages[0], turn).None? {
      ReplayedUserNotEmpty(messages[1..], turn, k);
    }
  }

  /** Something is left to send exactly when something was not dropped. */
  lemma {:induction false} ReplayEmptyIff(messages: seq<Message>, turn: ModelOrigin)
    ensures Replayed(messages, turn) == [] <==> forall i | 0 <= i < |messages| :: Slot(messages[i], turn).None?
  {
    if messages != [] {
      ReplayedFirst(messages, turn);
      ReplayEmptyIff(messages[1..], turn);
      assert messages == [messages[0]] + messages[1..];
    }
  }
}

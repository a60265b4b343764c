/** The history every codec lowers: what another model of the turn's own
    protocol wrote is replayed as plain content. */
module Replay {
  import opened Wrappers
  import opened Protocols
  import opened Messages
  import opened Sequences

  /** Written by another model of the turn's own protocol. */
  predicate Switched(message: Message, turn: ModelOrigin) {
    && message.Assistant?
    && message.origin.Some?
    && message.origin.value.protocol == turn.protocol
    && !SameModelOrigin(message.origin, turn)
  }

  /** Which assistants that is, on the origin's fields: those of the turn's
      protocol whose origin differs from the turn in anything. One without an
      origin, of another protocol, or of the turn's own origin is not. */
  predicate FromAnotherModel(message: Message, turn: ModelOrigin) {
    message.Assistant? &&
    match message.origin
    case None => false
    case Some(origin) => origin.protocol == turn.protocol && origin != turn
  }

  lemma SwitchedIffFromAnotherModel(message: Message, turn: ModelOrigin)
    ensures Switched(message, turn) <==> FromAnotherModel(message, turn)
  {
  }

  function PlainSegments(segments: seq<Segment>): seq<Segment> {
    seq(|segments|, i requires 0 <= i < |segments| => TextSegment(segments[i].text))
  }

  /** One part as plain content: reasoning leaves nothing, the rest loses its
      evidence and its refusal marking. */
  function PlainPart(part: OutputPart): seq<OutputPart> {
    match part
    case ReasoningPart(_, _, _) => []
    case MessagePart(segments, _) => [MessagePart(PlainSegments(segments), None)]
    case LocalCallPart(id, name, arguments, _) => [LocalCallPart(id, name, arguments, None)]
  }

  function Plain(content: seq<OutputPart>): seq<OutputPart> {
    if content == [] then [] else PlainPart(content[0]) + Plain(content[1..])
  }

  /** What a message is replayed as; nothing when it is dropped. */
  function Slot(message: Message, turn: ModelOrigin): Option<Message> {
    if !Switched(message, turn) then Some(message)
    else if Plain(message.content) == [] then None
    else Some(message.(content := Plain(message.content)))
  }

  function Slots(messages: seq<Message>, turn: ModelOrigin): seq<Option<Message>> {
    seq(|messages|, i requires 0 <= i < |messages| => Slot(messages[i], turn))
  }

  predicate IsUser(slot: Option<Message>) {
    slot.Some? && slot.value.User?
  }

  /** A slot put before what the rest left; over a gap, two users are joined. */
  function Attach(slot: Option<Message>, gap: bool, rest: seq<Message>): seq<Message> {
    if slot.None? then rest
    else if gap && slot.value.User? && rest != [] && rest[0].User? then
      [User(slot.value.input + rest[0].input)] + rest[1..]
    else [slot.value] + rest
  }

  /** The slots without their gaps, the users around a gap joined. */
  function Squeeze(slots: seq<Option<Message>>): seq<Message> {
    if slots == [] then []
    else Attach(slots[0], |slots| > 1 && slots[1].None?, Squeeze(slots[1..]))
  }

  /** The replay of a history for a turn, read from the front: no flag, no
      output that is written twice. */
  function Replayed(messages: seq<Message>, turn: ModelOrigin): seq<Message> {
    Squeeze(Slots(messages, turn))
  }

  // ----- the loop refines it -----

  /** One slot put behind what the slots before it left. */
  function Append(out: seq<Message>, gap: bool, slot: Option<Message>): seq<Message> {
    if slot.None? then out
    else if gap && slot.value.User? && out != [] && out[|out| - 1].User? then
      out[..|out| - 1] + [User(out[|out| - 1].input + slot.value.input)]
    else out + [slot.value]
  }

  predicate EndsInGap(slots: seq<Option<Message>>) {
    slots != [] && slots[|slots| - 1].None?
  }

  lemma {:induction false} AttachAppendCommute(
    front: Option<Message>, gap: bool, out: seq<Message>, backGap: bool, back: Option<Message>)
    requires out == [] ==> gap == backGap
    ensures (front.None? && out == []) ||
            Append(Attach(front, gap, out), backGap, back) == Attach(front, gap, Append(out, backGap, back))
  {
    if front.None? || back.None? || out == [] {
    } else if |out| == 1 {
      if gap && backGap && IsUser(front) && out[0].User? && IsUser(back) {
        ConcatAssociative(front.value.input, out[0].input, back.value.input);
      }
    } else {
      assert out == out[..1] + out[1..];
      CommuteApart(front, gap, out[..1], out[1..], backGap, back);
    }
  }

  lemma CommuteApart(
    front: Option<Message>, gap: bool, a: seq<Message>, b: seq<Message>, backGap: bool, back: Option<Message>)
    requires a != [] && b != []
    ensures Append(Attach(front, gap, a + b), backGap, back) == Attach(front, gap, Append(a + b, backGap, back))
  {
    AttachBefore(front, gap, a, b);
    AppendBehind(a, b, backGap, back);
    AppendBehind(Attach(front, gap, a), b, backGap, back);
    AttachBefore(front, gap, a, Append(b, backGap, back));
  }

  /** A slot put in front acts on the first output alone. */
  lemma AttachBefore(front: Option<Message>, gap: bool, first: seq<Message>, rest: seq<Message>)
    requires first != []
    ensures Attach(front, gap, first + rest) == Attach(front, gap, first) + rest
  {
    assert (first + rest)[1..] == first[1..] + rest;
  }

  /** A slot put behind acts on the last output alone. */
  lemma AppendBehind(out: seq<Message>, last: seq<Message>, gap: bool, back: Option<Message>)
    requires last != []
    ensures Append(out + last, gap, back) == out + Append(last, gap, back)
  {
    assert (out + last)[..|out + last| - 1] == out + last[..|last| - 1];
  }

  lemma {:induction false} AllGaps(slots: seq<Option<Message>>)
    requires Squeeze(slots) == []
    ensures forall i | 0 <= i < |slots| :: slots[i].None?
  {
    if slots != [] {
      AllGaps(slots[1..]);
      forall i | 0 < i < |slots| ensures slots[i].None? {
        assert slots[i] == slots[1..][i - 1];
      }
    }
  }

  lemma {:induction false} SqueezeNext(slots: seq<Option<Message>>, slot: Option<Message>)
    ensures Squeeze(slots + [slot]) == Append(Squeeze(slots), EndsInGap(slots), slot)
  {
    if slots == [] {
      assert slots + [slot] == [slot];
    } else {
      var rest := slots[1..];
      SqueezeNext(rest, slot);
      assert (slots + [slot])[1..] == rest + [slot];
      if rest != [] {
        if Squeeze(rest) == [] {
          AllGaps(rest);
        }
        AttachAppendCommute(slots[0], rest[0].None?, Squeeze(rest), EndsInGap(rest), slot);
      }
    }
  }

  method ReplayableHistory(messages: seq<Message>, turn: ModelOrigin) returns (out: seq<Message>)
    ensures out == Replayed(messages, turn)
  {
    out := [];
    var dropped := false;
    for i := 0 to |messages|
      invariant out == Squeeze(Slots(messages[..i], turn))
      invariant dropped == EndsInGap(Slots(messages[..i], turn))
    {
      var message := messages[i];
      var next := message;
      assert Slots(messages[..i + 1], turn) == Slots(messages[..i], turn) + [Slot(message, turn)];
      SqueezeNext(Slots(messages[..i], turn), Slot(message, turn));
      if Switched(message, turn) {
        var content := Plain(message.content);
        dropped := |content| == 0;
        if dropped {
          continue;
        }
        next := message.(content := content);
      }
      if dropped && next.User? && out != [] && out[|out| - 1].User? {
        dropped := false;
        out := out[|out| - 1 := User(out[|out| - 1].input + next.input)];
        continue;
      }
      dropped := false;
      out := out + [next];
    }
    assert messages[..|messages|] == messages;
  }
}

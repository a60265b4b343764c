/** Where each message goes in a replay, and what is left of it there. */
module ReplayOrder {
  import opened Wrappers
  import opened Protocols
  import opened Messages
  import opened Replay
  import opened ReplayValidity
  import opened Sequences

  // ----- the index map -----

  datatype Fate = Dropped | Joined | Started

  ghost predicate AllDropped(slots: seq<Option<Message>>, lo: nat, hi: nat)
    requires hi <= |slots|
  {
    forall j | lo <= j < hi :: slots[j].None?
  }

  /** The last slot kept before `n` is a user. */
  predicate FollowsUser(slots: seq<Option<Message>>, n: nat)
    requires n <= |slots|
  {
    n > 0 && if slots[n - 1].None? then FollowsUser(slots, n - 1) else IsUser(slots[n - 1])
  }

  /** A kept user joins a user kept before it when the slot between is dropped. */
  function FateOf(slots: seq<Option<Message>>, i: nat): Fate
    requires i < |slots|
  {
    if slots[i].None? then Dropped
    else if IsUser(slots[i]) && i > 0 && slots[i - 1].None? && FollowsUser(slots, i) then Joined
    else Started
  }

  lemma {:induction false} LastKept(slots: seq<Option<Message>>, n: nat) returns (p: nat)
    requires n <= |slots| && FollowsUser(slots, n)
    ensures p < n && IsUser(slots[p]) && AllDropped(slots, p + 1, n)
  {
    p := n - 1;
    if slots[p].None? {
      p := LastKept(slots, n - 1);
    }
  }

  lemma {:induction false} FollowsUserIff(slots: seq<Option<Message>>, p: nat, n: nat)
    requires p < n <= |slots| && slots[p].Some? && AllDropped(slots, p + 1, n)
    ensures FollowsUser(slots, n) <==> IsUser(slots[p])
  {
    if p + 1 < n {
      FollowsUserIff(slots, p, n - 1);
    }
  }

  ghost function Tally(slots: seq<Option<Message>>, n: nat, fate: Fate): nat
    requires n <= |slots|
  {
    if n == 0 then 0 else Tally(slots, n - 1, fate) + if FateOf(slots, n - 1) == fate then 1 else 0
  }

  /** The output index of a kept slot: the outputs started so far, less one. */
  ghost function OutIndex(slots: seq<Option<Message>>, i: nat): int
    requires i < |slots|
  {
    Tally(slots, i + 1, Started) - 1
  }

  lemma {:induction false} TallyGrows(slots: seq<Option<Message>>, m: nat, n: nat, fate: Fate)
    requires m <= n <= |slots|
    ensures Tally(slots, m, fate) <= Tally(slots, n, fate)
    ensures AllDropped(slots, m, n) && fate != Dropped ==> Tally(slots, m, fate) == Tally(slots, n, fate)
    decreases n
  {
    if m < n {
      TallyGrows(slots, m, n - 1, fate);
    }
  }

  /** From one kept slot to the next the output index goes up by one, unless
      both are users with a drop between them: then they share an output. */
  lemma NextOutIndex(slots: seq<Option<Message>>, p: nat, i: nat)
    requires p < i < |slots| && slots[p].Some? && slots[i].Some? && AllDropped(slots, p + 1, i)
    ensures OutIndex(slots, i) ==
            OutIndex(slots, p) + if IsUser(slots[p]) && IsUser(slots[i]) && p + 1 < i then 0 else 1
  {
    TallyGrows(slots, p + 1, i, Started);
    FollowsUserIff(slots, p, i);
  }

  /** The first kept slot goes first, and no slot goes before an earlier one. */
  lemma OutIndexMonotone(slots: seq<Option<Message>>, i: nat, j: nat)
    requires i <= j < |slots| && slots[i].Some?
    ensures 0 <= OutIndex(slots, i) <= OutIndex(slots, j)
    ensures AllDropped(slots, 0, i) ==> OutIndex(slots, i) == 0
  {
    TallyGrows(slots, i + 1, j + 1, Started);
    TallyGrows(slots, 0, i, Started);
    if FateOf(slots, i) == Joined {
      var p := LastKept(slots, i);
      StartedBefore(slots, p);
      TallyGrows(slots, p + 1, i, Started);
    }
  }

  lemma {:induction false} StartedBefore(slots: seq<Option<Message>>, p: nat)
    requires p < |slots| && slots[p].Some?
    ensures Tally(slots, p + 1, Started) > 0
    decreases p
  {
    if FateOf(slots, p) == Joined {
      var q := LastKept(slots, p);
      StartedBefore(slots, q);
      TallyGrows(slots, q + 1, p, Started);
    }
  }

  /** Every output comes from some kept slot. */
  lemma {:induction false} OutIndexOnto(slots: seq<Option<Message>>, n: nat, k: nat) returns (i: nat)
    requires n <= |slots| && k < Tally(slots, n, Started)
    ensures i < n && slots[i].Some? && OutIndex(slots, i) == k
  {
    if k < Tally(slots, n - 1, Started) {
      i := OutIndexOnto(slots, n - 1, k);
    } else {
      i := n - 1;
    }
  }

  // ----- what the outputs are -----

  lemma {:induction false} SqueezeUpTo(slots: seq<Option<Message>>, n: nat)
    requires n <= |slots|
    ensures var out := Squeeze(slots[..n]);
            && |out| == Tally(slots, n, Started)
            && (out != [] && out[|out| - 1].User? <==> FollowsUser(slots, n))
  {
    if n > 0 {
      SqueezeUpTo(slots, n - 1);
      SqueezeStep(slots, n - 1);
    }
  }

  /** The fate of the next slot decides how it is appended. */
  lemma SqueezeStep(slots: seq<Option<Message>>, n: nat)
    requires n < |slots|
    requires var out := Squeeze(slots[..n]);
             out != [] && out[|out| - 1].User? <==> FollowsUser(slots, n)
    ensures var out := Squeeze(slots[..n]);
            match FateOf(slots, n)
            case Dropped => Squeeze(slots[..n + 1]) == out
            case Started => Squeeze(slots[..n + 1]) == out + [slots[n].value]
            case Joined =>
              && out != [] && out[|out| - 1].User? && slots[n].value.User?
              && Squeeze(slots[..n + 1]) == out[|out| - 1 := User(out[|out| - 1].input + slots[n].value.input)]
  {
    assert slots[..n + 1] == slots[..n] + [slots[n]];
    SqueezeNext(slots[..n], slots[n]);
  }

  /** The input of every user among the first `n` slots that goes to output `k`. */
  ghost function Gathered(slots: seq<Option<Message>>, k: int, n: nat): seq<InputPart>
    requires n <= |slots|
  {
    if n == 0 then []
    else if IsUser(slots[n - 1]) && OutIndex(slots, n - 1) == k then
      Gathered(slots, k, n - 1) + slots[n - 1].value.input
    else Gathered(slots, k, n - 1)
  }

  lemma {:induction false} NothingGathered(slots: seq<Option<Message>>, k: int, n: nat)
    requires n <= |slots| && k >= Tally(slots, n, Started)
    ensures Gathered(slots, k, n) == []
  {
    if n > 0 {
      NothingGathered(slots, k, n - 1);
    }
  }

  ghost function OutputFor(slots: seq<Option<Message>>, i: nat, n: nat): Message
    requires i < |slots| && slots[i].Some? && n <= |slots|
  {
    if IsUser(slots[i]) then User(Gathered(slots, OutIndex(slots, i), n)) else slots[i].value
  }

  lemma {:induction false} OutputsUpTo(slots: seq<Option<Message>>, n: nat, i: nat)
    requires i < n <= |slots| && slots[i].Some?
    ensures 0 <= OutIndex(slots, i) < |Squeeze(slots[..n])|
    ensures Squeeze(slots[..n])[OutIndex(slots, i)] == OutputFor(slots, i, n)
    decreases n
  {
    SqueezeUpTo(slots, n);
    SqueezeUpTo(slots, n - 1);
    SqueezeStep(slots, n - 1);
    OutIndexMonotone(slots, i, n - 1);
    if i < n - 1 {
      OutputsUpTo(slots, n - 1, i);
    } else if FateOf(slots, i) == Started {
      NothingGathered(slots, OutIndex(slots, i), n - 1);
    } else {
      var p := LastKept(slots, i);
      OutputsUpTo(slots, n - 1, p);
      NextOutIndex(slots, p, i);
    }
  }

  /** Each kept message is found where the map puts it: alone as its plain self,
      or a user message with all the users of its output, in order. */
  lemma ReplayedAt(messages: seq<Message>, turn: ModelOrigin, i: nat)
    requires i < |messages| && Slot(messages[i], turn).Some?
    ensures var slots := Slots(messages, turn);
            && 0 <= OutIndex(slots, i) < |Replayed(messages, turn)|
            && Replayed(messages, turn)[OutIndex(slots, i)] == OutputFor(slots, i, |slots|)
  {
    var slots := Slots(messages, turn);
    OutputsUpTo(slots, |slots|, i);
    assert slots[..|slots|] == slots;
  }

  /** What no switch concerns stands where the map puts it, unchanged: tool
      groups, system texts, and every assistant that has no origin, an origin of
      another protocol, or the turn's own. */
  lemma OthersStand(messages: seq<Message>, turn: ModelOrigin, i: nat)
    requires i < |messages| && !messages[i].User?
    requires messages[i].Assistant? && messages[i].origin.Some? ==>
               messages[i].origin.value.protocol != turn.protocol || messages[i].origin.value == turn
    ensures var k := OutIndex(Slots(messages, turn), i);
            0 <= k < |Replayed(messages, turn)| && Replayed(messages, turn)[k] == messages[i]
  {
    SwitchedIffFromAnotherModel(messages[i], turn);
    ReplayedAt(messages, turn, i);
  }

  // ----- how many -----

  lemma {:induction false} FatesPartition(slots: seq<Option<Message>>, n: nat)
    requires n <= |slots|
    ensures Tally(slots, n, Started) + Tally(slots, n, Joined) + Tally(slots, n, Dropped) == n
    ensures Tally(slots, n, Joined) + (if n > 0 && slots[n - 1].None? then 1 else 0) <= Tally(slots, n, Dropped)
  {
    if n > 0 {
      FatesPartition(slots, n - 1);
    }
  }

  /** Only drops and the joins over them shorten a history; a join needs a
      drop of its own. */
  lemma ReplayedLength(messages: seq<Message>, turn: ModelOrigin)
    ensures var slots := Slots(messages, turn);
            var drops, joins := Tally(slots, |slots|, Dropped), Tally(slots, |slots|, Joined);
            joins <= drops && |Replayed(messages, turn)| == |messages| - drops - joins
  {
    var slots := Slots(messages, turn);
    assert slots[..|slots|] == slots;
    SqueezeUpTo(slots, |slots|);
    FatesPartition(slots, |slots|);
  }

  // ----- what is said, in order -----

  datatype Atom =
    | Input(part: InputPart)
    | Said(origin: Option<ModelOrigin>, text: string)
    | Refused(origin: Option<ModelOrigin>, text: string)
    | Thought(origin: Option<ModelOrigin>, reasoning: OutputPart)
    | Called(origin: Option<ModelOrigin>, providerCallId: string, name: string, argumentsText: string)
    | MessageMark(origin: Option<ModelOrigin>, messageEvidence: MessageEvidence)
    | CallMark(origin: Option<ModelOrigin>, callEvidence: CallEvidence)
    | Answered(result: ToolResult)
    | Instructed(text: string)

  function InputAtoms(input: seq<InputPart>): seq<Atom> {
    seq(|input|, i requires 0 <= i < |input| => Input(input[i]))
  }

  function SegmentAtoms(origin: Option<ModelOrigin>, segments: seq<Segment>, erase: bool): seq<Atom> {
    seq(|segments|, i requires 0 <= i < |segments| =>
      if segments[i].TextSegment? || erase then Said(origin, segments[i].text)
      else Refused(origin, segments[i].text))
  }

  /** What one part says; erased, without reasoning, evidence or refusal marks. */
  function PartAtoms(origin: Option<ModelOrigin>, part: OutputPart, erase: bool): seq<Atom> {
    match part
    case MessagePart(segments, evidence) =>
      SegmentAtoms(origin, segments, erase)
      + (if erase || evidence.None? then [] else [MessageMark(origin, evidence.value)])
    case ReasoningPart(_, _, _) => if erase then [] else [Thought(origin, part)]
    case LocalCallPart(id, name, arguments, evidence) =>
      [Called(origin, id, name, arguments)]
      + (if erase || evidence.None? then [] else [CallMark(origin, evidence.value)])
  }

  function ContentAtoms(origin: Option<ModelOrigin>, content: seq<OutputPart>, erase: bool): seq<Atom> {
    if content == [] then []
    else PartAtoms(origin, content[0], erase) + ContentAtoms(origin, content[1..], erase)
  }

  function MessageAtoms(message: Message, erase: bool): seq<Atom> {
    match message
    case User(input) => InputAtoms(input)
    case Assistant(origin, content) => ContentAtoms(origin, content, erase)
    case Tool(results) => seq(|results|, i requires 0 <= i < |results| => Answered(results[i]))
    case System(text) => [Instructed(text)]
  }

  function Transcript(messages: seq<Message>): seq<Atom> {
    if messages == [] then [] else MessageAtoms(messages[0], false) + Transcript(messages[1..])
  }

  /** The transcript with only the assistants of the turn's protocol and another
      origin erased. */
  function ErasedTranscript(messages: seq<Message>, turn: ModelOrigin): seq<Atom> {
    if messages == [] then []
    else MessageAtoms(messages[0], FromAnotherModel(messages[0], turn)) + ErasedTranscript(messages[1..], turn)
  }

  lemma {:induction false} PlainSaysErased(origin: Option<ModelOrigin>, content: seq<OutputPart>)
    ensures ContentAtoms(origin, Plain(content), false) == ContentAtoms(origin, content, true)
  {
    if content != [] {
      PlainSaysErased(origin, content[1..]);
      var plain := PlainPart(content[0]);
      if plain == [] {
        assert Plain(content) == Plain(content[1..]);
      } else {
        assert plain == [plain[0]];
        assert Plain(content)[1..] == Plain(content[1..]);
        if content[0].MessagePart? {
          assert SegmentAtoms(origin, plain[0].segments, false) ==
                 SegmentAtoms(origin, content[0].segments, true);
        }
        assert PartAtoms(origin, plain[0], false) == PartAtoms(origin, content[0], true);
      }
    }
  }

  lemma AttachSays(slot: Option<Message>, gap: bool, rest: seq<Message>)
    ensures Transcript(Attach(slot, gap, rest)) ==
            (if slot.None? then [] else MessageAtoms(slot.value, false)) + Transcript(rest)
  {
    var whole := Attach(slot, gap, rest);
    if slot.Some? && gap && IsUser(slot) && rest != [] && rest[0].User? {
      assert whole[1..] == rest[1..];
      assert InputAtoms(whole[0].input) == InputAtoms(slot.value.input) + InputAtoms(rest[0].input);
      ConcatAssociative(InputAtoms(slot.value.input), InputAtoms(rest[0].input), Transcript(rest[1..]));
    } else if slot.Some? {
      assert whole[1..] == rest;
    }
  }

  /** A replay says what its history says, in the same order, less what a switch
      of model erases: reasoning, evidence and refusal marks of assistants of the
      turn's protocol and another origin, and nothing else. */
  lemma {:induction false} ReplaySaysErased(messages: seq<Message>, turn: ModelOrigin)
    ensures Transcript(Replayed(messages, turn)) == ErasedTranscript(messages, turn)
  {
    if messages != [] {
      var message := messages[0];
      SwitchedIffFromAnotherModel(message, turn);
      ReplaySaysErased(messages[1..], turn);
      ReplayedFirst(messages, turn);
      AttachSays(Slot(message, turn), |messages| > 1 && Slot(messages[1], turn).None?, Replayed(messages[1..], turn));
      if message.Assistant? {
        PlainSaysErased(message.origin, message.content);
      }
    }
  }
}

/** The scripted model's stream: one turn as the events a message client reads. */
module ScriptedSse {
  import opened Wrappers
  import opened Sequences

  /** A scripted call; its input as the JSON text it is sent as. */
  datatype ScriptedCall = ScriptedCall(id: Option<string>, name: string, input: string)

  datatype ScriptedTurn = ScriptedTurn(text: Option<string>, toolCalls: Option<seq<ScriptedCall>>)

  datatype Block = TextBlock(text: string) | ToolUseBlock(id: string, name: string, input: string)

  datatype Opening = TextOpening | ToolUseOpening(id: string, name: string)
  datatype Delta = TextDelta(text: string) | InputJsonDelta(json: string)
  datatype StopReason = ToolUse | EndTurn

  datatype Event =
    | MessageStart(id: string)
    | BlockStart(index: int, opening: Opening)
    | BlockDelta(index: int, delta: Delta)
    | BlockStop(index: int)
    | MessageDelta(stopReason: StopReason)
    | MessageStop

  // ----- decimal numerals -----

  function Digit(d: nat): char
    requires d < 10
  {
    '0' + d as char
  }

  function Decimal(n: nat): string {
    if n < 10 then [Digit(n)] else Decimal(n / 10) + [Digit(n % 10)]
  }

  lemma {:induction false} DecimalDigits(n: nat)
    ensures Decimal(n) != []
    ensures forall i | 0 <= i < |Decimal(n)| :: Decimal(n)[i] != '_'
  {
    if n >= 10 {
      DecimalDigits(n / 10);
    }
  }

  lemma LastDigit(n: nat)
    ensures var s := Decimal(n);
            && s != []
            && s[|s| - 1] == Digit(n % 10)
            && (if n < 10 then |s| == 1 else |s| > 1 && s[..|s| - 1] == Decimal(n / 10))
  {
    DecimalDigits(n / 10);
  }

  lemma {:induction false} DecimalInjective(m: nat, n: nat)
    requires Decimal(m) == Decimal(n)
    ensures m == n
  {
    LastDigit(m);
    LastDigit(n);
    if m >= 10 {
      DecimalInjective(m / 10, n / 10);
    }
  }

  /** The number a numeral says, digit by digit. */
  function NumberOf(numeral: string): int {
    if numeral == [] then 0
    else 10 * NumberOf(numeral[..|numeral| - 1]) + (numeral[|numeral| - 1] as int - '0' as int)
  }

  /** A numeral says its number, in digits, with no zero in front of another. */
  lemma {:induction false} DecimalSays(n: nat)
    ensures NumberOf(Decimal(n)) == n
    ensures Decimal(n) != [] && (n > 0 ==> Decimal(n)[0] != '0')
    ensures forall i | 0 <= i < |Decimal(n)| :: '0' <= Decimal(n)[i] <= '9'
  {
    if n >= 10 {
      DecimalSays(n / 10);
    }
  }

  function DefaultCallId(turnIndex: nat, callIndex: nat): string {
    "call_" + Decimal(turnIndex + 1) + "_" + Decimal(callIndex + 1)
  }

  lemma SplitAtUnderscore(prefix: string, a: string, b: string, c: string, d: string)
    requires prefix + a + "_" + b == prefix + c + "_" + d
    requires '_' !in a && '_' !in c
    ensures a == c && b == d
  {
    var tail := (prefix + a + "_" + b)[|prefix|..];
    assert tail == a + "_" + b && tail == c + "_" + d;
    assert tail[|a|] == '_' && tail[|c|] == '_';
    assert forall i | 0 <= i < |a| :: tail[i] == a[i];
    assert forall i | 0 <= i < |c| :: tail[i] == c[i];
    assert tail[..|a|] == a && tail[..|c|] == c;
    assert tail[|a| + 1..] == b && tail[|c| + 1..] == d;
  }

  /** Across a run no two calls share a default id. */
  lemma DefaultIdsDistinct(turn: nat, call: nat, otherTurn: nat, otherCall: nat)
    requires DefaultCallId(turn, call) == DefaultCallId(otherTurn, otherCall)
    ensures turn == otherTurn && call == otherCall
  {
    DecimalDigits(turn + 1);
    DecimalDigits(otherTurn + 1);
    SplitAtUnderscore("call_", Decimal(turn + 1), Decimal(call + 1), Decimal(otherTurn + 1), Decimal(otherCall + 1));
    DecimalInjective(turn + 1, otherTurn + 1);
    DecimalInjective(call + 1, otherCall + 1);
  }

  // ----- what a turn is, and how a client reads it -----

  function CallBlock(call: ScriptedCall, turnIndex: nat, callIndex: nat): Block {
    ToolUseBlock(
      if call.id.Some? then call.id.value else DefaultCallId(turnIndex, callIndex), call.name, call.input)
  }

  function CallsOf(step: ScriptedTurn): seq<ScriptedCall> {
    if step.toolCalls.Some? then step.toolCalls.value else []
  }

  /** The first `n` calls' blocks. */
  function CallBlocks(step: ScriptedTurn, turnIndex: nat, n: nat): seq<Block>
    requires n <= |CallsOf(step)|
  {
    if n == 0 then []
    else CallBlocks(step, turnIndex, n - 1) + [CallBlock(CallsOf(step)[n - 1], turnIndex, n - 1)]
  }

  function TextBlocks(step: ScriptedTurn): seq<Block> {
    if step.text.Some? && step.text.value != "" then [TextBlock(step.text.value)] else []
  }

  /** The turn's blocks: its text unless empty, then its calls. */
  function BlocksOf(step: ScriptedTurn, turnIndex: nat): seq<Block> {
    TextBlocks(step) + CallBlocks(step, turnIndex, |CallsOf(step)|)
  }

  /** A call's block on its fields: its own name and input, under its own id or,
      when it has none, under the numbers, from 1, of the turn and of the call. */
  predicate CallTold(block: Block, call: ScriptedCall, turnIndex: nat, callIndex: nat) {
    && block.ToolUseBlock?
    && block.name == call.name
    && block.input == call.input
    && match call.id
       case Some(id) => block.id == id
       case None => block.id == "call_" + Decimal(turnIndex + 1) + "_" + Decimal(callIndex + 1)
  }

  lemma {:induction false} CallBlocksTold(step: ScriptedTurn, turnIndex: nat, n: nat)
    requires n <= |CallsOf(step)|
    ensures |CallBlocks(step, turnIndex, n)| == n
    ensures forall k | 0 <= k < n :: CallTold(CallBlocks(step, turnIndex, n)[k], CallsOf(step)[k], turnIndex, k)
  {
    if n > 0 {
      CallBlocksTold(step, turnIndex, n - 1);
      assert CallTold(CallBlock(CallsOf(step)[n - 1], turnIndex, n - 1), CallsOf(step)[n - 1], turnIndex, n - 1);
    }
  }

  /** The blocks on the turn's fields: one for its text if there is any, then
      one a call, in order. */
  lemma {:induction false} BlocksOnFields(step: ScriptedTurn, turnIndex: nat)
    ensures var blocks, said := BlocksOf(step, turnIndex), if step.text.Some? && step.text.value != "" then 1 else 0;
            var calls := if step.toolCalls.Some? then step.toolCalls.value else [];
            && |blocks| == said + |calls|
            && (said == 1 ==> blocks[0] == TextBlock(step.text.value))
            && forall k | 0 <= k < |calls| :: CallTold(blocks[said + k], calls[k], turnIndex, k)
  {
    CallBlocksTold(step, turnIndex, |CallsOf(step)|);
  }

  /** Reads blocks from number `index` on: each opened, filled by its own delta
      and closed, under its own number, before the next opens; then why the
      message stopped, and that it did. Anything else is no message. */
  function ReadBlocks(events: seq<Event>, index: nat): Option<(seq<Block>, StopReason)>
    decreases |events|
  {
    if |events| == 2 && events[0].MessageDelta? && events[1].MessageStop? then Some(([], events[0].stopReason))
    else if |events| < 3 then None
    else
      match (events[0], events[1], events[2])
      case (BlockStart(start, opening), BlockDelta(fill, delta), BlockStop(stop)) =>
        var rest := ReadBlocks(events[3..], index + 1);
        if !(start == fill == stop == index) || rest.None? then None
        else
          (match (opening, delta)
           case (TextOpening, TextDelta(text)) => Some(([TextBlock(text)] + rest.value.0, rest.value.1))
           case (ToolUseOpening(id, name), InputJsonDelta(json)) =>
             Some(([ToolUseBlock(id, name, json)] + rest.value.0, rest.value.1))
           case _ => None)
      case _ => None
  }

  function ReadMessage(events: seq<Event>): Option<(string, seq<Block>, StopReason)> {
    if events == [] || !events[0].MessageStart? then None
    else
      var read := ReadBlocks(events[1..], 0);
      if read.None? then None else Some((events[0].id, read.value.0, read.value.1))
  }

  function OpeningOf(block: Block): Opening {
    if block.TextBlock? then TextOpening else ToolUseOpening(block.id, block.name)
  }

  function DeltaOf(block: Block): Delta {
    if block.TextBlock? then TextDelta(block.text) else InputJsonDelta(block.input)
  }

  function BlockEvents(block: Block, index: nat): seq<Event> {
    [BlockStart(index, OpeningOf(block)), BlockDelta(index, DeltaOf(block)), BlockStop(index)]
  }

  function AllBlockEvents(blocks: seq<Block>, index: nat): seq<Event> {
    if blocks == [] then [] else BlockEvents(blocks[0], index) + AllBlockEvents(blocks[1..], index + 1)
  }

  lemma {:induction false} BlockEventsNext(blocks: seq<Block>, index: nat, block: Block)
    ensures AllBlockEvents(blocks + [block], index) ==
            AllBlockEvents(blocks, index) + BlockEvents(block, index + |blocks|)
  {
    if blocks == [] {
      assert [block][1..] == [];
      assert AllBlockEvents([block], index) == BlockEvents(block, index) + [];
    } else {
      assert (blocks + [block])[1..] == blocks[1..] + [block];
      BlockEventsNext(blocks[1..], index + 1, block);
      ConcatAssociative(BlockEvents(blocks[0], index), AllBlockEvents(blocks[1..], index + 1),
                        BlockEvents(block, index + |blocks|));
    }
  }

  lemma OneReadsBack(block: Block, index: nat, rest: seq<Event>)
    ensures var read := ReadBlocks(rest, index + 1);
            ReadBlocks(BlockEvents(block, index) + rest, index) ==
            if read.None? then None else Some(([block] + read.value.0, read.value.1))
  {
    assert (BlockEvents(block, index) + rest)[3..] == rest;
  }

  lemma {:induction false} BlocksReadBack(blocks: seq<Block>, index: nat, reason: StopReason)
    ensures ReadBlocks(AllBlockEvents(blocks, index) + [MessageDelta(reason), MessageStop], index) ==
            Some((blocks, reason))
  {
    var end := [MessageDelta(reason), MessageStop];
    if blocks == [] {
      assert [] + end == end;
    } else {
      var now, later := BlockEvents(blocks[0], index), AllBlockEvents(blocks[1..], index + 1);
      BlocksReadBack(blocks[1..], index + 1, reason);
      OneReadsBack(blocks[0], index, later + end);
      ConcatAssociative(now, later, end);
      assert blocks == [blocks[0]] + blocks[1..];
    }
  }

  lemma MessageReadsBack(id: string, blocks: seq<Block>, reason: StopReason)
    ensures ReadMessage([MessageStart(id)] + AllBlockEvents(blocks, 0) + [MessageDelta(reason), MessageStop]) ==
            Some((id, blocks, reason))
  {
    var end := [MessageDelta(reason), MessageStop];
    BlocksReadBack(blocks, 0, reason);
    assert ([MessageStart(id)] + AllBlockEvents(blocks, 0) + end)[1..] == AllBlockEvents(blocks, 0) + end;
  }

  lemma WriteNext(start: Event, body: seq<Event>, written: seq<Block>, block: Block, more: seq<Event>)
    requires body == AllBlockEvents(written, 0) && more == BlockEvents(block, |written|)
    ensures body + more == AllBlockEvents(written + [block], 0)
    ensures [start] + body + more == [start] + (body + more)
  {
    BlockEventsNext(written, 0, block);
    ConcatAssociative([start], body, more);
  }

  // ----- the writer -----

  /** Writes a turn so that a strict reader gets back its message id, its blocks
      under the numbers 0, 1, ... and its stop reason: nothing lost, repeated,
      unclosed or out of order. */
  method FormatAnthropicSse(step: ScriptedTurn, turnIndex: nat) returns (events: seq<Event>)
    ensures ReadMessage(events) ==
            Some(("msg_example_" + Decimal(turnIndex + 1),
                  BlocksOf(step, turnIndex),
                  if CallsOf(step) != [] then ToolUse else EndTurn))
  {
    var start := MessageStart("msg_example_" + Decimal(turnIndex + 1));
    events := [start];
    var nextBlockIndex := 0;
    ghost var written: seq<Block> := [];
    ghost var body: seq<Event> := [];
    if step.text.Some? && step.text.value != "" {
      var index := nextBlockIndex;
      nextBlockIndex := nextBlockIndex + 1;
      events := events + [BlockStart(index, TextOpening),
                          BlockDelta(index, TextDelta(step.text.value)),
                          BlockStop(index)];
      written := TextBlocks(step);
      body := BlockEvents(written[0], 0);
      WriteNext(start, [], [], written[0], body);
      assert [] + body == body && [] + written == written;
    }
    var calls := CallsOf(step);
    for callIndex := 0 to |calls|
      invariant events == [start] + body && body == AllBlockEvents(written, 0)
      invariant nextBlockIndex == |written|
      invariant written == TextBlocks(step) + CallBlocks(step, turnIndex, callIndex)
    {
      var call := calls[callIndex];
      var index := nextBlockIndex;
      nextBlockIndex := nextBlockIndex + 1;
      var id := if call.id.Some? then call.id.value else DefaultCallId(turnIndex, callIndex);
      var block := [BlockStart(index, ToolUseOpening(id, call.name)),
                    BlockDelta(index, InputJsonDelta(call.input)),
                    BlockStop(index)];
      WriteNext(start, body, written, CallBlock(call, turnIndex, callIndex), block);
      events := events + block;
      body := body + block;
      ConcatAssociative(TextBlocks(step), CallBlocks(step, turnIndex, callIndex),
                        [CallBlock(call, turnIndex, callIndex)]);
      written := written + [CallBlock(call, turnIndex, callIndex)];
    }
    var reason := if |calls| != 0 then ToolUse else EndTurn;
    MessageReadsBack(start.id, written, reason);
    events := events + [MessageDelta(reason), MessageStop];
  }
}

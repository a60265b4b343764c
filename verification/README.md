# Conversation histories of `@texra-ai/llm`, verified

A Dafny model of the parts of TeXRA that decide what a model is sent and what
its failures mean, with proofs that they do what the code and its documentation
promise.

- **Histories.** A conversation is a sequence of user, assistant, tool and
  system messages. `PreparedHistory` is the rule a history meets before a turn
  may send it, as the loop that reports issues, as an automaton, and as a
  grammar. `AssistantContent` is the one-pass check of an assistant's content.
- **Replay.** On a mid-run switch of model, what another model of the same
  protocol wrote is sent as plain content. `Replay` holds the loop and the
  definition it refines, which reads the history from the front and has no flag
  and no rewritten output. `ReplayValidity`, `ReplayOrder` and `ReplayLaws` say
  what a replay keeps, where each message goes, and how replays combine.
- **Requests.** `ResponsesLowering` turns a replayed history into the input
  items of a Responses request, user and result parts included; `ResponsesWire`
  says on the fields of each item what it tells, and that a switch of model
  loses no said text; `ResponsesRequests` proves whom its results answer, exactly when it can be
  built, and what reaches the provider as it was said. `ResponsesContinuations`
  mints continuations and proves that sending only the rest sends all of it.
  `TurnResults` checks what a provider returned, and `Conversation` runs whole
  conversations over all of these.
- **JSON keys.** `JsonKeys` is the depth-first search over heap objects that
  refuses cycles and `__proto__`, with its shared, mutable set of ancestors.
- **Failures.** `ModelErrors` is the chain of scopes that complete an error.
- **Machines.** `GoalLedger` (rounds under a spend cap), `KillPoints` (the
  crash example's event filter), `TraceFrames` (a trace cut at a position) and
  `ScriptedSse` (a scripted turn as a stream).

Where the source loops and mutates, the model does too: each such method is
proved against a specification function or predicate, and the theorems are
lemmas about that specification.

Two results say that the code does something its comments do not, each with
its exact condition and an input that shows it:

- `loweredItemCount` is described as the items a message lowers to, with any
  drift failing a continuation's `coveredItems` check. The count is taken of
  the messages before replay, both when it is stored and when it is checked, so
  a drift is not noticed. It is the number of items exactly when replay strips
  no reasoning and joins no users (`CountIsExactIff`, `CountDrifts`).
- "A field the error already carries is never overwritten" includes the scope
  the constructor derives: two fills are one fill of both scopes' knowledge,
  except when the inner one leaves a retryable status without a scope, and the
  outer one says `model` (`FillsComposeIff`, `RateLimitScopeIsTaken`).

Two more mark where a natural expectation ends; no comment claims either. Replay
keeps a sendable history sendable, but not conversely: dropping an assistant can
bring a result next to its call (`ReplayMayMend`), in a history
`PreparedHistorySchema` would have refused; a replay is sendable exactly when
the messages it keeps are (`ReplaySendableIff`). And a switch of model within a
protocol can block a history, but only by what the model switched to wrote
before (`SwitchLowersIff`, `SwitchBackMayBlock`).

## Model

| member | source | states |
|---|---|---|
| Protocols.SameModelOrigin | packages/llm/src/protocol.ts:78-96 | an origin matches a binding exactly when it is present and equal in every field, `codecVersion` included; a null one matches none |
| PreparedHistory.CheckPreparedHistory | packages/llm/src/protocol.ts:155-194 | the loop reports exactly the issues the neighbours of each message give, in message order |
| PreparedHistory.IssuesExact | packages/llm/src/protocol.ts:152-194 | issue indices strictly increase, so there is at most one a message, and an issue is reported at a message if and only if its neighbours break the rule there |
| PreparedHistory.IssuesCompose | packages/llm/src/protocol.ts:159-192 | check(a ++ b) is check(a) followed by check(b) shifted by the length of a, if and only if the cut does not fall between a calling assistant and a tool group |
| PreparedHistory.CutSendable | packages/llm/src/protocol.ts:159-192 | outside an exchange a whole is sendable iff both sides are; a cut inside one leaves neither side sendable |
| PreparedHistory.SendableIffAccepted | packages/llm/src/protocol.ts:155-194 | no issue is found if and only if an automaton over the number of unanswered calls accepts the history |
| PreparedHistory.SendableIffUnits | packages/llm/src/protocol.ts:152-194 | no issue is found if and only if the history reads as users, system texts, call-free assistants, and calling assistants each with its complete, ordinal-ordered group |
| PreparedHistory.ResultsMatchCalls | packages/llm/src/protocol.ts:164-178 | in a sendable history the adjacent call/result pairs are all calls zipped with all results: a bijection in order |
| AssistantContent.ValidateAssistantContent | packages/llm/src/message.ts:128-183 | the pass with its two sets reports, part by part, exactly the faults the declarative reading of the content gives (a repeated id is one an earlier part carries) |
| AssistantContent.FaultCounted | packages/llm/src/message.ts:136-180 | one issue per part of foreign evidence and per malformed thinking part; as many repeated-id issues as parts with an item id (calls) less the distinct item ids (call ids) |
| AssistantContent.IssuesPermuted | packages/llm/src/message.ts:135-182 | permuting the content changes the number of no kind of issue |
| AssistantContent.NoIssuesIffValidated | packages/llm/src/message.ts:126-183 | no issue if and only if all evidence is of the origin's protocol, thinking is well shaped, and item ids and call ids are each distinct |
| AssistantContent.IssuesOnFields | packages/llm/src/message.ts:135-182 | where each issue stands, on the part's fields: evidence of another protocol or without an origin; signed thinking with a summary or not exactly one text, redacted thinking with any summary or content; an item id or call id an earlier part names |
| AssistantContent.AcceptedOnFields | packages/llm/src/message.ts:126-183 | no issue if and only if no part has such evidence or such thinking and no two parts name one item or make one call |
| Replay.ReplayableHistory | packages/llm/src/message.ts:245-291 | the loop with its `dropped` flag and its overwritten last output computes the flagless front-to-back definition |
| Replay.SqueezeNext | packages/llm/src/message.ts:278-288 | appending one message to the history changes the replay only at its end: nothing, one more output, or the last user extended when the message before was dropped |
| ReplayValidity.ReplayKeepsSendable | packages/llm/src/message.ts:245-291 | a history that passes the prepared-history check replays, for every turn, to one that passes it |
| ReplayValidity.ReplaySendableIff | packages/llm/src/message.ts:253-288 | a replay passes the check if and only if the undropped messages do, taken alone |
| ReplayValidity.ReplayMayMend | packages/llm/src/message.ts:274-275 | for any two models of a protocol, a history that may not be sent whose replay may |
| ReplayValidity.ReplayKeepsExchanges | packages/llm/src/message.ts:254-273 | of a sendable history, the ordered pairs of (call id, name, argument bytes, result) are the same before and after replay |
| ReplayOrder.NextOutIndex | packages/llm/src/message.ts:278-288 | from one kept message to the next the output index grows by one, or by none exactly when both are users and something was dropped between them |
| ReplayOrder.OutIndexMonotone | packages/llm/src/message.ts:249-290 | the index map is monotone and starts at 0 |
| ReplayOrder.OutIndexOnto | packages/llm/src/message.ts:249-290 | every output index is some kept message's |
| ReplayOrder.ReplayedAt | packages/llm/src/message.ts:276-288 | each kept message is found at its index: as its plain self, or as the user message holding, in order, the input of all users sent there |
| ReplayOrder.OthersStand | packages/llm/src/message.ts:253-257 | an assistant with no origin, with one of another protocol or with the turn's own, a tool group and a system text stand unchanged at their index in the replay |
| ReplayOrder.ReplayedLength | packages/llm/src/message.ts:249-290 | the output is shorter by the drops and the joins, and there are no more joins than drops |
| ReplayOrder.ReplaySaysErased | packages/llm/src/message.ts:236-243 | the transcript of a replay is the history's transcript with only the reasoning, evidence and refusal marks erased of assistants whose origin is of the turn's protocol and not the turn's own |
| ReplayLaws.ReplayFixpoint | packages/llm/src/message.ts:253-277 | a replay returns the history unchanged if and only if every assistant whose origin is of the turn's protocol and not the turn's own has content, all of it already plain |
| ReplayLaws.UnswitchedReplaysToItself | packages/llm/src/message.ts:242-257 | a history without an assistant of the turn's protocol and another origin replays to itself: other protocols' evidence passes through for the codec to refuse |
| ReplayLaws.ReplayIdempotent | packages/llm/src/message.ts:245-291 | replaying a replay for the same turn changes nothing |
| ReplayLaws.ReplayedTwice | packages/llm/src/message.ts:245-291 | replaying for two turns squeezes, once, the union of what each drops |
| ReplayLaws.ReplaysCommute | packages/llm/src/message.ts:245-291 | for any two turns the two passes give the same history in either order |
| ReplayLaws.ReplayedConcat | packages/llm/src/message.ts:278-288 | behind a kept assistant a replay starts over: the replay of a concatenation is the concatenation of the replays |
| ReplayLaws.EvidenceIsOwn | packages/llm/src/message.ts:236-243 | after replay, reasoning, refusal marks and evidence under the turn's protocol belong to the turn's own model; for schema-valid histories so does every piece of evidence of that protocol |
| ReplayLaws.ReplayKeepsAdmitted | packages/llm/src/message.ts:186-223 | a schema-valid history replays to a schema-valid one: no emptied user message, and every assistant still passes its content check |
| ReplayLaws.ReplayEmptyIff | packages/llm/src/message.ts:274-275 | a replay is empty if and only if every message is dropped |
| ResponsesLowering.ReplayCallIds | packages/llm/src/api/openaiResponsesLower.ts:60-73 | the loop leaves a tool message's ids alone, an assistant's call ids in order, and none after anything else |
| ResponsesLowering.LowerParts | packages/llm/src/api/openaiResponsesLower.ts:133-239 | the loop over parts yields one item a part and the call ids, or the first part's refusal |
| ResponsesLowering.LowerMessages | packages/llm/src/api/openaiResponsesLower.ts:80-242 | replaying and lowering message by message over the mutable run of call ids computes the recursive lowering of the replay |
| ResponsesLowering.LowerResults | packages/llm/src/api/openaiResponsesLower.ts:92-114 | the loop over a group's results yields one output a result, or the first refusal of a part |
| ResponsesWire.LoweredPartTold | packages/llm/src/api/openaiResponsesCodec.ts:179-295 | a text is sent as it is; an image as its bytes under its type in lower case, its detail low, high (ultra-high too) or else auto; a document by the id of its live upload, else as its bytes under its type and a name ending in the subtype |
| ResponsesWire.OutputTellsResult | packages/llm/src/api/openaiResponsesLower.ts:92-114 | a result of texts alone is sent as its texts in order, any other as one content a part in order, each its own part's, behind one `Error: ` exactly when it failed |
| ResponsesWire.ItemsTellHistory | packages/llm/src/api/openaiResponsesLower.ts:80-242 | the items of a history that lowers are, in order and with nothing else, one for each user message, system text, assistant part and result, each with that one's own text, parts, arguments and evidence |
| ResponsesWire.SwitchLosesNoText | packages/llm/src/message.ts:236-243 | for every history and turn whose request can be built, its assistant items, evidenced or plain, joined in order, say exactly the texts and refusals the history's assistants said, joined in order |
| ResponsesRequests.RequestAnswersItsCalls | packages/llm/src/api/openaiResponsesLower.ts:91-115 | a request built from a sendable history makes exactly the history's calls in order, and its k-th output tells the k-th call's own result under that call's id: no id is ever missing, a result of texts is their texts in order, any other one content a part, and exactly an error has one mark in front |
| ResponsesRequests.LowersIff | packages/llm/src/api/openaiResponsesCodec.ts:233-295 | a request can be built if and only if the route takes every part of every user message and result (any text, PNG, JPEG, WEBP and single-frame GIF images, documents where it takes files, never audio or video) and every assistant that was not switched carries only what the codec takes |
| ResponsesRequests.FirstRefusalWins | packages/llm/src/api/openaiResponsesLower.ts:133-239 | a history that does not lower is refused at the first message that cannot be sent, for its first part that cannot be, with the reason that part's fields give |
| ResponsesRequests.SwitchLowersIff | packages/llm/src/api/openaiResponsesLower.ts:133-239 | a history that lowers for one model lowers for another of its protocol, on a route that takes as much input, if and only if what that other model wrote itself can be carried |
| ResponsesRequests.SwitchBackMayBlock | packages/llm/src/api/openaiResponsesLower.ts:179-186 | for any two models of a protocol, a sendable history that lowers for one and not for the other, which wrote reasoning without evidence |
| ResponsesRequests.OwnContentRoundTrips | packages/llm/src/api/openaiResponsesLower.ts:142-237 | the own model's evidenced parts are lowered without loss: each item gives its part back |
| ResponsesRequests.SystemRoundTrips | packages/llm/src/api/openaiResponsesLower.ts:117-124 | a system text lowers to one item that gives it back, out of its update marks where it has them; it is a developer message iff the endpoint is OpenAI's own |
| ResponsesRequests.PartRoundTripsIff | packages/llm/src/api/openaiResponsesCodec.ts:179-295 | an input part the route takes can be read back out of what is sent if and only if it is text, an image whose type is in lower case and whose detail is absent, low or high, or a document sent as bytes |
| ResponsesRequests.UserRoundTripsIff | packages/llm/src/api/openaiResponsesLower.ts:126-132 | a user message the route takes lowers to one item with one content a part, in order, and the item gives the message back if and only if every part can be read back |
| ResponsesContinuations.ContinuationSendsTheRest | packages/llm/src/api/openaiResponsesLower.ts:336-348 | lowering the suffix alone, against the ids the raw prefix leaves, gives exactly what the whole request has beyond the prefix's items |
| ResponsesContinuations.ResponseInput | packages/llm/src/api/openaiResponsesLower.ts:307-353 | without a continuation the whole history is lowered; with one that does not cover the history's start, none; else only the rest, and when the covered start ends in the turn's own model's answer that is exactly what the whole request has beyond it |
| ResponsesContinuations.MintedIff | packages/llm/src/api/openaiResponsesLower.ts:256-305 | a continuation is minted if and only if the result is the turn's own, the route stores and the turn ended in stop or tool calls; it names the result's response id and covers what was sent and the turn; a result of another origin is refused |
| ResponsesContinuations.MintedIsHonoured | packages/llm/src/api/openaiResponsesLower.ts:251-353 | a continuation minted on a stored turn covers every later history of its conversation, and what is then sent is the whole request less the covered items |
| ResponsesContinuations.CountIsExactIff | packages/llm/src/api/openaiResponsesLower.ts:37-52 | the covered-item count exceeds the lowered items by the stripped reasoning parts and the joined users, and is exact iff there are none |
| ResponsesContinuations.CountDrifts | packages/llm/src/api/openaiResponsesLower.ts:37-52 | for any two Responses models, a history with an evidenced turn of each lowers to fewer items than it is counted for |
| TurnResults.CheckTurnResult | packages/llm/src/turn.ts:332-381 | the filter reports the content issues, then one issue for each cross-field rule broken, and nothing if and only if the result is sound |
| TurnResults.TurnIssuesOnFields | packages/llm/src/turn.ts:332-381 | which rule is broken when, on the fields: an identity a protocol does not carry, a message or reasoning part cut short in a turn that was not, a continuation of another origin |
| TurnResults.SoundIsSingleProtocol | packages/llm/src/turn.ts:332-381 | a sound result's content evidence, usage receipt, finish evidence, refusal evidence and continuation all name the protocol of its requested origin, and a null response id is Google's without a continuation |
| TurnResults.SoundByProtocol | packages/llm/src/turn.ts:332-381 | what each protocol's sound result may carry: of Anthropic no continuation, finish evidence, item ids or incomplete items; of Google no refusal evidence, receipt, item ids or incomplete items; of Responses a response id, stored anchors and its own reasoning evidence only |
| Conversation.RunInOrder | packages/llm/test-live/support.ts:133-165 | after every step of every run the history is schema-valid, does not start with an assistant, and has no issue, or while calls are open the one issue that they are |
| Conversation.RunPrefix | packages/llm/test-live/support.ts:133-165 | every moment of a run is the end of a run |
| Conversation.RunsStaySendable | packages/llm/src/message.ts:229-291 | whenever a run of asks, system texts, checked turns of any models and ordinal answers has no call open, the history and its replay for any next model are non-empty, schema-valid and sendable |
| Conversation.RunsAnswerTheirCalls | packages/llm/src/api/openaiResponsesLower.ts:91-115 | any Responses request built at such a moment makes the conversation's calls and answers each with its own result |
| Conversation.RequestTellsOutcomes | packages/llm/src/api/openaiResponsesLower.ts:91-115 | such a request makes the calls the run's turns made, in order, and tells the k-th outcome its answers gave under the k-th call's id |
| Conversation.OwnTurnReplaysWhole | packages/llm/src/turn.ts:386-395 | a turn's message, sent back to the model that produced it, is appended to the replay unchanged |
| Conversation.NextRequestSendableIff | packages/llm/test-live/support.ts:132-165 | on a sendable history, answering a turn's calls is sendable iff it made some, and following up iff it made none |
| JsonKeys.HasSupportedJsonKeys | packages/llm/src/protocol.ts:117-129 | ends on every finite object graph, leaves the shared set as it found it on every return, and accepts iff nothing reachable is in the set, owns `__proto__` or lies on a cycle |
| JsonKeys.EveryValue | packages/llm/src/protocol.ts:124-126 | the short-circuiting walk over an object's values accepts iff each value is supported, and restores the set wherever it stops |
| JsonKeys.IsSupportedJson | packages/llm/src/protocol.ts:131-137 | from the root, accepts iff no reachable object owns `__proto__` and no cycle is reachable |
| JsonKeys.SupportedByChild | packages/llm/src/protocol.ts:121-127 | reachability and acyclicity from an object are the visit's two tests and the same question of its children with one parent more |
| JsonKeys.SharingIsAccepted | packages/llm/src/protocol.ts:121-127 | an object over accepted values none of which leads back to it is accepted, however much they share |
| ModelErrors.VerdictIsFixed | packages/llm/src/errors.ts:135-203 | over any chain of fills the kind, the message and the retry verdict stay the first construction's, whatever later fills know |
| ModelErrors.RetryableIff | packages/llm/src/errors.ts:131-203 | unless the first construction was told, an error is retryable over any chain of fills iff it failed in transport or was first rejected with no status, one from 500 up, 408, 409 or 429 |
| ModelErrors.NearestScopeWins | packages/llm/src/errors.ts:181-203 | every carried field is what the first construction to state it stated |
| ModelErrors.FirstDecisionFixesScope | packages/llm/src/errors.ts:163-203 | the scope is fixed by the first construction that is told one or knows a retryable status, to what it was told, else to the route; it is absent iff none did |
| ModelErrors.FilledConstructed | packages/llm/src/errors.ts:168-177 | every error a chain of fills reaches with a retryable status has a scope |
| ModelErrors.RefillIsIdle | packages/llm/src/errors.ts:189-203 | filling again with the same knowledge changes nothing |
| ModelErrors.FillsComposeIff | packages/llm/src/errors.ts:168-203 | two fills equal one fill of both scopes' knowledge, except exactly when the inner one leaves a retryable status without a scope and the outer one says `model` |
| ModelErrors.RateLimitScopeIsTaken | packages/llm/src/errors.ts:168-203 | the exception is met: filled with status 429 and then with scope `model` an error is the route's, filled with both at once the model's |
| GoalLedger.RunGoal | packages/harness/example/09-goal-strategies.ts:61-84 | round r is started with the r-1 earlier reports in order, all earlier verdicts `continue` and the spend under a positive cap; the run ends at the first round that does not go on, as that round says, and the rounds it reports are the `self` calls made |
| GoalLedger.EndingMeans | packages/harness/example/09-goal-strategies.ts:66-82 | which round ends a run how: completed iff the verdict is `done`, paused by a failure, a missing verdict, `needs-user` or the cap after `continue`; with the last spend a reply gave and the last report a verdict gave |
| GoalLedger.CapBounds | packages/harness/example/09-goal-strategies.ts:77-82 | when each round costs at least delta under a positive cap, the rounds gone on past number less than cap/delta |
| GoalLedger.CapHalts | packages/harness/example/09-goal-strategies.ts:77-82 | then among as many rounds as it takes delta to reach the cap, some round does not go on |
| GoalLedger.CappedRunEnds | packages/harness/example/09-goal-strategies.ts:64-82 | so a run given that many outcomes has ended, and has gone on past fewer rounds |
| GoalLedger.CapOverrun | packages/harness/example/09-goal-strategies.ts:82 | a pause at the cap has spent at least the cap and less than the cap plus its last round's cost |
| KillPoints.KillPointFilter.Observe | packages/harness/example/acceptance.ts:459-480 | one event takes the closure's variables to the next reading, and the filter fires only on an own event |
| KillPoints.NextReading | packages/harness/example/acceptance.ts:455-478 | the update is exact: it takes what a log says of the run's latest own script (its id, `self` starts, completed ends of those, a started sign-off) to what the longer log says; other aggregates' events change nothing |
| KillPoints.FirstKillPoint | packages/harness/example/acceptance.ts:449-480 | the stream lets through the last event of the shortest prefix in which, since the latest own script, a started `self` call completed and a sign-off started; if none, no prefix is there; the variables are always the log's own reading |
| TraceFrames.CutIsPrefix | packages/trace-viewer/src/traceFrames.ts:69-102 | with commits in order, a cut shows a prefix of the document, exactly the events no later than its position, and its cursor is the position's commit |
| TraceFrames.FrameInOrder | packages/trace-viewer/src/traceFrames.ts:91-130 | a frame's inputs by place: debug, local, each listing event shown, the subscriptions, each event shown iff the run is named, and the end of the replay |
| TraceFrames.PositionsExact | packages/trace-viewer/src/traceFrames.ts:69-90 | the positions are exactly the selected events, each once and in document order |
| TraceFrames.RecutIsCut | packages/trace-viewer/src/traceFrames.ts:86-90 | cutting a cut document at an earlier position is cutting the original there, and earlier cuts are prefixes of later ones |
| TraceFrames.CheckedIdsExact | packages/trace-viewer/src/traceFrames.ts:94-97 | the checked ids are duplicate-free, exactly those the listing events name, and a prefix of the ids any longer document checks |
| ScriptedSse.FormatAnthropicSse | packages/harness/example/_support.ts:42-122 | a strict reader, which takes only dense, properly bracketed blocks between one start and one stop, reads back the turn's id, its text unless empty, its calls and its stop reason |
| ScriptedSse.BlocksOnFields | packages/harness/example/_support.ts:64-117 | the blocks are the text if it is not empty, then one a call in order with its own name and input, under its own id or else the numbers from 1 of turn and call |
| ScriptedSse.BlocksReadBack | packages/harness/example/_support.ts:64-117 | any list of blocks, written from any number on, reads back as itself |
| ScriptedSse.DefaultIdsDistinct | packages/harness/example/_support.ts:90 | across a run, two calls with the same default id are the same call of the same turn |

## Left out

- ResponsesLowering.LowerMessages: whether bytes are a GIF and of how many frames, and which documents have a live file id, are facts the route's configuration is given; `gifFrameCount`, the upload cache and its clock are not part of this model. Letters are lowered in ASCII, the only letters the image types have. `callIds`, one array the source clears and fills, is passed in and out as a value, so sharing of that array is not captured.
- ResponsesRequests.UserRoundTripsIff: what the sent content still tells is read from the content alone; a file id tells nothing, though the provider holds the bytes.
- ResponsesContinuations.ResponseInput: the fingerprint is any function of the covered messages; its hash, and the system text and origin it also covers, are left out.
- Replay.ReplayableHistory: `out` is a sequence the loop reassigns; the sharing of untouched messages between input and output is not captured.
- JsonKeys.HasSupportedJsonKeys: an object's values are a list of nested values; getters and proxies that compute values while they are read are not modelled. The finite graph is a ghost argument.
- ModelErrors.NearestScopeWins: the fields no decision reads are opaque texts in a map; a status and a scope are the only ones the code looks into.
- GoalLedger.RunGoal: runs over the outcomes its calls have had so far and otherwise waits, since the source's loop need not end; `phase`, `fork` and the prompt's exact wording are left out.
- KillPoints.FirstKillPoint: reads a finite log; the race with the process's exit and the time limit are not part of this model.
- TraceFrames.CutIsPrefix: what lists an event and which aggregates it names are fields of the event, since `listingTypeOf` and `referencedAggregates` live elsewhere.
- Schema decoding: string formats, minimum lengths of ids, names and media, base64 and URL checks; the contents a message may not leave empty are modelled.
- `completedTurn`, `originOf`, `backgroundCapable`, `authOrRejectionKind`, `scriptReturnsOf`, `scriptedFetch`: one branch, index or fold each, with no property beyond their text.
- `sdkModelError` and `retryAfterMsOf`: string and date parsing of headers.
- Uploads, credentials and transport: not part of this model.
- The Anthropic and Google lowerings: the same replay and the same pairing by ordinal; only the Responses codec is modelled.
- `traceHostBridge.ts`: page state (`cut`, `selected`) around the frame, driven by the DOM and a promise.

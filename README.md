# AutoTestify client core, modelled in Dafny

AutoTestify turns pasted requirements into test cases. The page sends the requirements to an analysis engine over a WebSocket session, or falls back to two server actions. It shows progress, an optional clarifying question and the results. It then draws the interpreted flowchart and exports the generated test cases as CSV. This project models that core and proves what it promises.

- `wrappers.dfy`, `json.dfy`, `text.dfy`, `domain.dfy` hold shared definitions:
  - `Option` and `Result`;
  - parsed JSON values with JavaScript truthiness, `||`, `??`, `String()` and `Set.has` equality;
  - JavaScript `trim`, control-character removal and `join`;
  - the flowchart and test-case records.
- `messages.dfy`: the message protocol. It covers the eight message tags, the payload records, which tags need a session id, and a decoder. The decoder is proved to read back every well-formed message from its JSON object.
- `ws_client.dfy`: the session client, as a `class Client` whose methods update the transport state, the cached session id, the reconnect counter and the user-close flag. Ghost fields record what it sent, the events it raised, the reconnect delays it scheduled and its pending timers. The invariant `Valid` is kept by every method:
  - at most five attempts since the last acknowledgement;
  - every delay within [200, 30000] ms;
  - every message sent is well formed.

  Three scenario methods check end to end:
  - a disconnect does not cancel an already scheduled reconnect timer;
  - no sixth reconnect is scheduled;
  - an acknowledgement allows sending.
- `analysis_hook.dfy`: the React hook, as a `class Hook` owning a client. Its view changes only through the event-to-state function `Step`. Three scenario methods walk through a top-level session id, an unmount, and an unmount while a reconnect is scheduled, after which the released client still connects again.
- `flowchart_flow.dfy`: the flowchart generation flow. It contains:
  - the validator, as imperative methods proved equal to a recursive specification, which is proved empty exactly for well-formed graphs;
  - the bounded generate, validate and refine loop, as a method proved equal to a recursive `Flow`, whose outcome is characterised over the history of attempts.
- `actions.dfy`: the two server actions, with the language-model flows and `JSON.parse` as parameters.
- `layout.dfy`: the flowchart grid layout. Placed boxes never overlap and fit the container. Every drawn edge joins the right edge of its source box to the left edge of its target box.
- `csv.dfy`: the CSV export. The description column reads back after quote doubling. A file whose fields have no line feed splits back into the header and one row per case.
- `page.dfy`: the page, as a `class App` with one method per handler and effect. A server action's call settles as its reply or as the message it was rejected with. A cross-file scenario shows that a transport that is open but not yet acknowledged leaves the page waiting on its loader with nothing sent.

Some behaviour of the code that the model keeps as written:

- `disconnect` keeps the cached session id; it only sets the user-close flag, sends the farewell and closes (src/lib/ws/client.ts:125-137).
- The hook's `startAnalysis` forwards to the client and does not reset the hook's earlier progress, results or error (src/hooks/useAnalysisWS.ts:52-53).
- When the reconnect attempts run out, `scheduleReconnect` returns without raising anything (src/lib/ws/client.ts:92-95).
- The CSV writes the id column unescaped, quotes the standards column without escaping it, and ends lines with a bare line feed (src/components/app/TestCasesView.tsx:36-41).

## Model

| member | source | states |
|---|---|---|
| Text.Trim | src/app/actions.ts:36 | the result is a slice of the input; what is cut off at either end is white space, and neither end of the result is |
| Text.TrimEmptyIff | src/app/actions.ts:17 | trimming gives the empty string exactly when every character is white space |
| Text.BlankIff | src/app/page.tsx:69 | the recursive blankness test agrees with an empty trim |
| Text.TrimIdempotent | src/app/actions.ts:36 | trimming twice is trimming once |
| Text.RemoveControls | src/app/actions.ts:35 | a single character is dropped exactly when it is a control character; no control character survives; a text without any is unchanged |
| Text.RemoveControlsAppend | src/app/actions.ts:35 | removal works piecewise over concatenation, so the kept characters stay in their order |
| Json.Or | src/app/page.tsx:190 | `a \|\| b` is `a` when truthy, else `b`; the result is truthy exactly when either operand is |
| Json.Coalesce | src/lib/ws/client.ts:59 | `a ?? b` is `a` unless it is null or undefined; the result is nullish exactly when both operands are |
| Json.CoalesceKeepsFalsy | src/lib/ws/client.ts:59 | a falsy value that is not nullish survives `??` but not `\|\|` |
| Json.Decimal | src/app/page.tsx:150 | a number prints as an optional leading minus (exactly when negative) and then decimal digits without a leading zero, which denote its magnitude |
| Json.ToJsString | src/hooks/useAnalysisWS.ts:32 | `String()` of a string is the string, of an object is `[object Object]` |
| Messages.ParseTag | src/lib/ws/types.ts:2-11 | a recognised type string is the wire name of the tag it yields; an unrecognised one is no tag's name |
| Messages.EightDistinctTags | src/lib/ws/types.ts:2-11 | there are exactly eight tags, with pairwise distinct wire names, each read back as itself |
| Messages.ParseStage | src/lib/ws/types.ts:48 | the three stage names read back; any other string is rejected |
| Messages.ParseRole | src/lib/ws/types.ts:63 | the three role names read back; any other string is rejected |
| Messages.DecodeStrings | src/lib/ws/types.ts:61 | a decoded string list has one entry per JSON item |
| Messages.DecodeStringsToJson | src/lib/ws/types.ts:61 | a string list reads back from its JSON array |
| Messages.DecodeEntriesToJson | src/lib/ws/types.ts:62-65 | a conversation history reads back from its JSON array |
| Messages.DecodeResultsFields | src/lib/ws/types.ts:60-68 | a results payload, optional fields included, reads back from its JSON object |
| Messages.DecodeErrorFields | src/lib/ws/types.ts:76-81 | an error payload reads back from its JSON object |
| Messages.DecodePayload | src/lib/ws/types.ts:21-91 | a decoded payload is the record the tag declares |
| Messages.DecodePayloadToJson | src/lib/ws/types.ts:46-91 | every payload that fits its tag reads back from its JSON form |
| Messages.Decode | src/lib/ws/types.ts:13-18 | a decoded message is well formed, and its type and timestamp are the object's fields |
| Messages.DecodeToJson | src/lib/ws/types.ts:13-91 | every well-formed message reads back from its JSON object |
| Messages.MissingSessionIdRejected | src/lib/ws/types.ts:26-73 | a message whose tag demands a session id is rejected without one |
| WsClient.Pow2 | src/lib/ws/client.ts:96 | a power of two is at least one |
| WsClient.ReconnectDelay | src/lib/ws/client.ts:96-98 | the delay is always within [200, 30000]; it is base plus jitter when that is in range, and 30000 above it |
| WsClient.BaseDelaySchedule | src/lib/ws/client.ts:96 | attempts 0 to 4 wait 1000, 2000, 4000, 8000 and 16000 ms before jitter |
| WsClient.DelayUnclampedWithinLimit | src/lib/ws/client.ts:93-98 | below the attempt limit the clamp never engages and the delay is within 10% of the base |
| WsClient.QuestionKeepsFalsyValue | src/lib/ws/client.ts:59 | a falsy but present `value` is the question, not the fallback |
| WsClient.QuestionFallsBackToPayload | src/lib/ws/client.ts:59 | without `value` and `response` the whole payload is the question |
| WsClient.PickSessionId | src/lib/ws/client.ts:48 | the nested id wins, then the top-level id, then the cached one; a non-empty cache stays non-empty |
| WsClient.EmptyNestedIdFallsThrough | src/lib/ws/client.ts:48 | an empty nested id gives way to the top-level id |
| WsClient.InboundEvent | src/lib/ws/client.ts:41-78 | a frame raises an event exactly when it parses with one of the five handled tags, and never an open or close event |
| WsClient.TypedReplyDispatch | src/lib/ws/client.ts:44-74 | each well-formed server reply raises the event of its tag with its payload; client-only tags raise nothing |
| WsClient.TypedQuestionDispatch | src/lib/ws/client.ts:56-61 | a question message raises a question event carrying its response text |
| WsClient.ConnectMessage | src/lib/ws/client.ts:32-36 | the greeting carries the current time, no top-level session id, and the payload `{sessionId}` when a non-empty id is cached, else `{}` |
| WsClient.Client.constructor | src/lib/ws/client.ts:14-21 | no transport, no session, no attempts, nothing sent or scheduled |
| WsClient.Client.Connect | src/lib/ws/client.ts:25-29 | nothing changes while a transport is open or connecting; otherwise a new transport connects and the user-close flag clears |
| WsClient.Client.TransportOpens | src/lib/ws/client.ts:31-39 | the greeting carrying the cached id is sent and an open event raised; nothing else changes |
| WsClient.Client.TransportMessage | src/lib/ws/client.ts:41-78 | raises exactly the inbound event; an acknowledgement caches the picked id and resets the attempts |
| WsClient.Client.TransportCloses | src/lib/ws/client.ts:80-85 | raises the close event, then schedules one reconnect unless the user closed or the limit is reached |
| WsClient.Client.ScheduleReconnect | src/lib/ws/client.ts:92-101 | after a user close or at the limit nothing changes; otherwise one clamped delay, one timer and one more attempt |
| WsClient.Client.ReconnectTimerFires | src/lib/ws/client.ts:100 | the timer reconnects unless a transport is open or connecting |
| WsClient.Client.StartAnalysis | src/lib/ws/client.ts:103-112 | sends the requirement with the session id exactly when open and sessioned; otherwise nothing is sent |
| WsClient.Client.AnswerQuestion | src/lib/ws/client.ts:114-123 | sends the answer with the session id exactly when open and sessioned; otherwise nothing is sent |
| WsClient.Client.Disconnect | src/lib/ws/client.ts:125-137 | with a transport, sets the user-close flag, says farewell only on an open one and starts closing a live one |
| WsClient.CreateClient | src/lib/ws/client.ts:140-145 | a fresh client already connecting, with nothing sent |
| AnalysisHook.ErrorValue | src/hooks/useAnalysisWS.ts:39 | the stored error is always truthy, and it is the payload's message when that is truthy |
| AnalysisHook.Step | src/hooks/useAnalysisWS.ts:22-42 | each event sets its own state slot as its handler does and leaves every other slot as it was |
| AnalysisHook.QuestionShown | src/hooks/useAnalysisWS.ts:30-33 | the question shown is the normalised value, as a string |
| AnalysisHook.StringQuestionShown | src/hooks/useAnalysisWS.ts:30-33 | a text question, in a payload or bare, is shown verbatim |
| AnalysisHook.ErrorFallback | src/hooks/useAnalysisWS.ts:39 | an error without a truthy message shows "Unknown error" |
| AnalysisHook.TopLevelIdNotShown | src/hooks/useAnalysisWS.ts:24-26 | a top-level-only session id is cached by the client but never reaches the hook's state |
| AnalysisHook.Hook.constructor | src/hooks/useAnalysisWS.ts:13-43 | the initial state, with a fresh client already connecting |
| AnalysisHook.Hook.Handle | src/hooks/useAnalysisWS.ts:22-42 | the new state is `Step` of the old one |
| AnalysisHook.Hook.TransportOpens | src/hooks/useAnalysisWS.ts:23 | connected, and the client greets with its cached id |
| AnalysisHook.Hook.TransportMessage | src/hooks/useAnalysisWS.ts:24-40 | the state steps by the inbound event, if any; an acknowledgement caches the picked id and resets the attempt count and the delays since the last acknowledgement; transport, flag and timers are kept |
| AnalysisHook.Hook.TransportCloses | src/hooks/useAnalysisWS.ts:41 | disconnected and the transport closed; unless the user closed or the limit is reached, one more attempt, its delay recorded and one more timer; otherwise no attempt, delay or timer |
| AnalysisHook.Hook.ReconnectTimerFires | src/lib/ws/client.ts:100 | the hook's state is kept while the client connects again: transport connecting and the user-close flag cleared, one timer fewer, session id and attempts kept |
| AnalysisHook.Hook.StartAnalysis | src/hooks/useAnalysisWS.ts:52-53 | forwards to the client: the requirement is sent exactly when it can send; transport, session id, flag, attempts and timers are kept |
| AnalysisHook.Hook.AnswerQuestion | src/hooks/useAnalysisWS.ts:54-55 | forwards to the client: the answer is sent exactly when it can send; transport, session id, flag, attempts and timers are kept |
| AnalysisHook.Hook.Disconnect | src/hooks/useAnalysisWS.ts:56 | forwards to the client: the close is marked as the user's, the farewell with the reason reaches an open transport, a live transport starts closing, and the session id, attempts and scheduled timers are kept |
| AnalysisHook.Hook.Unmount | src/hooks/useAnalysisWS.ts:44-47 | the client is told "unmount" and the hook drops it; its session id and any pending reconnect timer survive, so a scheduled reconnect still happens |
| FlowchartFlow.IssueTexts | src/ai/flows/generate-interactive-flowchart.ts:142-149 | one text per issue, the k-th being the text of the k-th issue |
| FlowchartFlow.Ids | src/ai/flows/generate-interactive-flowchart.ts:141-143 | the id of each node, in order |
| FlowchartFlow.IdSetHas | src/ai/flows/generate-interactive-flowchart.ts:140-143 | `Set.has` on the collected ids holds exactly when some node id is SameValueZero-equal |
| FlowchartFlow.DupIssuesEmptyIff | src/ai/flows/generate-interactive-flowchart.ts:140-144 | no duplicate issue exactly when the node ids are pairwise distinct |
| FlowchartFlow.EdgeIssuesEmptyIff | src/ai/flows/generate-interactive-flowchart.ts:146-150 | no edge issue exactly when every endpoint is a known id |
| FlowchartFlow.ValidationEmptyIff | src/ai/flows/generate-interactive-flowchart.ts:130-153 | the validator finds nothing exactly for well-formed graphs |
| FlowchartFlow.DupIssuesCount | src/ai/flows/generate-interactive-flowchart.ts:140-144 | duplicates, distinct ids and object ids add up to the node count |
| FlowchartFlow.CollectNodeIds | src/ai/flows/generate-interactive-flowchart.ts:140-144 | the node loop collects the id set and duplicate issues the specification gives, and stops at a null node |
| FlowchartFlow.CheckEdges | src/ai/flows/generate-interactive-flowchart.ts:146-150 | the edge loop reports the specification's endpoint issues, and stops at a null edge |
| FlowchartFlow.ValidateFlowchart | src/ai/flows/generate-interactive-flowchart.ts:130-153 | the validator equals its specification, with a throw as no result |
| FlowchartFlow.ExampleDuplicates | src/ai/flows/generate-interactive-flowchart.ts:141-144 | ids a, a, b give one duplicate issue for a |
| FlowchartFlow.ExampleEdges | src/ai/flows/generate-interactive-flowchart.ts:147-150 | an edge to an unknown target gives exactly one target issue |
| FlowchartFlow.ValidationExample | src/ai/flows/generate-interactive-flowchart.ts:130-153 | a small graph with a duplicate and a dangling edge gets exactly those two issues |
| FlowchartFlow.ValidationExampleText | src/ai/flows/generate-interactive-flowchart.ts:142-149 | those issues read as the validator's messages |
| FlowchartFlow.Assess | src/ai/flows/generate-interactive-flowchart.ts:184-194 | an attempt keeps its output, validates the parse of a string output and any other output as it is, and carries the validator's issues, or only the parse issue when parsing or validation throws |
| FlowchartFlow.AssessAccepts | src/ai/flows/generate-interactive-flowchart.ts:186-191 | an attempt has no issue exactly when the value it validated is a well-formed graph |
| FlowchartFlow.TryAttempt | src/ai/flows/generate-interactive-flowchart.ts:184-194 | the try block computes the assessment |
| FlowchartFlow.Degraded | src/ai/flows/generate-interactive-flowchart.ts:197-206 | the best-effort result ends its open questions with the stop note |
| FlowchartFlow.DegradedKeepsFields | src/ai/flows/generate-interactive-flowchart.ts:198-205 | an object output keeps every other field, and its open questions come first, in order; an absent or falsy list counts as empty, so the note is the only question |
| FlowchartFlow.DegradedWithoutOutput | src/ai/flows/generate-interactive-flowchart.ts:198-205 | a missing or null output becomes just the stop note |
| FlowchartFlow.DegradedThrows | src/ai/flows/generate-interactive-flowchart.ts:199-201 | non-iterable prior open questions make the spread throw |
| FlowchartFlow.Attempts | src/ai/flows/generate-interactive-flowchart.ts:167-182 | the history holds one assessed attempt per round |
| FlowchartFlow.FlowStep | src/ai/flows/generate-interactive-flowchart.ts:184-194 | a rejected attempt moves the loop on with its output and issues |
| FlowchartFlow.FlowStops | src/ai/flows/generate-interactive-flowchart.ts:195-206 | after five rejections the loop returns the degraded last output |
| FlowchartFlow.FlowAccepts | src/ai/flows/generate-interactive-flowchart.ts:188-191 | the first accepted attempt ends the loop with its parsed graph |
| FlowchartFlow.FlowContinues | src/ai/flows/generate-interactive-flowchart.ts:184-194 | a rejected attempt keeps the loop resumable |
| FlowchartFlow.FlowOutcome | src/ai/flows/generate-interactive-flowchart.ts:162-207 | the loop runs at most five attempts, and its result is the outcome of that history |
| FlowchartFlow.GenerateFlowchartOutcome | src/ai/flows/generate-interactive-flowchart.ts:162-207 | one to five attempts; all but the last rejected; an accepted last attempt yields a well-formed graph, a rejected fifth the degraded output |
| FlowchartFlow.GenerateFlowchart | src/ai/flows/generate-interactive-flowchart.ts:162-207 | the imperative loop computes `Flow` from the first attempt |
| Actions.CleanIsClean | src/app/actions.ts:34-36 | the cleaned text has no control character and no surrounding white space |
| Actions.CleanIdempotent | src/app/actions.ts:34-36 | cleaning twice is cleaning once |
| Actions.GenerateUnderstanding | src/app/actions.ts:9-53 | blank requirements are rejected; a failing summary or flowchart flow gives the generic failure; a missing or non-string `flowchartData`, or an unparsable one, gives the summary with the parse message; otherwise the summary and the cleaned, parsed flowchart, with no error |
| Actions.BlankRequirementsCallNothing | src/app/actions.ts:17-19 | for blank requirements the reply does not depend on any collaborator |
| Actions.ParsedTextIsClean | src/app/actions.ts:34-38 | the text handed to the parser never holds a control character |
| Actions.Descriptions | src/app/actions.ts:72 | one description per case, in order |
| Actions.Merge | src/app/actions.ts:79-83 | one test case per generated case, in order, with its id, description and the standards mapped to its description, or none when it is not a key |
| Actions.MergeSameDescription | src/app/actions.ts:82 | cases with the same description get the same standards |
| Actions.GenerateTests | src/app/actions.ts:55-93 | test cases exactly when there is no error: the merge of a non-empty generation with the mapper's reply; a failing flow or mapper gives the failure message, an empty generation its own |
| Actions.NoCasesSkipsMapper | src/app/actions.ts:68-70 | with nothing generated, the reply does not depend on the standards mapper |
| Layout.Columns | src/components/app/Flowchart.tsx:37 | one column on mobile, otherwise `Math.min(2, n)`: between one and two columns whenever there is a node |
| Layout.Place | src/components/app/Flowchart.tsx:39-49 | a node keeps its data and gets the standard size; its box lies within a row of `cols` boxes and within the band of its row |
| Layout.PlaceAll | src/components/app/Flowchart.tsx:39-49 | one box per node, in order, each placed by its index |
| Layout.PlacesDisjoint | src/components/app/Flowchart.tsx:39-49 | boxes of distinct indices never overlap |
| Layout.LastIndex | src/components/app/Flowchart.tsx:51 | the last box with the id, or -1 when there is none |
| Layout.NodeMap | src/components/app/Flowchart.tsx:51 | an id maps exactly when some box has it, and to the last such box |
| Layout.Connect | src/components/app/Flowchart.tsx:60-65 | an edge starts on the right side of its source box and ends on the left side of its target box, each within the box's height |
| Layout.Kept | src/components/app/Flowchart.tsx:53-67 | exactly the edges with both ends known, in their order |
| Layout.PlaceEdges | src/components/app/Flowchart.tsx:53-67 | one drawn edge per kept edge, in order |
| Layout.ComputeLayout | src/components/app/Flowchart.tsx:34-70 | no data or no nodes does nothing, missing edges throw, otherwise the placed boxes and edges |
| Layout.ContainerWidth | src/components/app/Flowchart.tsx:80-82 | the container is exactly as wide as a full row of the layout's columns with the gap between them |
| Layout.CeilDiv | src/components/app/Flowchart.tsx:84 | the least multiple count covering the number |
| Layout.LayoutNoOverlap | src/components/app/Flowchart.tsx:39-49 | no two laid-out boxes overlap |
| Layout.LayoutFits | src/components/app/Flowchart.tsx:80-86 | every box lies inside the container |
| Layout.RowBound | src/components/app/Flowchart.tsx:84 | every row index lies below the container's row count |
| Layout.ConnectEnds | src/components/app/Flowchart.tsx:55-63 | a drawn edge joins the boxes last listed under its endpoint ids |
| Layout.EdgeEnds | src/components/app/Flowchart.tsx:51-67 | every drawn edge joins the boxes last listed under its endpoint ids |
| Layout.LayoutEdgeEnds | src/components/app/Flowchart.tsx:51-69 | every edge of a computed layout joins the boxes of its endpoints |
| Csv.Join3 | src/components/app/TestCasesView.tsx:41 | three joined parts are the parts with the separator between |
| Csv.DoubleQuotes | src/components/app/TestCasesView.tsx:37 | escaping keeps every other character, and every quote of the result is one of an adjacent pair |
| Csv.Quote | src/components/app/TestCasesView.tsx:37 | the field is quoted at both ends, keeps every character other than the quote, and every quote between the ends is doubled |
| Csv.Unquote | src/components/app/TestCasesView.tsx:37 | a reader accepts exactly a field quoted at both ends |
| Csv.CollapseDoubled | src/components/app/TestCasesView.tsx:37 | collapsing doubled quotes undoes the escape |
| Csv.UnquoteQuote | src/components/app/TestCasesView.tsx:37 | the description column reads back as the description |
| Csv.StandardsField | src/components/app/TestCasesView.tsx:38 | the standards joined by ", " between quotes, unescaped; no standards give `""` |
| Csv.Row | src/components/app/TestCasesView.tsx:35-39 | id, quoted description and standards separated by commas; the row ends with a quote |
| Csv.Rows | src/components/app/TestCasesView.tsx:35-39 | one row per test case, in order |
| Csv.LinesJoin | src/components/app/TestCasesView.tsx:41 | joining line-feed-free lines and splitting them again gives the lines |
| Csv.ContentLines | src/components/app/TestCasesView.tsx:34-41 | without line feeds in the fields, the file splits into the header and one row per case |
| Csv.HeaderSingleLine | src/components/app/TestCasesView.tsx:34 | the header holds no line feed |
| Csv.RowSingleLine | src/components/app/TestCasesView.tsx:35-39 | a row holds no line feed when its fields hold none |
| Csv.ContentEnds | src/components/app/TestCasesView.tsx:41 | the file starts with the header and ends without a trailing line feed |
| Page.SubmitView | src/app/page.tsx:78-92 | a submittable answer clears the input, closes the question and shows the spinner; otherwise nothing changes |
| Page.FatalError | src/app/page.tsx:94-102 | one more toast, back to input, no loader; nothing else changes |
| Page.ErrorText | src/app/page.tsx:134 | the error's message, or the fallback when it is empty; never an empty toast when the fallback is not empty |
| Page.Fallback | src/app/page.tsx:121-138 | a rejected call or a reply with an error toasts the message (the fallback text for an empty rejection) and returns to input; otherwise the understanding holds the requirements, summary and flowchart; the loader always ends |
| Page.AsValue | src/app/page.tsx:129 | a present summary becomes its string value; an absent one stays undefined |
| Page.LastCandidate | src/app/page.tsx:167-173 | the last history entry whose content is a braced string, or -1 when there is none |
| Page.FlowchartText | src/app/page.tsx:163-181 | a non-empty top-level text wins; any text found is non-empty |
| Page.Summary | src/app/page.tsx:158-160 | the first insight of an array, undefined for an empty one, and "" otherwise |
| Page.SummaryIsFirstInsight | src/app/page.tsx:158-160 | for a results payload as the server types it, the summary is the first insight, or undefined when there is none |
| Page.ProgressText | src/app/page.tsx:149-151 | a non-empty message is shown as it is; otherwise a "Stage: " line |
| Page.GenerateTestsView | src/app/page.tsx:201-223 | without truthy stored requirements a fatal error; a rejected call or an error reply toasts the message and returns to input; otherwise the results screen with the reply's `testCases` as they are, undefined when the reply has none; the spinner always ends |
| Page.App.constructor | src/app/page.tsx:46-70 | home screen, nothing loaded, an empty test-case list, empty answer, question closed, no toasts |
| Page.App.Start | src/app/page.tsx:257 | moves to the input screen; nothing else changes |
| Page.App.QuestionChanged | src/app/page.tsx:72-76 | clears the answer and opens the question exactly when one is present |
| Page.App.SubmitAnswer | src/app/page.tsx:78-92 | the page moves as `SubmitView` says; the trimmed answer is sent exactly when submittable and the client can send |
| Page.App.FatalErrorRaised | src/app/page.tsx:94-102 | the page moves as `FatalError` says |
| Page.App.ErrorReported | src/app/page.tsx:141-145 | a truthy socket error is a fatal error; otherwise nothing changes |
| Page.App.ProgressArrived | src/app/page.tsx:147-153 | a truthy progress value sets the loader text; otherwise nothing changes |
| Page.App.GenerateUnderstanding | src/app/page.tsx:104-138 | when connected, the loader shows and the requirements go out exactly when the client can send; otherwise the page settles on the action's reply or rejection as `Fallback` says |
| Page.App.ResultsArrived | src/app/page.tsx:155-199 | the page moves as the results effect says |
| Page.App.GenerateTests | src/app/page.tsx:201-223 | the page moves as `GenerateTestsView` says, for a reply or a rejection |
| Page.App.StartOver | src/app/page.tsx:225-229 | input screen, understanding cleared and the test-case list emptied |
| Page.App.BackToUnderstanding | src/app/page.tsx:231-233 | understanding screen; nothing else changes |
| Page.App.BackToHome | src/app/page.tsx:235-239 | home screen, understanding cleared and the test-case list emptied |
| Page.CanSubmitIff | src/app/page.tsx:66-69 | an answer is submittable exactly when its trim is non-empty and it is within 5000 characters |
| Page.FallbackSettles | src/app/page.tsx:121-138 | the fallback never leaves the spinner on, and lands on understanding or input, with one toast exactly on input |
| Page.BlankRequirementsToast | src/app/page.tsx:121-138 | blank requirements land on input with the action's empty-requirements message |
| Page.ResultsOutcome | src/app/page.tsx:155-199 | results either reach understanding with the cleaned, parsed flowchart and the first insight, or toast once and return to input; the spinner ends |
| Page.ResultsWithoutFlowchart | src/app/page.tsx:179-181 | results without flowchart text report it missing |
| Page.FlowchartFromHistory | src/app/page.tsx:166-177 | without top-level text, a flowchart is found exactly when some history entry is a candidate, and it is the last one |
| Page.ProgressShown | src/app/page.tsx:147-153 | a progress update shows its message, or "Stage: name (n%)" without one, and the spinner shows |
| Page.TestsNeedRequirements | src/app/page.tsx:202-205 | without truthy stored requirements, generating tests is a fatal error whatever the action would reply |
| Page.TestsShown | src/app/page.tsx:208-217 | generated test cases show on the results screen, without the spinner |
| Page.TestsFromAction | src/app/page.tsx:201-223 | driven by the test action, the results screen shows exactly when the action returns cases, and shows them; a failing or empty generation lands on input with the action's message |
| Page.UnderstandingFromAction | src/app/page.tsx:121-138 | driven by the understanding action, successful flows reach the understanding screen with the requirements, the summary and the parsed flowchart |

## Left out

- The WebSocket object, `JSON.stringify`, `send` and `close` are abstracted. A send appends to the ghost `sent` list. A close moves the transport to CLOSING, and a later `TransportCloses` event finishes it.
- `setTimeout`, `Date.now` and `Math.random` are parameters. The jitter is an integer with |jitter| * 10 <= base, so fractional delays are not modelled.
- `WS_MAX_RECONNECT_ATTEMPTS` is its default of 5; the environment variables in the configuration file are not read.
- Events from a replaced transport are not modelled: every callback concerns the current transport.
- `onerror` and all console logging are left out: they change no state.
- WsClient.PickSessionId: a truthy session id that is not a string (a number or an object) is skipped, because the model's session id is typed as a string; the client would cache it as it is.
- `setHandlers` is not modelled: the handler table is always the hook's.
- `JSON.parse` is a parameter; a parse failure is `None` or a `Failure` carrying the message. JSON numbers are integers.
- The language-model flows the server actions call (summarising, flowchart generation, test-case generation, standards mapping) are function parameters; inside an action, a flow call that throws returns `None` and lands in the action's `catch`. Their schemas are not modelled: not the flowchart flow's declared `{flowchartData}` output, and not the test-case flow's declared output shape.
- Actions.GenerateUnderstanding: a flowchart flow output without a string `flowchartData` (such as the parsed graph its accept path returns) is taken as it resolves, so it gives the parse-failure reply; if the framework enforced the declared output schema it would instead be a rejection and the generic failure, which the model does not capture.
- FlowchartFlow.GenerateFlowchart: the generate and refine prompts always resolve; a `None` from them is an undefined output, which is assessed as a parse error and retried. A prompt that rejects is called outside the flow's `try` (src/ai/flows/generate-interactive-flowchart.ts:167-182), so it rejects the whole flow at once; the loop does not model that rejection. At the action's level it is the `flowchart` parameter of `Actions.GenerateUnderstanding` returning `None`.
- FlowchartFlow.GenerateFlowchart: the refine prompt receives the last output as a value and the issues as `Issue` values, not as their `JSON.stringify` text and message strings. `IssueTexts` gives those strings.
- React's render scheduling and the `await` points are not modelled: each handler and effect runs atomically, and the intermediate "Analyzing requirements..." loader of the fallback is not observable.
- The `try`/`catch` around `answerQuestion` and `startAnalysis` on the page is not modelled, because neither can throw in the model.
- Page.CanSubmitIff: the 5000 limit counts characters, where JavaScript counts UTF-16 code units.
- FlowchartFlow.Degraded: a string output is spread one index key per character; `{...output}` makes one key per UTF-16 code unit, so a character outside the Basic Multilingual Plane gives two keys holding lone surrogates, which the model does not capture.
- Page.App.ProgressArrived: a truthy message that is not a string is stored as its `String()` text, where React stores the value itself.
- Actions.StandardsFor: a plain-object lookup would also find inherited keys such as `constructor`; the model is a map.
- The CSV download (`Blob`, the link element, its `utf-s-8` charset string) and all rendering (JSX, the question popup, mobile detection) are left out. Whether the screen is mobile is a parameter of the layout.
- The optional `position` field of a flowchart node does not affect the layout, so it is not modelled.
- The standalone flowchart pages and the healthcare demo page are not part of this model.

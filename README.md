# Chat stream consumer — a Dafny model

This project models the chat component of a browser client that talks to a
weather agent (`client/src/features/chat/components/Chat.tsx`). The component
keeps an ordered history of messages. Each message has a numeric `id`, a
`type` (`user` or `system`), a `message` text and an optional `streaming`
flag. A submission trims the input and ignores it when nothing is left.
Otherwise it appends a user message with the next id and sends the question
to the agent. It then appends an empty, streaming `system` message with the
id after that and consumes the agent's streamed reply into it. Each chunk the
reader delivers is cut into lines. The lines are parsed into data-stream
parts, and the text of the `text` parts is appended to the reply. On `done`
the reply's `streaming` flag is cleared. An exception on the way is caught,
recorded as the component's error, and clears the loading flag.

Files, one module each:

- `wrappers.dfy` — `Option` and `Result`.
- `js_text.dfy` — the JavaScript `trim` (ECMAScript whitespace and line
  terminators) and `split` on one character, with the properties the
  component relies on.
- `messages.dfy` — `ChatMessage` (the record of Chat.tsx:8-13, with the
  optional `streaming` flag as an `Option<bool>`), the two id formulas, the history
  invariant (positive, strictly ascending ids) and the two by-id updates of
  the stream consumer.
- `data_stream.dfy` — the per-chunk delta: split, drop empty lines, parse,
  keep `text` parts, reduce. The line parser of the data-stream protocol is a
  library function whose code is not part of this model, so it is a
  parameter `parse: string -> Option<StreamPart>`; `None` stands for a
  throw.
- `chat.dfy` — `Pump`, the read-by-read consumption as a recursive function
  (as the source's `pipeStream` is recursive), `Fetch`, the lemmas about a
  whole submission, and the class `ChatComponent`. The class holds the
  history store and the `input`, `error` and `isLoading` signals as fields.
  Its methods update them, and `PipeStream` is a loop proved equal to `Pump`.

The reader of the response body is a `Reader`: the finite sequence of
already decoded chunks its reads deliver, then how it ends (`Done`, or a
read that throws). The agent's answer is a `Response` whose body may be
missing, or `Rejected` when the request itself throws.

## Model

| member | source | states |
|---|---|---|
| `JsText.IsWhiteSpace` | client/src/features/chat/components/Chat.tsx:153 | the characters `trim` strips: among ASCII exactly space and tab through carriage return; NEXT LINE (U+0085) and ZERO WIDTH SPACE (U+200B) are not stripped |
| `JsText.Trim` | client/src/features/chat/components/Chat.tsx:153 | `trim` result is empty exactly when every character is whitespace; otherwise it starts and ends with non-whitespace and is what lies between a whitespace prefix and a whitespace suffix of the input |
| `JsText.LeadingWhiteSpace` | client/src/features/chat/components/Chat.tsx:153 | the count of leading whitespace characters: all of them whitespace, the next one not |
| `JsText.TrailingWhiteSpace` | client/src/features/chat/components/Chat.tsx:153 | the count of trailing whitespace characters: all of them whitespace, the one before not |
| `JsText.TrimmedEnds` | client/src/features/chat/components/Chat.tsx:153 | a string with non-whitespace ends is its own trim |
| `JsText.TrimIdempotent` | client/src/features/chat/components/Chat.tsx:153 | trimming twice equals trimming once |
| `JsText.Split` | client/src/features/chat/components/Chat.tsx:70 | `split('\n')` gives at least one piece and no piece contains the separator |
| `JsText.SplitJoin` | client/src/features/chat/components/Chat.tsx:70 | joining the pieces with the separator gives the string back |
| `JsText.JoinSplit` | client/src/features/chat/components/Chat.tsx:70 | splitting the join of separator-free pieces gives the pieces back |
| `JsText.SplitNoSeparator` | client/src/features/chat/components/Chat.tsx:70 | a string without the separator is one piece |
| `JsText.SplitAtSeparator` | client/src/features/chat/components/Chat.tsx:70 | splitting `a + sep + b` gives the pieces of `a` followed by the pieces of `b` |
| `Messages.MaxId` | client/src/features/chat/components/Chat.tsx:118-121 | `Math.max(acc, ...ids)` is at least `acc` and every id, and is `acc` or one of the ids |
| `Messages.NextUserId` | client/src/features/chat/components/Chat.tsx:159-161 | the user id is 1 on an empty history, otherwise one more than an existing id; it is greater than every id in the history |
| `Messages.NextAssistantId` | client/src/features/chat/components/Chat.tsx:118-123 | the assistant id is at least 1, greater than every id, and is 1 or one more than an existing id |
| `Messages.NextIdsAgree` | client/src/features/chat/components/Chat.tsx:118-123 | on non-negative ids the user formula (159-161) and the assistant formula give the same id |
| `Messages.NextIdFollowsLast` | client/src/features/chat/components/Chat.tsx:159-161 | on an ascending history the next id is the last id plus one (1 when empty) |
| `Messages.AppendNextKeepsAscending` | client/src/features/chat/components/Chat.tsx:159-167 | appending an entry with the next id keeps ids positive, unique and ascending |
| `Messages.SameIdsKeepAscending` | client/src/features/chat/components/Chat.tsx:55-64 | an update that keeps every id in place keeps the history ascending |
| `Messages.AssistantIdFollowsUser` | client/src/features/chat/components/Chat.tsx:118-123 | computed after the user entry is appended, the assistant id is the user id plus one |
| `Messages.Appended` | client/src/features/chat/components/Chat.tsx:78-88 | a non-final read keeps length, order, ids and types; a matching entry gets the delta appended and `streaming` true; every other entry is unchanged |
| `Messages.Finalized` | client/src/features/chat/components/Chat.tsx:55-64 | the `done` update keeps length, order, ids, types and messages; a matching entry gets `streaming` false; every other entry is unchanged |
| `Messages.AppendedTwice` | client/src/features/chat/components/Chat.tsx:78-90 | two successive appends equal one append of both deltas in order |
| `Messages.FinalizedAfterEmptyAppend` | client/src/features/chat/components/Chat.tsx:55-88 | finalizing after an empty append is finalizing alone |
| `Messages.FinalizedIdempotent` | client/src/features/chat/components/Chat.tsx:55-64 | completion is idempotent: a second `done` update changes nothing |
| `Messages.AppendedChangesOneEntry` | client/src/features/chat/components/Chat.tsx:78-88 | with ascending ids an append changes exactly the one entry with that id |
| `Messages.FinalizedChangesOneEntry` | client/src/features/chat/components/Chat.tsx:55-64 | with ascending ids the `done` update changes exactly the one entry with that id |
| `DataStream.NonEmptyLines` | client/src/features/chat/components/Chat.tsx:71 | a line is kept exactly when it is an input line and non-empty; one line is kept or dropped as it is empty or not |
| `DataStream.NonEmptyLinesAppend` | client/src/features/chat/components/Chat.tsx:71 | filtering two runs of lines gives the kept lines of the first followed by those of the second, so with the one-line case the filter keeps exactly the non-empty lines in order |
| `DataStream.ParseAll` | client/src/features/chat/components/Chat.tsx:72 | parsing all lines succeeds exactly when each line parses, yielding each line's part in order; otherwise it fails with the first unparseable line |
| `DataStream.TextValues` | client/src/features/chat/components/Chat.tsx:73-74 | every kept value is the value of a `text` part; one part yields its value if it is a `text` part and nothing otherwise |
| `DataStream.TextValuesAppend` | client/src/features/chat/components/Chat.tsx:73-74 | two runs of parts yield the values of the first followed by those of the second, so with the one-part case exactly the `text` values are kept, in order |
| `DataStream.Reduce` | client/src/features/chat/components/Chat.tsx:75 | the `reduce` (or `''` for no values) is the in-order concatenation of the values |
| `DataStream.FoldConcatIsConcat` | client/src/features/chat/components/Chat.tsx:75 | a left fold of concatenation from `acc` is `acc` followed by the concatenation |
| `DataStream.ConcatAppend` | client/src/features/chat/components/Chat.tsx:75 | concatenation distributes over sequence append |
| `DataStream.AndThenAssociative` | client/src/features/chat/components/Chat.tsx:69-90 | sequencing deltas, first failure first, is associative |
| `DataStream.AndThenOkEmpty` | client/src/features/chat/components/Chat.tsx:69-90 | sequencing with an empty delta changes nothing |
| `DataStream.LinesPipeline` | client/src/features/chat/components/Chat.tsx:71-75 | the pipeline succeeds exactly when every non-empty line parses; a failure names a non-empty input line that does not parse |
| `DataStream.ChunkDelta` | client/src/features/chat/components/Chat.tsx:69-75 | a chunk's delta exists exactly when every non-empty line of its `split('\n')` parses; a failure names such a line, which holds no newline |
| `DataStream.PipelineIsLineByLine` | client/src/features/chat/components/Chat.tsx:71-75 | the filter, parse, filter, map and reduce pipeline equals reading the lines one at a time |
| `DataStream.ChunkDeltaLineByLine` | client/src/features/chat/components/Chat.tsx:69-75 | a chunk's delta is the line-at-a-time reading of its `split('\n')` |
| `DataStream.LinesDeltaAppend` | client/src/features/chat/components/Chat.tsx:69-75 | reading two runs of lines is reading the first, then the second |
| `DataStream.LinesDeltaFailure` | client/src/features/chat/components/Chat.tsx:72 | reading lines fails exactly when some non-empty line fails to parse, and reports the first such line |
| `DataStream.ChunkDeltaFailure` | client/src/features/chat/components/Chat.tsx:69-75 | a chunk's delta exists exactly when every non-empty line parses; otherwise it fails with the first unparseable non-empty line |
| `DataStream.OtherPartsContributeNothing` | client/src/features/chat/components/Chat.tsx:73 | lines that parse to parts other than `text` yield `''` |
| `DataStream.ChunkWithoutTextIsEmpty` | client/src/features/chat/components/Chat.tsx:73-75 | a chunk holding only other frame kinds yields the empty delta |
| `DataStream.EmptyChunkIsEmpty` | client/src/features/chat/components/Chat.tsx:69-75 | an empty chunk yields the empty delta |
| `DataStream.LineEndedChunk` | client/src/features/chat/components/Chat.tsx:70-71 | a trailing newline adds nothing to a chunk's delta |
| `DataStream.ChunkDeltaAtNewline` | client/src/features/chat/components/Chat.tsx:69-75 | cutting a chunk at one of its newlines cuts its delta there, first failure first |
| `DataStream.AlignedChunksDelta` | client/src/features/chat/components/Chat.tsx:69-90 | when every chunk but the last ends with a newline, chunk-by-chunk deltas equal the delta of the whole stream at once |
| `DataStream.TextFrameChunk` | client/src/features/chat/components/Chat.tsx:69-75 | a chunk holding one text frame of plain text (no control character, quote or backslash) yields that text |
| `DataStream.CutFrameIsNotReassembled` | client/src/features/chat/components/Chat.tsx:69-75 | a text frame cut across two chunks before its closing quote fails on the first fragment, though as one chunk it yields its text |
| `Chat.Pump` | client/src/features/chat/components/Chat.tsx:47-91 | whatever the outcome, a consumption keeps length, order, ids and types and changes no entry with another id |
| `Chat.PumpOutcome` | client/src/features/chat/components/Chat.tsx:53-90 | a consumption fails with the first unparseable line if there is one, otherwise with the reader's error, otherwise succeeds |
| `Chat.PumpCompletes` | client/src/features/chat/components/Chat.tsx:53-90 | on `done` with every chunk parsed, the target holds its old message followed by all chunk deltas in arrival order, with `streaming` false |
| `Chat.PumpFails` | client/src/features/chat/components/Chat.tsx:69-90 | on a failure a streaming target stays streaming and holds its old message followed by the deltas delivered before the failure |
| `Chat.Fetch` | client/src/features/chat/components/Chat.tsx:108-149 | a rejected request or a missing body fails and leaves the history; otherwise the history is kept and one entry follows it, of type `system` with the next assistant id |
| `Chat.ConsumeIntoReply` | client/src/features/chat/components/Chat.tsx:116-149 | the empty streaming reply appended with the next id ends finalized with the whole streamed text, or still streaming with the text so far; earlier entries unchanged; ids ascending |
| `Chat.SubmitExchange` | client/src/features/chat/components/Chat.tsx:152-175 | a submission keeps the history, appends the user entry with the next id and then the reply with the id after; it fails exactly as the stream does, or with the rejection or the missing body and only the user entry appended; ids stay ascending |
| `Chat.TwoFrameExchange` | client/src/features/chat/components/Chat.tsx:118-149 | after user entry 1, a reply of two text frames becomes the finalized entry 2 holding both texts in order |
| `Chat.ChatComponent.constructor` | client/src/features/chat/components/Chat.tsx:17-25 | empty history, empty input, no error, not loading |
| `Chat.ChatComponent.SetInput` | client/src/features/chat/components/Chat.tsx:203 | the input holds the typed value |
| `Chat.ChatComponent.AddMessageAndScroll` | client/src/features/chat/components/Chat.tsx:37-43 | the message is appended at the end; earlier entries are unchanged and in order |
| `Chat.ChatComponent.PipeStream` | client/src/features/chat/components/Chat.tsx:47-91 | the loop leaves the history and outcome that the recursive `Pump` gives, and keeps ids ascending |
| `Chat.ChatComponent.FetchStreamingContent` | client/src/features/chat/components/Chat.tsx:95-150 | sends the question alone; on a rejection or without a body it fails and leaves the history and the loading flag; otherwise it clears loading and consumes into a fresh reply, as `Fetch` says; ids stay ascending |
| `Chat.ChatComponent.HandleSubmit` | client/src/features/chat/components/Chat.tsx:152-176 | an input that trims to nothing changes nothing and sends nothing; otherwise the input is cleared, the user entry and reply are appended, a failure is recorded as the error, loading ends cleared, and ids stay ascending |
| `Chat.TwoFrameConversation` | client/src/features/chat/components/Chat.tsx:152-176 | a fresh chat given a trimmed question and a two-frame reply ends with user entry 1 and finalized reply 2, no error, not loading, empty input |

## Behaviours of the code worth knowing

- Chunk boundaries: the code parses each decoded chunk on its own
  (Chat.tsx:69-75). A record split across two chunks is not reassembled, so
  the result does depend on where chunk boundaries fall.
  `CutFrameIsNotReassembled` shows such a case. `AlignedChunksDelta` proves
  that independence holds when every chunk ends on a line boundary.
- Reader release: the code never releases or cancels the reader, on any
  path.
- Single flight: the code clears `isLoading` as soon as the response has a
  body (Chat.tsx:116), before the stream is consumed. The send button is
  therefore enabled again while the reply is still streaming.
- Roles: the reply entries are typed `system`, not `assistant`.

## Left out

- Byte decoding (`TextDecoder` with `{stream: true}`, Chat.tsx:69, 139) is a
  platform call. The reader delivers already decoded strings, so a
  multi-byte character split across chunks is not modelled.
- The data-stream parser's own code is library code outside this model. It
  is the parameter `parse`. `TextFrameParser` is only a stand-in used by the
  scenario lemmas. It accepts just the text frames whose string JSON writes
  without escapes, and parses them as the library does.
- Network and agent access (`MastraClient`, `getAgent`, `agent.stream`,
  Chat.tsx:99-110) is I/O. The response is a parameter, with `Rejected`
  for a request that throws, and the request is returned as the list of
  messages it carries.
- The SHA-256 digest for the `x-amz-content-sha256` header and the endpoint
  lookup (Chat.tsx:96-98) are foreign calls and configuration.
- Rendering, `scrollToBottom`, `onMount` and the markdown view are UI.
- The error signal holds the caught error as a `ChatError` value. Its
  `toString()` text is not modelled. A rejected request carries its reason
  as a string.
- Interleaving: the model runs one submission to completion. A second
  submission that the UI could start while a reply is still streaming is not
  modelled, so neither is "assistant id = user id + 1" under interleaving.
- Ids are unbounded integers. JavaScript numbers lose integer precision
  above 2^53, which is not modelled.
- Strings are sequences of Unicode code points, not UTF-16 code units.
- Async suspension at each `await` is not modelled. `PipeStream` is a loop
  and not the source's recursion; the function `Pump` keeps the recursive
  shape.

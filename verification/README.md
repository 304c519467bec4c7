# llmrelay, verified

A Dafny model of the stateful core of llmrelay, a gateway that relays LLM requests to upstream
providers: the converter from Chat Completions to Responses streams, the coordinator that orders the
log writes of a request, the incremental statistics rollup with the retention of its source rows, and
routing with failover. `dafny verify dfyconfig.toml` checks everything.

Code that updates state step by step is imperative here too: `ThinkTagParser`, `StreamState`,
`BlockReader`, `RollupJob` and `Repository` are classes, the loops are loops, `DedupeInPlace` works on
the array it is given. Each method is proved against a function of its inputs, and the theorems are
about those functions. The log coordinator is a transition system, because what matters about it is
the interleaving of its goroutines.

## How the modules fit together

| module | part of the program |
|---|---|
| `Strings` | string search, trimming, concatenation |
| `ThinkTag` | the incremental `<think>` tag parser and the one-shot splitter |
| `Payloads`, `OneShot` | Chat and Responses payloads; the conversion of a complete response |
| `StreamTrace` | what a converted stream should emit, as a function of all its chunks |
| `StreamConverter` | `streamState` and its methods, proved to emit exactly that |
| `StreamLifecycle` | a monitor for the event protocol, and the proof that it accepts every such stream |
| `StreamRefinement` | the stream's final response against the one-shot conversion |
| `Sse`, `StreamPipeline` | event-stream blocks and frames; `ConvertStream` from bytes to frames |
| `LogTasks` | the per-request log coordinator |
| `Rollup`, `Retention`, `Pruning` | the five-minute buckets; pruning of old request rows; the two together |
| `Routing`, `Dedupe`, `Resolver`, `Failover` | channel order, route lists, the failover loop |
| `Clients`, `Permissions` | admission of a client; its allow-list against the models really forwarded |
| `JsonString` | quoting a string for a JSON error body |

## Where the code is not what its comments suggest

The model follows the code. Each point below is a theorem.

- **A retry on a status can lose the response.** `forwardOnce` writes nothing when it asks for a retry,
  but the loop takes a non-zero status to mean that it did (internal/gateway/handler.go:251-254 against
  419-423). If all attempts are used up that way the client is sent nothing.
  `Failover.AnswersExactlyWhen` says exactly which policies and requests are safe;
  `Failover.DefaultPolicyLosesTheResponse` shows the default policy with one channel answering 503.
- **The allow-list is consulted once.** A client is admitted for the model it asks for
  (internal/gateway/auth.go:121-143); aliases and fallbacks may then forward another one
  (internal/gateway/handler.go:349-350). `Permissions.ForwardsOnlyAllowedModels` says exactly which
  configurations keep to the list; `Permissions.AnotherModelIsForwarded` is a request that does not.
- **`Wait` can miss a write** that has been linked into its chain but not yet counted
  (internal/logtasks/logtasks.go:61-67): `LogTasks.WaitReturnsExactlyWhen`, `LogTasks.WaitMayMissAWrite`.
- **Retention keeps one row too many.** The cut-off is read at offset `maxRecords`, so a log above its
  cap is never brought down to it (`Retention.CleanupStaysAboveTheCap`), although the comment at
  internal/consolestore/store.go:307 speaks of the Nth-newest row.
- **Chunks behind `[DONE]` are still processed** (internal/responsesconv/stream.go:441-453). Unless their
  text is nothing but think tags they open an item on a stream that has ended
  (`StreamLifecycle.LateTextBreaksTheLifecycle`, if and only if).
- **Streamed and one-shot conversion differ** in places; `StreamRefinement.ResponsesAgreeExactlyWhen` says
  exactly when they do not. The stream ignores refusals (`StreamRefinement.RefusalDiffers`) and annotations
  (`StreamRefinement.AnnotationsDiffer`). Without an identifier in the first chunk each path invents its own
  (`StreamRefinement.MissingIdDiffers`). Function calls without a name or with an empty identifier come out
  differently (`StreamRefinement.UnnamedCallDiffers`, `StreamRefinement.UnusableIdDiffers`). The stream reads
  every choice, the one-shot conversion the first (`StreamRefinement.SecondChoiceDiffers`,
  `StreamRefinement.SecondFinishDiffers`). The stream shows `content` and `reasoning_content`, the one-shot
  conversion one of them: that makes a difference for plain text (`StreamRefinement.MixedSourcesDiffer`) and
  none for an empty think block (`StreamRefinement.MixedSourcesMayAgree`).
- **A tool-call fragment without an index** does not always open a new call, because the number it gets may
  be taken (`StreamTrace.UnindexedFragmentJoins`).
- **The rollup's exactness depends on timing.** A row that completes at or before the cursor, that ties
  with the last row of a full batch and is left out of it, or that is pruned before the cursor passes it, is
  never counted (`Rollup.RollupIsExact`, if and only if, for all runs). Pruning only what the cursor has
  passed does no harm (`Rollup.HarmlessPruning`). The comment at internal/statsstore/rollup.go:166-168
  speaks of deleting and inserting; the code adds.
- **A same-model fallback is no fallback.** Repeating the initial candidates adds no candidate
  (`Failover.SameModelAddsNothing`).
- **A fallback pair is resolved twice.** The model is looked up on the channel the pair names, but the route
  is built from that name once more as if it could be an id (internal/routing/fallback.go:75-91); a channel
  whose name is another channel's id sends the request to that other one (`Resolver.PairModelIsListed`).
- **Distinct routes can share a key** when one channel's name is another's continued behind a colon and the
  models make up for it (`Dedupe.SameKeyExactlyWhen`); the resolver then drops the second
  (`Resolver.TargetIsLost`). Otherwise keys tell routes apart (`Resolver.KeyTellsRoutesApart`).
- **A final line that exactly fills the read buffer** and has no line feed counts as too long if the reader
  reports the end of the input by a read of its own, and not if it does so with the last bytes; the exact
  condition is `Fits` in `Sse.FittingEnds`. Blocks of a CRLF stream keep a trailing carriage return
  (`Sse.CrlfBlockKeepsCr`), which carries no data (`Sse.TrailingCrIsNoData`). Unlike section 9.2.6 of the WHATWG HTML Standard, the reader
  delivers an event that the input ends without a blank line.

## Model

| member | source | states |
|---|---|---|
| Strings.IndexIs | internal/responsesconv/thinktag.go:110-134 | the tag search returns the first occurrence and nothing else satisfies that description |
| Strings.TrimSpaceIs | internal/routing/fallback.go:70-71 | trimming cuts off white space at both ends, and all of it |
| Strings.SpacesAre | internal/routing/fallback.go:70-71 | which characters count as white space |
| ThinkTag.PushPush | internal/responsesconv/thinktag.go:32-42 | pushing two texts of one kind is pushing their concatenation |
| ThinkTag.CoalesceIsCompress | internal/responsesconv/thinktag.go:32-42 | merging segments forgets how they were cut: only which character has which kind matters |
| ThinkTag.CompressIsNormal | internal/responsesconv/thinktag.go:32-42 | merged segments are never empty and neighbours differ in kind |
| ThinkTag.SplitThinkTaggedText | internal/responsesconv/thinktag.go:55-77 | the cursor loop returns the split defined by searching the next tag again and again, with no empty segment and alternating kinds |
| ThinkTag.LongestTagSuffixPrefix | internal/responsesconv/thinktag.go:84-96 | the countdown loop finds the longest suffix of the value that is a proper prefix of the tag |
| ThinkTag.ThinkTagParser.Consume | internal/responsesconv/thinktag.go:109-134 | emits the drained segments and keeps the held suffix and the side of the tag as its state |
| ThinkTag.ThinkTagParser.Flush | internal/responsesconv/thinktag.go:138-143 | emits what is still held, on the side the parser is on, and empties the buffer |
| ThinkTag.IndexSkipsSafe | internal/responsesconv/thinktag.go:109-134 | no continuation can complete a tag that starts before the held suffix |
| ThinkTag.DrainChunked | internal/responsesconv/thinktag.go:109-134 | consuming a text in two parts emits and leaves what consuming it at once does |
| ThinkTag.SplitIsDrainThenFlush | internal/responsesconv/thinktag.go:55-143 | the one-shot split is what one drain emits, followed by the held buffer |
| ThinkTag.SplitContinues | internal/responsesconv/thinktag.go:109-134 | emitted output is final: every continuation's split starts with it and goes on from the held buffer |
| ThinkTag.FeedIsDrain | internal/responsesconv/thinktag.go:109-134 | after any chunking, output and state are those of the concatenated text |
| ThinkTag.ChunkingDoesNotMatter | internal/responsesconv/thinktag.go:55-143 | for every text and every way of cutting it, the segments of all consume calls and the flush, merged, equal the one-shot split |
| ThinkTag.BufferIsLongestHeld | internal/responsesconv/thinktag.go:84-134 | the buffer is exactly the longest suffix of the unemitted text that can still become the current tag, and holds no complete tag |
| ThinkTag.HoldbackIsSoundAndMinimal | internal/responsesconv/thinktag.go:84-134 | an output is emitted if and only if every continuation of the text starts with it |
| ThinkTag.CompletingTag | internal/responsesconv/thinktag.go:84-134 | every held buffer has a continuation after which it is not text at all |
| ThinkTag.SilentExactlyWhenTagsOnly | internal/responsesconv/thinktag.go:109-134 | a text makes the parser emit nothing if and only if it consists of the tags that are due, one after the other, and at most the beginning of the next |
| ThinkTag.TaglessText | internal/responsesconv/thinktag.go:109-134 | text without a "<" is emitted at once and as it is |
| ThinkTag.PiecesAlternate | internal/responsesconv/thinktag.go:46-77 | for every list of tag-free pieces joined by opening and closing tags in turn: the split merges to Message, Reasoning, Message and so on, piece by piece |
| ThinkTag.ThinkBlockSplits | internal/responsesconv/thinktag.go:46-77 | text, "<think>", text, "</think>", text splits into a message, reasoning and a message |
| Payloads.GeneratedIdInjective | internal/responsesconv/response.go:36-50 | item identifiers with one prefix are equal if and only if their positions are |
| Payloads.GeneratedIdLooks | internal/responsesconv/response.go:36-50 | what an item identifier looks like, prefix and sanitizing included |
| OneShot.SanitizeIdLoop | internal/responsesconv/response.go:42-52 | the loop keeps the length and every letter, digit, underscore and hyphen, and puts an underscore for anything else |
| Payloads.OutputTextAppend | internal/responsesconv/response.go:244-264 | the visible text of an output is that of its parts in order |
| OneShot.ConvertChatMessageToResponseItems | internal/responsesconv/response.go:166-206 | the items of a message are its split text at consecutive positions, or its refusal and annotations as the code places them |
| OneShot.ConvertChatToolCallsToResponseItems | internal/responsesconv/response.go:209-242 | one item for each named call, at positions that also count the unnamed ones |
| OneShot.CollectOutputText | internal/responsesconv/response.go:244-264 | the concatenated output_text parts of all message items |
| OneShot.ConvertChatCompletionToResponsePayload | internal/responsesconv/response.go:269-313 | the payload of a complete response: items, calls, status, usage and visible text |
| OneShot.PayloadUsage | internal/responsesconv/response.go:54-80 | the payload has usage if and only if the completion has; input and output come from the fields of either API, the total is as reported or else their sum |
| OneShot.PayloadMetadata | internal/responsesconv/response.go:269-326 | identifier, model, time stamp and visible text of a payload |
| OneShot.PartListReads | internal/responsesconv/response.go:126-149 | content given as a list says what its strings and text parts say, in order, and nothing else |
| OneShot.VisibleTextIs | internal/responsesconv/response.go:151-162 | content wins over reasoning content, which shows only in its absence |
| OneShot.NamedCallComesOut | internal/responsesconv/response.go:224-239 | a named call keeps its name, arguments and identifier, or gets one by its position |
| StreamTrace.FirstSeen | internal/responsesconv/stream.go:295-331 | tool order lists each index exactly once and nothing else |
| StreamTrace.FirstSeenInOrder | internal/responsesconv/stream.go:295-331 | tool order consists of the indices at exactly the positions where an index is new, in order |
| StreamTrace.UnindexedFragment | internal/responsesconv/stream.go:295-331 | a fragment without an index continues a call if and only if the number of calls so far is already an index, and opens one when all indices are smaller |
| StreamTrace.UnindexedFragmentJoins | internal/responsesconv/stream.go:295-331 | a fragment of call 1 and one without an index make a single call |
| StreamTrace.FramesAreDetermined | internal/responsesconv/stream.go:436-454 | the events and the passed-through blocks with their places determine the frames |
| StreamConverter.NoFragments | internal/responsesconv/stream.go:295-331 | an index that was never seen has no fragments |
| StreamConverter.CallSnoc | internal/responsesconv/stream.go:295-331 | a fragment extends the call of its index, by name and arguments, and no other |
| StreamConverter.ToolsSize | internal/responsesconv/stream.go:295-331 | the order list and the call map have the same size, so an index made up from the one is what the other would give |
| StreamConverter.ToolsStep | internal/responsesconv/stream.go:295-331 | the order list and the call map stay the first-seen order and the per-index concatenations, whatever the interleaving |
| StreamConverter.TextGrows | internal/responsesconv/stream.go:271-293 | one delta frame and one longer text keep items and emitted events in step |
| StreamConverter.SealedOk | internal/responsesconv/stream.go:373-413 | a finalized state is again consistent, with the finished trace as its past |
| StreamConverter.StreamState.EnsureStreamCreated | internal/responsesconv/stream.go:161-183 | the creation event goes out once; identifier and model are fixed by the first value, the time stamp by the last |
| StreamConverter.StreamState.FinalizeActiveStreamItem | internal/responsesconv/stream.go:192-226 | afterwards the events are those of the same groups with every item closed |
| StreamConverter.StreamState.EnsureStreamItemStarted | internal/responsesconv/stream.go:228-262 | afterwards an item of the given kind is open, the previous one closed only if it was of another kind |
| StreamConverter.StreamState.AppendStreamTextDelta | internal/responsesconv/stream.go:271-293 | an empty segment does nothing; any other grows the groups by exactly that segment |
| StreamConverter.StreamState.AppendToolCallDelta | internal/responsesconv/stream.go:295-331 | the fragments are added, in arrival order, to the calls they belong to |
| StreamConverter.StreamState.ProcessChatCompletionChunk | internal/responsesconv/stream.go:333-371 | keeps the state consistent with the chunks received, the new one included |
| StreamConverter.StreamState.FunctionCallItemsForStream | internal/responsesconv/stream.go:416-434 | one item for each call in first-seen order, numbered behind the text items |
| StreamConverter.StreamState.EndTrace | internal/responsesconv/stream.go:373-413 | what has been emitted is now exactly the final trace of the chunks received |
| StreamConverter.StreamState.FinalizeStream | internal/responsesconv/stream.go:373-413 | finalizes once: on a finalized stream it leaves frames and history as they are |
| StreamConverter.StreamState.ProcessSseBlock | internal/responsesconv/stream.go:436-454 | a block without data does nothing, `[DONE]` finalizes, a malformed block is passed through behind the events so far, a chunk is processed, also after the end |
| StreamLifecycle.GroupsAccepted | internal/responsesconv/stream.go:192-293 | the text items run through added, part added, deltas, text done, part done, item done, one at a time, kinds alternating, indices from 0 |
| StreamLifecycle.CallsAccepted | internal/responsesconv/stream.go:385-412 | the function calls follow, each added and done, at the next indices |
| StreamLifecycle.OutputTextIsVisible | internal/responsesconv/stream.go:385-412 | the final output_text is the concatenation of all message deltas |
| StreamLifecycle.FinalTraceIsAccepted | internal/responsesconv/stream.go:373-413 | for all chunks the whole trace is one complete lifecycle; done texts equal the deltas and the final response lists exactly the items shown |
| StreamLifecycle.TextItemEvents | internal/responsesconv/stream.go:192-262 | a text item of either kind, event by event, with its payloads written out |
| StreamLifecycle.TwoFragmentsMakeACall | internal/responsesconv/stream.go:295-434 | a call in two fragments, its item and its events written out |
| StreamLifecycle.EmptyStreamTrace | internal/responsesconv/stream.go:373-413 | the events of a stream without chunks, written out |
| StreamLifecycle.PlainStreamTrace | internal/responsesconv/stream.go:333-413 | the events of a stream of one chunk of plain text, written out |
| StreamLifecycle.StreamUsage | internal/responsesconv/stream.go:335-337 | the usage of a stream's response is that of the last chunk with any, field by field, and absent if there is none |
| StreamLifecycle.MetadataIs | internal/responsesconv/stream.go:165-172 | the model is the first one named, the time stamp the last one given |
| StreamLifecycle.NothingAfterTheEnd | internal/responsesconv/stream.go:373-413 | no event at all may follow the end mark |
| StreamLifecycle.LeftInThinkIs | internal/responsesconv/stream.go:373-413 | the parser is left inside a think block if and only if the last complete tag of the stream's text is an opening one |
| StreamLifecycle.SilentMeansNoSegments | internal/responsesconv/stream.go:436-454 | late chunks emit nothing if and only if their text is tags only, from the side the parser was left on |
| StreamLifecycle.LateTextBreaksTheLifecycle | internal/responsesconv/stream.go:436-454 | a run is one complete lifecycle if and only if the text behind `[DONE]` is tags only, the last perhaps cut short |
| StreamLifecycle.LateChunkBreaksTheLifecycle | internal/responsesconv/stream.go:441-453 | a run with one late chunk of plain text is not a complete lifecycle |
| StreamLifecycle.IncompleteExactlyWhenCutOff | internal/responsesconv/response.go:114-124 | a stream's response is incomplete if and only if the last finish reason that arrived, on whatever choice, is a cut-off, and says max_output_tokens for length and content_filter for that |
| StreamLifecycle.ItemIdsAreDistinct | internal/responsesconv/stream.go:228-262 | no two items of a response share an identifier |
| StreamRefinement.SameTextExactlyFromOneSource | internal/responsesconv/stream.go:333-371 | both paths read the same raw text if and only if it comes from one field throughout |
| StreamRefinement.TextItemsAgree | internal/responsesconv/stream.go:228-293 | a stream's text items are the one-shot split of its whole text |
| StreamRefinement.CallItemsAgree | internal/responsesconv/stream.go:416-434 | the call items agree if and only if each call has a name and an identifier, its own or one generated alike |
| StreamRefinement.TextItemsTell | internal/responsesconv/response.go:166-206 | text items without and with annotations are equal if and only if their segments are, and there are no annotations or no message segment |
| StreamRefinement.NumberedCalls | internal/responsesconv/response.go:209-242 | consecutively numbered items are those of a call list if and only if its first calls yield them one by one and the rest yield nothing |
| StreamRefinement.CallItemsMatch | internal/responsesconv/stream.go:416-434 | for any two lists of fragments: the stream's items equal the message's if and only if names, arguments and identifiers match position by position and what the message has beyond is unnamed |
| StreamRefinement.SameUnderOneId | internal/responsesconv/stream.go:373-434 | under one response identifier the outputs are equal if and only if nothing is refused, the texts split alike, no message carries annotations and the calls match |
| StreamRefinement.SameIdExactlyWhen | internal/responsesconv/response.go:24-33 | the two paths have the same response identifier if and only if the first chunk names it or the random draws coincide |
| StreamRefinement.ResponsesAgreeExactlyWhen | internal/responsesconv/stream.go:373-434 | for all chunks, of any number of choices and with a random draw for each path: all fields but the time stamp are equal if and only if the identifiers are, the outputs match, and the last finish reason of all choices says the same as that of the first ones |
| StreamRefinement.OutputsAgreeExactlyWhen | internal/responsesconv/stream.go:373-434 | with one identifier, the outputs alone are equal if and only if they match |
| StreamRefinement.StreamRefinesOneShot | internal/responsesconv/stream.go:373-434 | with one choice, all fields but the time stamp are equal if and only if the identifiers are, nothing is refused, the texts split alike, no message carries annotations, and each call has a name and a usable identifier |
| StreamRefinement.OneSourceRefines | internal/responsesconv/stream.go:373-434 | the same for text from one field, where the texts always split alike |
| StreamRefinement.MixedSources | internal/responsesconv/stream.go:346-365 | content followed by reasoning content: equal outputs if and only if what follows changes no segment |
| StreamRefinement.MixedSourcesDiffer | internal/responsesconv/response.go:151-164 | with plain text in both fields the outputs differ |
| StreamRefinement.MixedSourcesMayAgree | internal/responsesconv/response.go:151-164 | with an empty think block as reasoning content they are equal |
| StreamRefinement.SecondChoiceDiffers | internal/responsesconv/response.go:276-286 | with plain text in two choices the outputs differ |
| StreamRefinement.SecondFinishDiffers | internal/responsesconv/response.go:290 | with a cut-off on the second choice only the outputs are equal and the status differs |
| StreamRefinement.RefusalDiffers | internal/responsesconv/response.go:167-177 | a refusal makes the outputs differ |
| StreamRefinement.AnnotationsDiffer | internal/responsesconv/response.go:179-204 | an annotation on plain text makes the outputs differ |
| StreamRefinement.MissingIdDiffers | internal/responsesconv/stream.go:162-164 | without an identifier in the first chunk two different draws give different identifiers |
| StreamRefinement.TimeStampAgrees | internal/responsesconv/response.go:315-320 | the time stamps agree as soon as one chunk carries one |
| StreamRefinement.UnnamedCallDiffers | internal/responsesconv/response.go:224-227 | a call that is never named is kept by the stream and dropped by the one-shot conversion |
| StreamRefinement.UnusableIdDiffers | internal/responsesconv/stream.go:420-423 | a call with an empty identifier makes the outputs differ |
| Sse.BlockReader.Next | internal/sse/blockreader.go:34-90 | each call returns the next block of the stream; at the end it reports how the stream ended, and from then on nothing |
| Sse.ExtractDataLines | internal/sse/blockreader.go:96-109 | the loop joins the data of all data lines of the block |
| Sse.OneLineCarries | internal/sse/blockreader.go:100-105 | a data line carries exactly what follows the colon, less one space if there is one; any other line carries nothing |
| Sse.JoinedLinesSplit | internal/sse/blockreader.go:98-108 | lines joined with line feeds split into themselves |
| Sse.BlocksCarryTheData | internal/sse/blockreader.go:34-109 | from any point of a stream, the blocks still to come carry exactly the data lines still to come, event by event |
| Sse.StreamDataIsDelivered | internal/sse/blockreader.go:34-109 | for a whole LF or CRLF stream whose lines fit the buffer: no data line is lost, repeated, reordered or moved across a blank line, and the last event needs none |
| Sse.FittingEnds | internal/sse/blockreader.go:40-47 | reading ends with the too-long error if and only if some line does not fit, for readers that report the end with the last bytes and for those that do not |
| Sse.CutBlockKeepsData | internal/sse/blockreader.go:57-61 | the suffixes cut off a block carry no data |
| Sse.LfBlock | internal/sse/blockreader.go:57-61 | the block of an LF stream is its lines without the line feeds that end it |
| Sse.CrlfBlockKeepsCr | internal/sse/blockreader.go:57-61 | the block of a CRLF stream keeps one carriage return at its end |
| Sse.TrailingCrIsNoData | internal/sse/blockreader.go:96-109 | a carriage return at the end of a block changes none of its data lines |
| Sse.FrameData | internal/responsesconv/stream.go:82-86 | a printed frame, with or without the space behind the colon, reads as one event whose only data line is the payload, whatever follows |
| Sse.PrintThenRead | internal/responsesconv/stream.go:82-86 | reading back printed frames, with or without that space, gives exactly their payloads in order, and then the end |
| StreamPipeline.ReachedSnoc | internal/responsesconv/stream.go:436-454 | block by block, the chunks before and behind the first `[DONE]` are told apart |
| StreamPipeline.ValidMeansTrace | internal/responsesconv/stream.go:373-454 | a consistent state has emitted exactly the closed form of its run, finalized or not |
| StreamPipeline.OneLineBlocks | internal/responsesconv/stream.go:436-454 | the payload "[DONE]" is the end mark, with or without a space before it; any other goes to the decoder as it is |
| StreamPipeline.CommentBlock | internal/responsesconv/stream.go:436-454 | a block without a data line does nothing |
| StreamPipeline.ConvertStream | internal/responsesconv/stream.go:482-501 | for every byte stream: the events are the trace of its chunks, each malformed block stands behind exactly the events of the blocks before it, and the lifecycle is complete if and only if nothing late has text |
| StreamPipeline.BytesMeanChunks | internal/responsesconv/stream.go:436-501 | for a stream whose lines fit the buffer, the chunks before and behind the end mark are those in its events read line by line |
| LogTasks.StepKeepsInv | internal/logtasks/logtasks.go:37-91 | every step of every goroutine keeps the whole invariant |
| LogTasks.StepKeepsCounters | internal/logtasks/logtasks.go:37-91 | count and WaitGroup are the numbers of tasks in flight, and every step but a registration comes nearer to the end |
| LogTasks.CleanupKeepsLast | internal/logtasks/logtasks.go:74-84 | the cleanup removes its own entry only, also when a newer write registered before the channel is closed |
| LogTasks.LookupIsOk | internal/logtasks/logtasks.go:96-107 | at any moment the map's channel stands for all writes registered so far, or there is none and all have run |
| LogTasks.WritesAreSerial | internal/logtasks/logtasks.go:60-91 | in every interleaving the writes of one request never overlap and run in registration order |
| LogTasks.ChannelMeansWritten | internal/logtasks/logtasks.go:96-107 | when the awaited channel is closed, every write registered before the call has ended |
| LogTasks.UpdateFollowsInsert | internal/gateway/handler.go:563-628 | every UPDATE comes after the end of its INSERT, and a task that timed out issues none |
| LogTasks.MapIsExact | internal/logtasks/logtasks.go:60-91 | a request has an entry if and only if its newest write has not been cleaned up, and the entry is that write |
| LogTasks.SomeTaskCanMove | internal/logtasks/logtasks.go:60-123 | no reachable state with unfinished tasks is a deadlock |
| LogTasks.FinishedMeansClean | internal/logtasks/logtasks.go:111-132 | once all tasks finish the map is empty and both counters are zero |
| LogTasks.WaitReturnsExactlyWhen | internal/logtasks/logtasks.go:111-123 | the WaitGroup is at zero if and only if every task has finished or is still only linked into its chain |
| LogTasks.WaitMayMissAWrite | internal/logtasks/logtasks.go:61-67 | after one registration it is at zero with the write not begun |
| LogTasks.DrainCompletes | internal/logtasks/logtasks.go:111-123 | from every reachable state the tasks can finish by themselves |
| LogTasks.DrainIsBounded | internal/logtasks/logtasks.go:111-123 | under any schedule without new registrations only so many steps can be taken |
| Rollup.AlignDownIs | internal/statsstore/rollup.go:393-398 | a bucket starts at a multiple of its length and contains its moment if and only if that is not before the epoch or is itself such a multiple |
| Rollup.KeyIs | internal/statsstore/rollup.go:152-157 | the key of a row: its route, its client or none, the upstream's model or else the requested one, and the five minutes it was created in |
| Rollup.Fold | internal/statsstore/rollup.go:178-235 | the row's counters are added to the aggregate, the cursor column is maximized |
| Rollup.MergeIsView | internal/statsstore/rollup.go:237-279 | upserting a batch's buckets into those of everything before gives the buckets of both, computed from scratch |
| Rollup.ViewIgnoresOrder | internal/statsstore/rollup.go:148-164 | the buckets depend only on which rows were folded, not on their order or batching |
| Rollup.RequestsCountRows | internal/statsstore/rollup.go:178-182 | a bucket's requests is the number of rows with its key |
| Rollup.ViewColumns | internal/statsstore/rollup.go:178-235 | every column of a bucket is the count or the sum over its rows of what it stands for, column by column |
| Rollup.RunColumns | internal/statsstore/rollup.go:117-235 | the same in every state of every run |
| Rollup.TotalCountsRows | internal/statsstore/rollup.go:178-182 | over all buckets together requests is the number of rows folded |
| Rollup.CursorIsLastCompleted | internal/statsstore/rollup.go:118-125 | the cursor read back from the buckets is the latest completion among the folded rows |
| Rollup.RollupJob.ReadCursor | internal/statsstore/rollup.go:118-125 | the maximum of the cursor column, zero when there is none |
| Rollup.RollupJob.UpsertAggregate | internal/statsstore/rollup.go:288-373 | exactly the given bucket changes, by addition |
| Rollup.RollupJob.Persist | internal/statsstore/rollup.go:242-279 | whatever the map order, the table becomes the merge of the old table and the batch |
| Rollup.RollupJob.FoldBatch | internal/statsstore/rollup.go:148-175 | the table becomes the merge of the old table and the from-scratch buckets of the batch |
| Rollup.RollupJob.RollupTick | internal/statsstore/rollup.go:117-175 | one call is one tick of the system, for every answer the batch query may give |
| Rollup.NextKeepsSystemOk | internal/statsstore/rollup.go:117-175 | completions, ticks and pruning all keep: buckets of the folded rows, no row folded twice, cursor never decreasing |
| Rollup.NoRowIsCountedTwice | internal/statsstore/rollup.go:117-235 | over every run, pruning and ties included, requests count distinct completed rows, per bucket and in total, and the cursor never goes back |
| Rollup.ExactMeansNothingMissed | internal/statsstore/rollup.go:105-116 | the buckets equal a from-scratch aggregation up to the cursor if and only if no row has been missed |
| Rollup.MissedRowsStay | internal/statsstore/rollup.go:127-143 | a step of any kind misses a row if and only if it completes one at or before the cursor or its batch passes one it does not hold, and a missed row stays missed |
| Rollup.RollupIsExact | internal/statsstore/rollup.go:105-175 | over every run of completions, ticks and prunes, the view is exact if and only if no step so far was of those two kinds |
| Rollup.HarmlessPruning | internal/consolestore/store.go:298-329 | if only rows are pruned that the cursor has passed, the view is exact if and only if no row completed at or before the cursor and no batch parted a tie |
| Rollup.PrunedRowIsLost | internal/consolestore/store.go:318-321 | a concrete run in which pruning an unfolded row makes the view inexact at the next tick |
| Pruning.CleanupKeepsPendingExactlyWhen | internal/consolestore/store.go:298-329 | `Cleanup` is a prune step, and it keeps every row the cursor has still to pass if and only if no such row has more than maxRecords rows created after it |
| Rollup.ShortTickCatchesUp | internal/statsstore/rollup.go:138-143 | after a tick that is not full, an exact view becomes the aggregation of all rows ever completed |
| Rollup.LateCompletionIsLost | internal/statsstore/rollup.go:127-138 | a concrete run in which a row completing at the cursor is never counted |
| Retention.Repository.Cleanup | internal/consolestore/store.go:298-329 | count, cut-off and deletion leave the rows at least as new as the one at the offset |
| Retention.OffsetIsCutoff | internal/consolestore/store.go:309-317 | the row at the offset of the descending list splits the rows as an order statistic |
| Retention.CutoffIsUnique | internal/consolestore/store.go:309-317 | only one creation time can be that cut-off |
| Retention.OnlyOldRowsGo | internal/consolestore/store.go:298-323 | a row goes if and only if more than maxRecords rows are strictly newer; what goes is closed downwards in time |
| Retention.CleanupIsIdempotent | internal/consolestore/store.go:298-329 | pruning twice is pruning once |
| Retention.CleanupStaysAboveTheCap | internal/consolestore/store.go:307-321 | pruning ends at or below the cap if and only if the log was there before |
| Retention.DistinctTimesLeaveOneTooMany | internal/consolestore/store.go:307-321 | with distinct creation times exactly maxRecords + 1 rows stay |
| Routing.FindRoutesByModel | internal/routing/routing.go:148-183 | the loop keeps the serving channels of the sorted list |
| Routing.OrderedIsUnique | internal/routing/routing.go:154-161 | the channel order leaves no choice: two ordered lists with the same members are equal |
| Routing.LessIsLexicographic | internal/routing/routing.go:160 | names are compared as in a dictionary |
| Routing.MatchesAre | internal/routing/routing.go:148-183 | channel by channel: who matches, and who comes before whom, by falling priority and then by name |
| Routing.ExpectedIs | internal/routing/routing.go:71-103 | which type a path asks for |
| Routing.AddressIs | internal/routing/routing.go:213-236 | the address of a route: `/v1` is stripped for OpenAI channels and kept for the others; an untyped channel counts as OpenAI |
| Routing.ModelMatchesAreDetermined | internal/routing/routing.go:148-183 | the matches are exactly the enabled direct channels of the type listing the model, by falling priority and then by name, whatever the map order |
| Dedupe.DedupeInPlace | internal/routing/routing.go:240-252 | the array's front becomes the first occurrence of each key in order, and what lies behind it is untouched |
| Dedupe.DedupeRoutes | internal/gateway/handler.go:303-315 | the returned list is the first-occurrence filter of the given one |
| Dedupe.KeepsTheFirsts | internal/routing/routing.go:240-252 | the kept routes stand, in order, at exactly the positions where a key appears first |
| Dedupe.KeysAreDistinct | internal/routing/routing.go:240-252 | no two kept routes share a key |
| Dedupe.SameKeys | internal/routing/routing.go:240-252 | every key of the input is kept and none is added |
| Dedupe.SameKeyExactlyWhen | internal/routing/routing.go:244 | at one address keys are equal if and only if channel and model are, or one channel's name extends the other's behind a colon and the models make up for it |
| Dedupe.KeyTellsApart | internal/routing/routing.go:244 | for channels whose names do not extend each other, keys are equal if and only if channel and model are |
| Dedupe.KnownKeysAddNothing | internal/gateway/handler.go:303-315 | appending routes whose keys are present changes nothing |
| Dedupe.EarlierStayInFront | internal/gateway/handler.go:303-315 | whatever is appended, the routes kept so far stay in front |
| Resolver.ExplicitPathReads | internal/routing/routing.go:50-69 | the explicit form matches if and only if the path is the prefix, a non-empty slash-free channel, and nothing or a rest that starts with a slash |
| Resolver.ResolveRoutesByModel | internal/routing/routing.go:93-128 | off `/v1` nothing; an alias gives its own targets, deduplicated; any other name the channels that list it |
| Resolver.TargetResolves | internal/routing/routing.go:186-209 | a target resolves if and only if its id or name leads to an enabled channel of the type, and to that channel with the target's model |
| Resolver.TargetsAre | internal/routing/routing.go:107-111 | an alias has the targets it lists, or else the one it names |
| Resolver.AliasRoutesAreItsTargets | internal/routing/routing.go:105-120 | alias routes come only from the alias's own targets, and the key of every target that resolves is kept |
| Resolver.TargetRoutesInOrder | internal/routing/routing.go:112-118 | the routes of an alias come in the order of its targets |
| Resolver.KeyTellsRoutesApart | internal/routing/routing.go:240-252 | routes resolved for one request share a key if and only if they share channel and model, provided no channel's name extends another's behind a colon |
| Resolver.NoTargetIsLost | internal/routing/routing.go:105-120 | then every target of an alias that resolves has its route |
| Resolver.TargetIsLost | internal/routing/routing.go:105-120 | a snapshot and an alias with two resolving targets of which the resolver keeps one |
| Resolver.ModelRoutesAreSound | internal/routing/routing.go:93-128 | every route leads to an enabled channel of the expected type, by that channel's own address |
| Resolver.PairModelIsListed | internal/routing/fallback.go:65-92 | a pair's model is listed on the channel the pair names, and the route leads to that channel if and only if its name is not the id of another |
| Resolver.PairLeadsElsewhere | internal/routing/fallback.go:65-92 | a snapshot in which a pair leads to a channel that does not list its model |
| Resolver.ResolveRoutesForFallbackModels | internal/routing/fallback.go:17-42 | each specifier is an alias first, else a channel and model pair; the result is deduplicated |
| Resolver.SpecRoutesAre | internal/routing/fallback.go:30-40 | a specifier that is an alias stands for it, any other for its pair if it is one |
| Resolver.CustomRoutesInOrder | internal/routing/fallback.go:29-40 | the custom routes come in the order of the specifiers |
| Resolver.PairResolves | internal/routing/fallback.go:65-92 | a pair needs two non-empty halves and an enabled channel of the type that lists the model, and then resolves to that channel and model |
| Resolver.FallbackRoutesAreSound | internal/routing/fallback.go:17-92 | every custom fallback route leads to an enabled channel of the expected type |
| Resolver.ResolveRoutesForAnyModelFallback | internal/routing/fallback.go:97-123 | one route for each model of each eligible channel, in channel order |
| Resolver.AnyRoutesInOrder | internal/routing/fallback.go:109-121 | the any-model routes come channel by channel |
| Resolver.ChannelRouteAt | internal/routing/fallback.go:114-120 | and within a channel model by model |
| Resolver.AnyModelIsEveryListedModel | internal/routing/fallback.go:97-145 | these are exactly the models listed on enabled direct channels of the type, in an order the map order does not affect |
| Failover.FirstRuleWins | internal/gateway/failover.go:113-124 | the first rule for the model decides, and without one there are no fallbacks |
| Failover.FallbackModelsAre | internal/gateway/failover.go:113-124 | the requested model is trimmed before its rule is looked up, and no rule is for an empty name |
| Failover.CandidatesAre | internal/gateway/handler.go:278-296 | where candidates come from: the named channel alone, the routes found alone when there is no fallback, else those, the custom and, in any-model mode, the listed ones |
| Failover.BuildFailoverCandidates | internal/gateway/handler.go:278-296 | the initial routes alone, or the first-occurrence filter of initial, custom and mode routes |
| Failover.SameModelAddsNothing | internal/gateway/handler.go:289-295 | the same-model mode yields the candidates of no fallback mode |
| Failover.InitialStaysInFront | internal/gateway/handler.go:209-230 | the first attempt goes to the first route found, whose type shapes the error of a refused client |
| Failover.EveryCandidateIsSound | internal/gateway/handler.go:278-296 | every candidate leads to an enabled channel of the type the request asks for, custom and any-model ones included |
| Failover.CallsShareOneKind | internal/gateway/handler.go:209-261 | everything is forwarded to channels of one type, that of the first route found |
| Failover.RetriedWritesNothing | internal/gateway/handler.go:320-435 | an attempt writes exactly one response unless it asks for a retry, and then none; a retry reports a status exactly when the upstream answered |
| Failover.Forward | internal/gateway/handler.go:231-275 | for every upstream behaviour the attempts follow the plan, each distinct route in order and as often as allowed, up to the first that is not retried |
| Failover.TriesAllowed | internal/gateway/handler.go:241-246 | one try for a named channel, else one more than the retry count, and none when that is negative |
| Failover.AttemptSettles | internal/gateway/handler.go:320-435 | attempt by attempt: silence ends the run with 504 if and only if the policy is disabled or does not retry timeouts, a broken connection with 502 if and only if it does not retry network errors, an answer is relayed unless its status is one to retry on |
| Failover.ClosingAnswer | internal/gateway/handler.go:263-274 | when every attempt went on, the plan is exhausted, and a 502 is sent if and only if no attempt was answered |
| Failover.TimeoutSwitchIsForSilence | internal/gateway/failover.go:91-93 | the switch for timeouts cannot affect a run whose upstream is never silent |
| Failover.NetworkSwitchIsForBreaks | internal/gateway/failover.go:94-95 | the switch for network errors cannot affect a run whose connections never break |
| Failover.RunIsDetermined | internal/gateway/handler.go:231-275 | the upstream's behaviour decides attempts and responses |
| Failover.NoResponseExactlyWhen | internal/gateway/handler.go:231-275 | at most one response is written; none if and only if every planned attempt was retried and some because of its status |
| Failover.FailuresAreAnswered | internal/gateway/handler.go:263-274 | if all retries made were for timeouts and network failures, exactly one response is written, the 502 when all candidates are exhausted |
| Failover.AnswersExactlyWhen | internal/gateway/handler.go:231-275 | whatever the upstream does there is exactly one response, if and only if the request streams, nothing is to be tried, or the policy never retries on a status |
| Failover.DefaultPolicyLosesTheResponse | internal/gateway/failover.go:46-57 | with the default policy and one channel always answering 503 the client is sent nothing |
| Failover.TriesPerRoute | internal/gateway/handler.go:234-261 | no route key is attempted more often than retryAttempts + 1 times, and exactly that often when the run is exhausted |
| Failover.HandleProxy | internal/gateway/handler.go:191-275 | no route: one 400; a client not admitted for the model it asks for: its refusal; else the run, of at most one attempt if the request names its channel; never two responses |
| Clients.AdmittedMay | internal/gateway/auth.go:66-160 | an admitted client may use the model it asked for |
| Clients.RefusalIs | internal/gateway/auth.go:66-160 | who is refused with 401, 403, 429 and 503, if and only if, and that the admin key never is |
| Clients.FirstKeyIs | internal/gateway/auth.go:86-95 | the managed key of the first credential that has one counts |
| Clients.PatternsMatch | internal/repo/apikey.go:236-249 | a pattern with an asterisk at its end allows every model that begins with the rest, any other only itself |
| Permissions.PlanCovers | internal/gateway/handler.go:234-261 | the plan starts with the first candidate and visits exactly the distinct ones |
| Permissions.OnlyAllowedExactlyWhen | internal/gateway/handler.go:231-261 | whatever the upstream does only allowed models are forwarded, if and only if nothing is tried or the first candidate is allowed and, unless nothing is ever retried, all distinct ones are |
| Permissions.CandidatesMay | internal/gateway/handler.go:278-296 | all candidates are allowed if snapshot, policy and allow-list offer no other model (no alias target, no custom fallback, no listed model in any-model mode), and only then if no channel's name extends another's |
| Permissions.ForwardsOnlyAllowedModels | internal/gateway/handler.go:346-351 | the two together: such a configuration is enough for every forwarded model to be allowed, and the exact condition, checkable before the first attempt, if no channel's name extends another's |
| Permissions.PlainRequestsAreSafe | internal/gateway/handler.go:278-296 | without an alias, a custom rule and the any-model mode every attempt is allowed, whatever the channels are called |
| Permissions.AnyModelIgnoresTheList | internal/routing/fallback.go:97-123 | in any-model mode one listed model that the client may not use breaks the rule |
| Permissions.AnotherModelIsForwarded | internal/gateway/auth.go:121-143 | a client allowed only "m1" and asking for it can be forwarded with "m2" |
| JsonString.Quote | internal/gateway/auth.go:197-225 | the printer's output is the escaped text between two quotes |
| JsonString.EscapedReads | internal/gateway/auth.go:200-222 | each printed character reads back as itself by section 7 of RFC 8259, and does not start with a quote |
| JsonString.EscapesStandFor | internal/gateway/auth.go:202-218 | the escapes by the code points they stand for in section 7 of RFC 8259 |
| JsonString.QuotedTextReadsBack | internal/gateway/auth.go:197-225 | the printed string, whatever follows it, reads back as the original text and ends where printing ended |
| JsonString.NothingBelowSpace | internal/gateway/auth.go:213-219 | no raw control character is printed |

## Left out

- Rollup.Fold: does not add the four price columns, which are floating-point sums; only the integer columns are modelled.
- Rollup.RollupJob.UpsertAggregate: the same for the four price columns.
- JSON: decoding is a parameter (`decode`), encoding of payloads is not modelled; an event is its fields. Entries of `choices` and `tool_calls` deltas that are not objects do not occur; an annotation is an opaque text.
- Emitter: the frames written are collected in the field `frames`; write errors and flushing are not modelled.
- Bytes and runes: a Go string is a sequence of bytes, one `char` each; in `JsonString` a `char` is a Unicode scalar value, and invalid UTF-8, which Go prints as U+FFFD, does not occur. An identifier is sanitized per `char`.
- Strings.TrimSpaceIs: covers ASCII white space only; the source's trimming also knows Unicode white space.
- Constants in payloads: `content_index` (always 0) and fields that are the same in every event are dropped.
- Log coordinator: it is a transition system over values instead of a class with a mutex; each critical section and each channel or WaitGroup operation is one step. Write functions return; a panic in one is not modelled.
- `Wait`'s context and the 30-second timer are the step `Timeout`, which may happen at any moment.
- Batch query: the database's answer is any row list that satisfies the query (`IsBatch`); SQL text, dialects and transactions are not modelled.
- Integer width: counters and time stamps are unbounded; overflow of 64-bit columns is not modelled.
- Upstream: `forwardOnce`'s outcome is a parameter; HTTP, headers, timers and the observer are not modelled. That the body of a request carries a route's model presupposes that it is a JSON object, as it is when a model was read from it.
- Keys: how a credential is looked up, its quota computed and its allow-list parsed are parameters (`keys`); the texts of error bodies are not modelled.
- StreamRefinement.StreamRefinesOneShot: is about chunks of one choice; ResponsesAgreeExactlyWhen has the condition for any number.
- Resolver.AliasRoutesAreItsTargets: promises the key of a target only, because a colliding key really drops its route; NoTargetIsLost has the condition.
- Permissions.ForwardsOnlyAllowedModels: the only-if half is about snapshots in which no channel's name extends another's; otherwise a forbidden candidate may be dropped by a collision, and OnlyAllowedExactlyWhen has the condition on the candidates.
- Pruning.CleanupKeepsPendingExactlyWhen: takes the count, the cut-off query and the deletion of `Cleanup` as one atomic step; rows inserted in between are not modelled.
- Routes: system prompt, credentials and Responses mode of a route are not modelled, nor is the option to include explicit-only channels, which no caller uses.
- `maxFallbackAttempts`: only tested for being positive, as in the code; it caps nothing, so no cap is stated.
- Not modelled: request conversion, usage parsing, catalog, configuration loading, settings caches, the model listings and the console, which are field mapping.

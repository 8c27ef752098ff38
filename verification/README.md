# Clareon: a verified model

Clareon is a desktop assistant that streams answers from a language model, runs the
tools the model asks for under an approval policy, and keeps conversations, messages and
produced files in a database. This project models the parts of it that carry state across
concurrent steps or transform data on its way, and proves what they keep.

**The turn machine.** `Session` is a step system: one conversation session shared by any
number of tasks (generation attempts, user messages, approval answers, stops). A step is
what a task does between two points where another can run: an await, a yield, or an
access to an atomic or to the cancel channel. The backend, the executor, the clock and the
success of a storage call are choices of the environment, so a statement about every
execution is a statement about every interleaving and every outcome. A write is two
statements, the row and then the conversation's time: a failure of the second is reported
as an error though the row stays, and other tasks can run between the two. `Exclusion`,
`Cancellation`, `Gating`, `Prompts` and `Consistency` each hold one invariant of a step;
`Replies` says where the calls of a batch come from; `Runs` puts them together over
executions; `CacheOrder` says when the cache is the stored history in its order; `Pairing`,
`PairedRuns` and `UnpairedRuns` follow tool calls and their answers, and say exactly which
requests are well paired; `Executor` is where the answers come from; `Outcomes` says what
each decision and each stopped reply leads to, `Asking` which calls are blocked, asked about
or run, `Written` what any message that is stored holds, and `Stopping` why a run ends as it
does; `Windows` exhibits two executions in which a stop does less than
expected, one with an unpaired request, and two after which the cache is not the stored
history, and `FiveRounds` one that reaches the limit on rounds.
`SessionObject` has the session's field-changing methods as a class whose invariant is
that it holds the shared part of a reachable state.

**The reference loop.** `Reference` and `ReferenceLoop` are the manager's loop that reads
its history back from storage in every round, as a step machine and as the nested loops it
is written as. `Refinement` and `Equivalence` show that the cached session run alone and
this loop do the same, in both directions. `Manager` is the double-checked creation of
sessions.

**Streaming.** `Translator` turns provider chunks into stream events, `Accumulator` turns
events into content blocks, `Streaming` and `Chunking` say what holds of the two together,
`ChunkReplies` what reply the chunks themselves spell, `FromChunks` follows it into the
database and to the turn's next step, `OllamaCalls` says what Ollama's numbering loses, and
`Wire` and `OllamaWire` turn history into provider messages.

**Rules.** `Paths`, `Approval` and `Remembering` are the path normaliser, the rule
language, its decision procedure and the memory of decisions; `Grants` says what a remembered
call grants to another and who is asked.

**The view.** `Fence` is the fence parser, `MessageList` the list model, `Worker` what
feeds it, and `Shown` what the list shows of what it was told.

**Names and files.** `Names` allocates tool names and registers tools; `Trees` and
`Artifacts` walk directories, synchronise them with the database and restore them.

Where the code and its comments disagree the code is modelled. Statements that are false
of the code are answered by an input at which they fail and an exact condition:

| statement | fails at | holds if and only if |
|---|---|---|
| every request is well paired | `Windows.RequestCanBeUnpaired` | every step before it was `PairedRuns.Clean` (`UnpairedRuns.PairedIffClean`) |
| no tools start under a stop | `Windows.ToolsCanStartUnderStop` | the task is not `Runs.InWindow` |
| a written rule reads back | `Remembering.TrailingBlankIsLost` | `Remembering.Writable` |
| a remembered call is covered | `Remembering.BracketIsLost` | `Remembering.Rememberable` |
| a rule grants what lies below it | `Paths.DotGrantsEverything` | `Paths.Agrees` |
| parsing inverts printing | `Fence.UnclosedBacktickIsCut` | `Fence.Canonical` |
| what was stored can be restored | `Artifacts.FileBecomesDirectory` | `Artifacts.PrefixFree`, `Artifacts.NoneReplaced` |
| all calls of a reply survive | `OllamaCalls.SecondChunkLosesACall` | `OllamaCalls.AtMostOneCarries` |
| answers stand in their calls' places | `OllamaWire.BlockedAfterFree` | `OllamaWire.BlockedFirst` |
| storage is read in insertion order | `Reference.ClockSetBack` | `Reference.Ordered` |
| a chunk extends the placeholder | `MessageList.TwoQuickSends`, `MessageList.RejectedSendBreaksTheRun`, `MessageList.EmptyLoadDropsText` | its `MessageList.FateOf` the marks so far is `Extend` (`MessageList.NextChunk`) |
| a quiet cache holds the stored messages | `Windows.TornWriteIsNotCached` | no write was torn (`Runs.CacheAndStorageAgree`) |
| a quiet cache is the stored history | `Windows.WritersCanCross` | also no push was `CacheOrder.Late` (`CacheOrder.CacheIsStorageInOrder`) |

JSON text, hashing and the clock are parameters: a parser is any partial function, a
printer any function, the argv codec any pair with `decode(encode(xs)) == xs` whose output
is bracketed, and a hash any function, injective where a theorem says so.

## Model

| member | source | states |
|---|---|---|
| Accumulator.AccumulatorRefinesCells | clareon-core/src/conversation/session.rs:284-378 | the vector and the map are a row of independent automata: block and pending input at an index depend only on that index's events, and the length is one plus the largest started or extended index |
| Accumulator.SameEventsPerIndex | clareon-core/src/conversation/session.rs:317-371 | reordering events across indices changes neither blocks nor pending inputs |
| Accumulator.MissingTextStart | clareon-core/src/backend/bedrock.rs:625-630 | putting the start of an empty text block in front of the first event of its index leaves the unfinished inputs as they are, and the blocks too if and only if a start or a delta at that index or beyond it comes at all |
| Accumulator.StreamState.PadTo | clareon-core/src/conversation/session.rs:319-322 | the loop grows the vector with empty texts exactly until the index exists |
| Accumulator.StreamState.Handle | clareon-core/src/conversation/session.rs:317-378 | one event on the mutable vector and map keeps every index equal to its own automaton |
| Translator.SortedIndices | clareon-core/src/backend/openai.rs:598-604 | the started indices come out ascending, each once |
| Translator.Closure.Step | clareon-core/src/backend/openai.rs:504-618 | the closure's set is exactly what was started so far, and its events are the next of the stream's |
| Translator.Closure.OnChunk | clareon-core/src/backend/openrouter.rs:385-480 | a whole chunk, choice by choice, continues the event stream of everything consumed before (what that stream comes to is `ChunkReplies.Receive`) |
| ChunkReplies.StreamedReply | clareon-core/src/backend/openai.rs:504-618 | from the chunks of a finished stream: the text is their contents joined, each call has the id and name of its first piece (numbered where it has none) and the joined arguments of all, parsed or an error object; the stop is tool use if and only if the provider finished for tool or function calls, the token limit if and only if for length, else the end of the turn; the usage is the last reported |
| ChunkReplies.StreamedOllamaReply | clareon-core/src/backend/ollama.rs:321-419 | from Ollama's chunks up to the done mark: their contents joined, one call per number under that number as its id, tool use if and only if some chunk carried a call, and the mark's usage |
| ChunkReplies.Receive | clareon-core/src/conversation/session.rs:284-395 | translator closure and accumulator run together on a stream end with the reply its chunks spell |
| ChunkReplies.ReceiveOllama | clareon-core/src/backend/ollama.rs:321-419 | the same for Ollama's closure |
| FromChunks.FinishedStreamDecides | clareon-core/src/conversation/session.rs:397-439 | the reply a stream spelled goes into both histories as one message, with its text, calls and tokens, and the turn ends there if and only if the provider did not finish for tools or no call was named |
| Translator.Closure.OnOllamaChunk | clareon-core/src/backend/ollama.rs:321-419 | the same for a chunk of Ollama with complete calls and a done mark |
| Streaming.TranslatedIsGrammatical | clareon-core/src/backend/openai.rs:504-618 | for content, one finish and usage reports after it: one start per index before its deltas, one stop after them, stops ascending, one message stop after every stop |
| Chunking.StreamedBlocks | clareon-core/src/backend/openai.rs:504-618 | translated and accumulated, the blocks are the concatenated text and each call's first head with its concatenated, parsed arguments |
| Chunking.ChunkingInvariance | clareon-core/src/backend/openai.rs:504-618 | any two ways of cutting one response into deltas, with calls interleaved at will, end in the same blocks |
| Chunking.ConvertResponse | clareon-core/src/backend/openai.rs:255-311 | the loop over a complete response yields the text if any, then the calls, never nothing |
| Chunking.StreamingMatchesComplete | clareon-core/src/backend/openai.rs:255-311 | streaming and converting agree up to empty text if and only if every argument string parses |
| OllamaCalls.CallsKept | clareon-core/src/backend/ollama.rs:357-382 | a streamed reply keeps as many calls as its longest chunk carries, one for each number used |
| OllamaCalls.AllCallsSurvive | clareon-core/src/backend/ollama.rs:357-412 | the accumulated calls are the ones the model made, by name and parsed arguments and in order, if and only if at most one chunk carries calls |
| OllamaCalls.SecondChunkLosesACall | clareon-core/src/backend/ollama.rs:357-382 | two chunks with one call each: two calls made, one kept |
| Wire.ConvertUser | clareon-core/src/backend/openai.rs:96-168 | one user message: tool messages and texts in block order when it has results, joined text otherwise, nothing when that is empty (laws of the result: `Wire.ResultsGoOut`, `Wire.TextIsUserMessage`) |
| Wire.ResultsGoOut | clareon-core/src/backend/openai.rs:101-148 | in a message with results, each result goes out in order under its call's id with its lines joined, "Error: " in front if and only if it is marked as an error, and each text as it is; nothing else does |
| Wire.ResultsAreToolMessages | clareon-core/src/backend/openai.rs:101-148 | a message of results only becomes exactly its tool messages, position by position |
| Wire.TextIsUserMessage | clareon-core/src/backend/openai.rs:149-168 | a message without results becomes its texts, a line each, and nothing if and only if that is empty |
| Wire.ReplyIsOneMessage | clareon-core/src/backend/openrouter.rs:153-179 | a reply becomes one message with each call's id, name and printed input by position, and its texts; with none, OpenAI leaves the content out and OpenRouter sends it empty |
| Wire.ConvertAssistant | clareon-core/src/backend/openrouter.rs:153-179 | one assistant message with joined text and all calls in order, for either provider's treatment of absent text |
| Wire.ConvertMessages | clareon-core/src/backend/openai.rs:78-227 | the whole conversion, and that its output is well paired exactly when the history answers every call at once (order and contents: `Wire.RequestIsInOrder` and the laws of one message) |
| Wire.RequestIsInOrder | clareon-core/src/backend/openai.rs:78-95 | the system prompt first if there is one, then what each message becomes, in order |
| Wire.OneSystemPrompt | clareon-core/src/backend/openai.rs:78-95 | a message of a request is a system prompt if and only if it is the first and there is a prompt |
| Wire.ScanIsPairing | clareon-core/src/backend/openai.rs:94-227 | each assistant message with calls is immediately followed by exactly its tool messages if and only if a scan of open calls never breaks and ends closed |
| Wire.PairedOnTheWire | clareon-core/src/backend/openai.rs:94-227 | the converted request is well paired if and only if no call of the history is left open or interrupted |
| Wire.AnswerCloses | clareon-core/src/backend/openai.rs:101-148 | a results message closes the open calls if and only if its ids are those calls, as multisets |
| OllamaWire.ConvertMessage | clareon-core/src/backend/ollama.rs:460-508 | the loop's four vectors become at most one message with text, images and calls, then one tool message per result |
| OllamaWire.MessageOnTheWire | clareon-core/src/backend/ollama.rs:460-508 | anything but results goes out as one message in the sender's role with the joined texts, the images and the calls by name and input, none of it lost or reordered; the results follow, a tool message each |
| OllamaWire.ConvertMessages | clareon-core/src/backend/ollama.rs:453-512 | the conversion of a whole history for Ollama |
| OllamaWire.ResultsAreToolMessages | clareon-core/src/backend/ollama.rs:484-508 | a results message becomes exactly its tool messages, in order |
| OllamaWire.SplitKeepsOrder | clareon-core/src/conversation/session.rs:908-922 | denied calls followed by the remaining ones are the batch in its order if and only if no denied call comes after one that is not |
| OllamaWire.AnswersAreInPlace | clareon-core/src/backend/ollama.rs:473-492 | without ids on the wire, each tool message stands in its call's place if and only if no blocked call comes after an unblocked one |
| OllamaWire.BlockedAfterFree | clareon-core/src/backend/ollama.rs:473-492 | a call that ran and a blocked one after it: the two tool messages stand the other way round |
| Paths.NormalizePath | clareon-core/src/tools/approval.rs:199-211 | the push and pop loop computes the normal form |
| Paths.NormalizeResolves | clareon-core/src/tools/approval.rs:199-211 | normal forms hold neither "." nor ".." |
| Paths.NormalizeIdempotent | clareon-core/src/tools/approval.rs:199-211 | normalising twice is normalising once |
| Paths.NormalizeInPieces | clareon-core/src/tools/approval.rs:199-211 | a relative continuation may be normalised against the normal form of its base |
| Paths.NormalizeIsNetMove | clareon-core/src/tools/approval.rs:199-211 | a relative path is a number of steps up, then names down |
| Paths.CoversIsPreorder | clareon-core/src/tools/approval.rs:191-197 | coverage is reflexive, transitive, and mutual only between paths of one normal form |
| Paths.CoveredBelow | clareon-core/src/tools/approval.rs:191-197 | base and suffix are covered by base, with the exact condition on climbing above it |
| Paths.ClimbingBackIsCovered | clareon-core/src/tools/approval.rs:191-197 | a suffix that climbs any number of levels out of any base, names again what it left, and does not climb above that afterwards is covered |
| Paths.RelativeRuleGrants | clareon-core/src/tools/approval.rs:191-197 | a relative rule covers an absolute path if and only if nothing of the rule is left after normalising, and then every absolute path |
| Paths.DotGrantsEverything | clareon-core/src/tools/approval.rs:191-197 | the rule "." covers every path, though no absolute one lies below it from every working directory |
| Paths.RelativeLiesBelow | clareon-core/src/tools/approval.rs:191-197 | a relative path lies below a relative rule from every working directory if and only if both climb as far and the rule's names come first, or the rule only climbs, and further |
| Paths.CoverageIsLyingBelow | clareon-core/src/tools/approval.rs:191-197 | coverage agrees with lying below the rule from every working directory if and only if both paths are absolute, or both are relative with such moves or coverage says no, or one is absolute and the other not and the rule is neither nothing after normalising nor "/" |
| Paths.JoinedIsCovered | clareon-core/src/tools/approval.rs:191-197 | the string base/suffix is covered by base whenever no part of the suffix climbs above base |
| Paths.GluedIsCovered | clareon-core/src/tools/approval.rs:191-197 | text without a slash glued to the end of a path stays below it if and only if the last segment names no directory of its own, and the two do not make a ".." that climbs anywhere |
| Approval.PushArguments | clareon-core/src/tools/approval.rs:227-231 | the argument loop yields all arguments or, at the first that is no string, nothing |
| Approval.ExtractArgv | clareon-core/src/tools/approval.rs:213-237 | the argv of an exec call, or none where the input does not determine one |
| Approval.AddSpecs | clareon-core/src/conversation/session.rs:948-952 | the list is extended at its end by exactly the missing specs and stays without duplicates |
| Approval.LiveConfig.PersistPolicyRules | clareon-core/src/conversation/session.rs:933-960 | the live settings afterwards hold the old rules and the batch's, on the chosen list only |
| Approval.SplitDenied | clareon-core/src/conversation/session.rs:908-922 | the loop splits a batch along the deny list, losing and inventing nothing |
| Approval.SplitPartitions | clareon-core/src/conversation/session.rs:908-922 | denied and remaining calls are the batch as multisets, each on its side of the deny list |
| Remembering.RoundTrip | clareon-core/src/tools/approval.rs:33-78 | writing a rule and reading it back gives the rule if and only if it is writable |
| Remembering.TrailingBlankIsLost | clareon-core/src/tools/approval.rs:33-78 | a path with a blank at its end is read back without it, and the remembered call is asked about again |
| Remembering.BracketIsLost | clareon-core/src/tools/approval.rs:33-78 | an argv "[x" whose text is no JSON is read back as no rule at all |
| Remembering.RememberedTakesEffect | clareon-core/src/tools/approval.rs:81-125 | the spec stored for a call matches that call if and only if the call is rememberable (other calls: `Grants.RememberedGrants`) |
| Remembering.RulesMatch | clareon-core/src/tools/approval.rs:151-164 | a list covers a call if and only if some stored spec, read back, matches it |
| Remembering.RememberExtends | clareon-core/src/conversation/session.rs:933-960 | after remembering a batch exactly the calls covered before and those its specs match are covered |
| Remembering.DecisionsAreRemembered | clareon-core/src/conversation/session.rs:480-492 | after always-deny a rememberable call is denied, after always-allow it no longer prompts, and a call no spec matches is as it was (which calls those are: `Grants.OtherToolsPromptAsBefore`) |
| Grants.ArgvIsSpelled | clareon-core/src/tools/approval.rs:213-237 | an argv is extracted if and only if the input spells it: its list of strings as it stands, or the command with its arguments, or the lone command's words, none of them empty |
| Grants.RememberedGrants | clareon-core/src/tools/approval.rs:104-125 | the spec stored for one call covers another if and only if that is the MCP tool whose name is read back, the same file tool at or below the path that is read back, or an exec tool whose argv begins with the words that are read back |
| Grants.RememberedCovers | clareon-core/src/conversation/session.rs:933-960 | after remembering a batch a call is covered if and only if it was before or one of the batch grants it in this sense |
| Grants.OtherToolsPromptAsBefore | clareon-core/src/conversation/session.rs:480-492 | always-allow or always-deny on calls of file tools leaves every call of another tool prompting, and denied, as before |
| Grants.AskedExactlyFor | clareon-core/src/tools/approval.rs:169-189 | the user is asked if and only if nothing runs by itself and some call is covered neither by a denial nor by a permission; a denial wins |
| Grants.BareNames | clareon-core/src/tools/approval.rs:64-68 | a bare name in a list covers exactly the calls of the MCP tool of that name, and nothing if it is another's |
| Session.Rejections | clareon-core/src/conversation/session.rs:924-931 | one error result per call, in order, with the call's id |
| SessionObject.ReachableIsSound | clareon-core/src/conversation/session.rs:49-174 | in every reachable state, so between any two calls: an open prompt is unanswered, ids are distinct, the cache holds stored messages only, and the flag says whether a task is in a run |
| SessionObject.ConversationSession.constructor | clareon-core/src/conversation/session.rs:49-74 | a session over a loaded history stands for an initial state of the step system with that history, so everything proved of reachable states holds of it |
| SessionObject.ConversationSession.Cancel | clareon-core/src/conversation/session.rs:81-88 | a stop takes the object from one reachable state to another by a task of its own: flag up with a new version, the open prompt answered as cancelled unless its lock was taken, and no earlier answer overwritten |
| SessionObject.ConversationSession.SubmitToolApproval | clareon-core/src/conversation/session.rs:95-99 | the open prompt and no other gets the answer, no earlier answer is overwritten, and nothing changes when none is open |
| SessionObject.ConversationSession.AppendUserMessage | clareon-core/src/conversation/session.rs:164-174 | stores then caches one message under an id no stored message has; an error leaves the cache alone, and storage too unless it came after the insert |
| SessionObject.ConversationSession.BeginGeneration | clareon-core/src/conversation/session.rs:200-204 | a caller wins if and only if no task is in a run, and is then alone in it with the stop reset; a loser leaves the stop alone |
| SessionObject.ConversationSession.OpenPrompt | clareon-core/src/conversation/session.rs:123-124 | the slot was empty and gets a channel that was never opened, answered or decided before |
| SessionObject.ConversationSession.ClosePrompt | clareon-core/src/conversation/session.rs:139-140 | the slot is empty afterwards, and what was in it can only have been this prompt |
| SessionObject.ConversationSession.StoreToolResults | clareon-core/src/conversation/session.rs:850-874 | stores and caches one results message under a new id, or nothing for an empty list on the stopping paths; an error before the insert changes nothing, one after it leaves the row uncached |
| SessionObject.AnswerThenStop | clareon-core/src/conversation/session.rs:81-99 | an answer submitted before a stop is the one the prompt gets |
| Exclusion.MovesAreDisciplined | clareon-core/src/conversation/session.rs:199-211 | every move of every task enters a run only by finding the flag down and lowers it only on leaving |
| Exclusion.ExclusiveStep | clareon-core/src/conversation/session.rs:199-211 | each action keeps: at most one task in a run, flag up exactly while one is |
| Cancellation.MovesAreOrderly | clareon-core/src/conversation/session.rs:105-120 | every move keeps receivers honest, begins under a raised flag only what it was entitled to, makes progress towards the end, and counts its rounds |
| Cancellation.CancellationStep | clareon-core/src/conversation/session.rs:81-141 | each action keeps the channel, the tally of what began since the stop, and the five-round ration |
| Gating.GateStep | clareon-core/src/conversation/session.rs:441-571 | each action keeps every started execution permitted and every task in agreement with the log's view of its batch |
| Gating.ClearedIsPermitted | clareon-core/src/tools/approval.rs:169-189 | a batch that needs no approval, or was allowed, permits each of its remaining calls |
| Replies.RepliesStep | clareon-core/src/conversation/session.rs:397-439 | each action keeps: a task with a reply in hand has it as the last assistant message of the cache |
| Replies.PolicyIsLive | clareon-core/src/conversation/session.rs:441-448 | whenever the policy is read, the settings are the live ones and the calls those of the reply last cached |
| Asking.BatchGoesItsWay | clareon-core/src/conversation/session.rs:421-505 | a reply that asks for tools is answered at once if and only if all its calls are blocked, put before the user, without the blocked ones, if and only if one of the rest is not allowed and nothing runs by itself, and runs otherwise |
| Asking.NothingToRun | clareon-core/src/conversation/session.rs:421-439 | the turn ends after a reply if and only if the model did not stop for tools or no block is a call, and fails there if and only if there is a call to run and no executor |
| Asking.PendingIsAskedAbout | clareon-core/src/conversation/session.rs:458-501 | at every point of every execution the pending calls are the unblocked ones of the batch the user is asked about, and there are none at any other time |
| Asking.SettingsAreLive | clareon-core/src/conversation/session.rs:475-505 | the live settings change where the user sets them and where always-allow or always-deny is applied, then by exactly the calls asked about, and nowhere else |
| Asking.RememberedAtOnce | clareon-core/src/conversation/session.rs:933-960 | in the very next state a rememberable call of the batch is blocked after always-deny, and asked about no more after always-allow |
| Prompts.PromptStep | clareon-core/src/conversation/session.rs:122-141 | each action keeps every prompt channel on its path: opened once, answered while open, closed by its opener with that answer or as cancelled |
| Consistency.FiledStep | clareon-core/src/storage/messages.rs:18-45 | each action keeps ids distinct and every stored message cached, carried by exactly one writer, or torn, and only one of the three |
| Written.HistoryIsWritten | clareon-core/src/conversation/session.rs:776-874 | an action leaves the stored history or adds one message at its end, which the acting task was there to write: a reply with its blocks, joined text and both token counts, a user's message, results without a text, or the two wordings of a tool error |
| Consistency.StoredIsCachedPlusCarried | clareon-core/src/conversation/session.rs:821-874 | stored ids are the cached ids, those of writers between storing and caching, and those whose write was torn, without overlap |
| Consistency.QuietMeansEqual | clareon-core/src/conversation/session.rs:155-174 | with no writer on its way the cache is the stored history, message for message, if and only if no write was torn |
| Executor.Tasks | clareon-core/src/tools/executor.rs:43-97 | the spawned tasks answer their calls, in order; unless it crashed, a task's block is marked as an error if and only if the tool is unknown, was refused or reported failure, and holds the run's output or the error's text |
| Executor.ExecuteMultiple | clareon-core/src/tools/executor.rs:139-160 | the loops return one result per call in call order if and only if no task crashed, and then each tells, by its mark and its content, how its call ended |
| Pairing.PartitionIds | clareon-core/src/conversation/session.rs:441-448 | the ids of the denied and of the remaining calls are, together, the ids of the batch |
| Pairing.JoinedIds | clareon-core/src/tools/executor.rs:154-160 | the executor's results answer all calls in order if and only if every task joined |
| Pairing.RejectedBatchIsAnswered | clareon-core/src/conversation/session.rs:485-519 | deny, always-deny and a cancelled prompt answer every call of the batch exactly once |
| Pairing.ExecutedBatch | clareon-core/src/conversation/session.rs:621-678 | an execution answers every call exactly once if and only if every tool task joined |
| Pairing.StoppedBatch | clareon-core/src/conversation/session.rs:529-587 | a stop after the gate answers every call if and only if the deny list had blocked none |
| Pairing.ErrorNeverCloses | clareon-core/src/conversation/session.rs:588-619 | with a call open, the text stored for a tool error breaks the history for good, whatever is stored after it |
| Pairing.BrokenForever | clareon-core/src/backend/openai.rs:94-227 | a history in which something came between calls and answers never becomes well paired again |
| PairedRuns.CleanMovesKeepPairs | clareon-core/src/conversation/session.rs:421-687 | every clean move leaves open exactly what its task expects to answer, and sends only closed histories |
| PairedRuns.PairStep | clareon-core/src/conversation/session.rs:199-728 | each clean action of any task keeps all requests sent so far closed |
| UnpairedRuns.MovesKeepRuin | clareon-core/src/conversation/session.rs:199-728 | once a run cannot answer what is open, no move of its task leads to a closed history or sends a closed one |
| UnpairedRuns.UncleanSpoils | clareon-core/src/conversation/session.rs:421-687 | the first step that is not clean, a run's own or a text pushed between calls and answers, leaves the session so |
| UnpairedRuns.PairedOrSpoiled | clareon-core/src/conversation/session.rs:181-731 | over every execution from a closed history: paired while all steps are clean, past repair from the first that is not |
| UnpairedRuns.RunClosesIffClean | clareon-core/src/conversation/session.rs:181-731 | runs that begin on a closed history end on a closed one if and only if each of their steps was clean |
| UnpairedRuns.PairedIffClean | clareon-core/src/conversation/session.rs:276-282 | a request is well paired on the wire if and only if every step of the session before it was clean |
| UnpairedRuns.OpenNeverRecovers | clareon-core/src/conversation/session.rs:276-282 | a history open between runs, or with nothing on its way to close it, is never followed by a well paired request |
| Runs.ExecutionIsSafe | clareon-core/src/conversation/session.rs:181-731 | all invariants hold in every state of every execution |
| Runs.OneGenerationAtATime | clareon-core/src/conversation/session.rs:199-211 | in every reachable state one run at most, the flag up exactly while there is one, lowered only by the task that was in it, and never by a loser |
| Runs.AtMostFiveRequests | clareon-core/src/conversation/session.rs:184-230 | no task ever makes more than 5 backend requests |
| FiveRounds.FifthRequestIsTheLast | clareon-core/src/conversation/session.rs:215-230 | a reachable state in which a task has made five requests and its next look at the top of the loop fails the run |
| Runs.FlagFallsOnlyAtReset | clareon-core/src/conversation/session.rs:101-103 | a raised stop is lowered by a step if and only if the step is a new run's reset |
| Runs.NoLostWakeup | clareon-core/src/conversation/session.rs:105-141 | in every reachable state with the stop raised, a waiting task can be woken and leaves at its next look |
| Runs.AtMostOneMoreBegins | clareon-core/src/conversation/session.rs:218-221 | since a stop was raised at most one more request or execution has begun |
| Runs.StartsOnlyInWindow | clareon-core/src/conversation/session.rs:562-571 | under a raised stop a task can start tools if and only if they are not started and it was raised after the task last looked |
| Runs.StopsSoon | clareon-core/src/conversation/session.rs:105-120 | after a stop a run past its reset takes at most fourteen more steps of its own, whatever others do, and the stop stays up until it is done |
| Stopping.StopStep | clareon-core/src/conversation/session.rs:105-120 | each action keeps: a task leaves as stopped, or sees the flag up past its reset, only with a stop since that reset in the log |
| Stopping.StoppedOnlyByAStop | clareon-core/src/conversation/session.rs:529-571 | over every execution a run that ended as stopped had, after its own reset, the flag raised or its prompt decided as cancelled |
| Stopping.EveryEndHasItsCause | clareon-core/src/conversation/session.rs:218-230 | over every execution a run that failed had a step of its own met by a failure, five rounds made with the stop down, or calls and no executor; one that completed had a reply with no tools to run |
| Runs.NothingRunsUnpermitted | clareon-core/src/conversation/session.rs:441-571 | every execution ever started is of a batch not started before, of calls its deny list does not match, each auto-executed, allowed by rule or let through by the user; the batch was split off the reply then last cached by the settings then live, and its task read none since |
| Runs.DecisionsAreAnswers | clareon-core/src/conversation/session.rs:122-141 | every decision other than a cancellation is the answer taken while the prompt it settles was open |
| Runs.DecidedOnce | clareon-core/src/conversation/session.rs:122-141 | no prompt is decided twice |
| Runs.CacheAndStorageAgree | clareon-core/src/conversation/session.rs:155-174 | in every reachable state stored ids are, without overlap, cached, carried and torn ids, and with no writer the two histories are equal as multisets if and only if no write was ever torn |
| CacheOrder.OrderStep | clareon-core/src/conversation/session.rs:164-174 | each action keeps the cache in stored order if and only if it is no push behind one of a message stored later |
| CacheOrder.InOrderIffNoneLate | clareon-core/src/conversation/session.rs:164-174 | over every execution the cache holds its messages in stored order if and only if no push was late |
| CacheOrder.CacheIsStorageInOrder | clareon-core/src/conversation/session.rs:155-174 | with no writer on its way the cache is the stored history in its order if and only if no write was torn and no push late |
| Runs.CleanRequestsArePaired | clareon-core/src/conversation/session.rs:276-282 | over clean actions every request, converted, has each tool call answered at once by exactly its tool messages |
| Outcomes.DecisionIsCarriedOut | clareon-core/src/conversation/session.rs:475-687 | over every execution: what a task has started, cached and remembered since its prompt was decided fits where it stands |
| Outcomes.RefusalIsStored | clareon-core/src/conversation/session.rs:485-519 | whatever other tasks do, from a refusal to its next request or end a task starts no tools and caches at most one message, which tells every call of the batch why; it gets to a next round only with it, after a stop not at all, and always-deny is remembered |
| Outcomes.AllowedBatchRuns | clareon-core/src/conversation/session.rs:475-484 | whatever other tasks do, from an allowance to its next request or end a task starts tools at most once, on exactly the calls the deny list left, and caches at most one message, their outcome or the stop; it gets to a next round only with the outcome, and always-allow is remembered |
| Outcomes.MeaningfulIsVisible | clareon-core/src/conversation/session.rs:812-819 | content is meaningful if and only if some block is other than blank text |
| Outcomes.StoppedReply | clareon-core/src/conversation/session.rs:821-848 | a stopped reply whose write succeeds is stored and cached once if and only if something in it can be seen; the run ends either way |
| Outcomes.StoppedStream | clareon-core/src/conversation/session.rs:284-316 | a stream that sees the stop is such a reply, with every block and both token counts it had received |
| Windows.ToolsCanStartUnderStop | clareon-core/src/conversation/session.rs:562-571 | an execution in which tools start with the stop raised |
| Windows.StopCanBeLost | clareon-core/src/conversation/session.rs:200-204 | an execution in which a stop between the swap and the reset is forgotten |
| Windows.RequestCanBeUnpaired | clareon-core/src/conversation/session.rs:588-619 | an execution in which a failed tool execution is followed by a request with a text in the place of the call's answer |
| Windows.TornWriteIsNotCached | clareon-core/src/storage/messages.rs:18-45 | an execution after which a stored message is not in the cache and nobody is bringing it there |
| Windows.WritersCanCross | clareon-core/src/conversation/session.rs:164-174 | an execution of two appends after which the cache has the two messages in the other order |
| Reference.GetMessagesIsStableSort | clareon-core/src/storage/messages.rs:66-82 | a read returns the stored messages by time, in insertion order within one second |
| Reference.ReadsInsertionOrder | clareon-core/src/storage/messages.rs:66-82 | a read returns insertion order if and only if the stamps never decrease in it |
| Reference.ClockSetBack | clareon-core/src/storage/messages.rs:66-82 | two messages, the second stamped one second earlier, are read in the other order |
| ReferenceLoop.ConversationManager.Ask | clareon-core/src/conversation/manager.rs:498-550 | the head of a round: limit, history from storage, one request |
| ReferenceLoop.ConversationManager.Receive | clareon-core/src/conversation/manager.rs:552-634 | the inner loop consumes events until the stream ends or fails, and a finished reply is the accumulation of exactly the events consumed |
| ReferenceLoop.ConversationManager.Record | clareon-core/src/storage/messages.rs:18-45 | a write is the row and then the update: both, neither, or the row alone and an error |
| ReferenceLoop.ConversationManager.RunTools | clareon-core/src/conversation/manager.rs:674-767 | one execution, its results or its error stored, back to the top |
| ReferenceLoop.ConversationManager.AfterReply | clareon-core/src/conversation/manager.rs:653-773 | what follows a stored reply: tools, failure without an executor, or the end |
| ReferenceLoop.ConversationManager.SendMessageStream | clareon-core/src/conversation/manager.rs:495-781 | the nested loops are the step machine driven by the answers consumed, to the end or to the first answer that does not fit |
| Refinement.StepSimulates | clareon-core/src/conversation/session.rs:199-728 | each step of a session alone is a step of the storage-reading loop with the same answer, or invisible to it |
| Refinement.SessionRefinesReference | clareon-core/src/conversation/manager.rs:495-802 | a solo run with execution allowed outright and no stop is a run of the storage-reading loop on a selection of the same answers: same requests, executions, stored history and outcome |
| Equivalence.Settles | clareon-core/src/conversation/session.rs:105-120 | the steps a session takes between answers are invisible and finitely many |
| Equivalence.ReferenceIsMatched | clareon-core/src/conversation/manager.rs:495-802 | every run of the storage-reading loop whose reads succeed is a solo run of the session with the same requests, executions, history and outcome |
| Manager.StepKeeps | clareon-core/src/conversation/manager.rs:181-211 | each step keeps the lock's owner, finished callers' sessions, and every entry once made |
| Manager.OneSessionPerConversation | clareon-core/src/conversation/manager.rs:181-211 | callers that ever get a session for one conversation get the same one, and two conversations never share one |
| Fence.ReadFence | clareon/src/message_list_model.rs:252-275 | one fenced block and what is left of the text behind it |
| Fence.ParseContentBlocks | clareon/src/message_list_model.rs:241-284 | the loop terminates with the blocks of the text's pieces, one empty text for empty input |
| Fence.NothingIsLost | clareon/src/message_list_model.rs:241-284 | the raw pieces, put together, are the input |
| Fence.SplitIsWellCut | clareon/src/message_list_model.rs:241-284 | texts and contents hold no fence, no two texts meet, nothing before a fence ends in a backtick, only the last block can be unclosed |
| Fence.ParsedIsCanonical | clareon/src/message_list_model.rs:241-284 | the blocks of a text are canonical if and only if it does not end in an unclosed code block ending in a backtick |
| Fence.ParserInvertsPrinter | clareon/src/message_list_model.rs:241-284 | parsing a print gives the blocks back if and only if they are canonical |
| Fence.PrintedTextParsesTheSame | clareon/src/message_list_model.rs:241-284 | printing what was parsed and parsing again changes nothing, but for that one shape |
| Fence.UnclosedBacktickIsCut | clareon/src/message_list_model.rs:241-284 | an unclosed block holding one backtick: its print does not parse back |
| MessageList.ComputeGrouping | clareon/src/message_list_model.rs:222-228 | in place, every row but the first gets its mark from its predecessor |
| MessageList.MessageListModel.SetMessages | clareon/src/message_list_model.rs:292-299 | a load replaces the rows by the messages' own fields in their order, the marks by a full recompute, and the totals by the sums of the messages' input and output tokens |
| MessageList.MessageListModel.RecalculateTokenTotals | clareon/src/message_list_model.rs:329-345 | the totals are the sums over the rows |
| MessageList.MessageListModel.AddMessage | clareon/src/message_list_model.rs:302-315 | a list that shows what it was told shows the message too afterwards: its fields behind the others, its mark, its tokens in the totals |
| MessageList.MessageListModel.RemoveStreamingPlaceholder | clareon/src/message_list_model.rs:410-423 | inside a run exactly the placeholder goes, outside none does; the list left has none, and its marks and totals are still those of its rows |
| MessageList.MessageListModel.UpdateStreamingMessage | clareon/src/message_list_model.rs:445-462 | extends the placeholder, or panics where the last row is another |
| MessageList.MessageListModel.CompleteStreamingMessage | clareon/src/message_list_model.rs:464-501 | the placeholder becomes the message: a list that showed a run shows the message in its place, its fields, its mark against the row before it, its tokens in the totals |
| MessageList.MessageListModel.HandleResponse | clareon/src/message_list_model.rs:704-771 | every response's whole effect, or the panic; a response the protocol allows leaves a consistent list that shows the messages and errors it was told of and nothing else |
| MessageList.WellGroupedIsRecompute | clareon/src/message_list_model.rs:222-228 | marks kept piece by piece are those of a full recompute |
| MessageList.ResponseKeeps | clareon/src/message_list_model.rs:704-771 | every response the protocol allows is handled without the panic and keeps totals, marks, the placeholder with the text so far, and the streaming flag |
| MessageList.ResponseShows | clareon/src/message_list_model.rs:170-199 | after any response the protocol allows, the rows are the messages' and errors' own fields in their order, a row is grouped if and only if the one before it has its role and is at most 300 seconds older, and the totals are the sums of the messages' tokens |
| MessageList.NextChunkPanics | clareon/src/message_list_model.rs:445-447 | after one response inside a run: exactly which responses make the next chunk panic |
| MessageList.NextChunk | clareon/src/message_list_model.rs:445-462 | after any responses inside a run, in any order: no chunk among them panics, and the next one panics, is dropped or extends the last placeholder, exactly by the marks folded over them |
| MessageList.TwoQuickSends | clareon/src/service/worker.rs:347-377 | two sends that both pass the guard: the second placeholder takes the first run's text, and once the second run is turned away the next chunk panics |
| MessageList.EmptyLoadDropsText | clareon/src/message_list_model.rs:292-299 | after an empty load inside a run the next chunk is dropped |
| MessageList.RejectedSendBreaksTheRun | clareon/src/service/worker.rs:347-354 | a second send rejected during a run is one of them |
| Worker.RunStreamingTask | clareon/src/service/worker.rs:790-903 | the loop sends the approvals, chunks with the text so far, and the one ending of its updates |
| Worker.RunFollows | clareon/src/service/worker.rs:790-903 | a task obeys the list's protocol and ends it unless it finishes unstopped with no message at all |
| Worker.ProtocolKeepsList | clareon/src/message_list_model.rs:704-771 | along any protocol-following responses the list never panics and stays consistent |
| Worker.ListEqualsRecompute | clareon/src/message_list_model.rs:704-771 | over any loads, sends, rejections and whole runs, at every point, totals and marks are those of a full recompute and the placeholder holds the run's text |
| Shown.ListShowsWhatItWasTold | clareon/src/message_list_model.rs:704-771 | at every point of any life the rows are the messages last loaded, sent since and completed since, and the errors, field by field; the totals are those messages' tokens |
| Shown.RunIsHeard | clareon/src/service/worker.rs:790-903 | a run adds its error with the text streamed before it, or when stopped the last reply it left if it left one, or the last message: exactly one row, or none |
| Shown.LifeIsShown | clareon/src/service/worker.rs:790-903 | after any loads, sends, rejections and whole runs the list shows exactly what these came to, each once |
| Shown.PromptIsTheLast | clareon/src/message_list_model.rs:740-771 | the approval shown is the last one raised and not taken back by a start or an end of a run, whatever the responses |
| Shown.PromptInRun | clareon/src/service/worker.rs:800-850 | after any number of a run's items before its first error, what it has sent leaves standing the approval of the last status among them, and none once that status is another |
| Names.SanitizeSegment | clareon-core/src/mcp/names.rs:8-28 | the masking loop, the split and the join compute the sanitised segment |
| Names.SanitizedIsClean | clareon-core/src/mcp/names.rs:8-28 | the result has only letters, digits and single inner underscores, and exactly such input is left alone |
| Names.SanitizedInOnePass | clareon-core/src/mcp/names.rs:8-28 | masking, splitting, filtering and joining are one pass that keeps letters and digits and puts one underscore for whatever lies between two of them, and "x" where there are none |
| Names.TriedFits | clareon-core/src/mcp/names.rs:44-51 | pigeonhole: the counter never passes the number of used names plus one |
| Names.UniqueName | clareon-core/src/mcp/names.rs:40-52 | terminates with a free name, the base or the least free number, and records it |
| Names.AllocatedIsFresh | clareon-core/src/mcp/manager.rs:216-241 | allocated names are distinct, carry the prefix and avoid the reserved ones |
| Names.RegisterServer | clareon-core/src/mcp/manager.rs:239-257 | one server's tools continue the allocation and the registry of those before |
| Names.RegisterTools | clareon-core/src/mcp/manager.rs:216-267 | the registry afterwards, for any order of the servers |
| Names.RemoteToolsAre | clareon-core/src/mcp/manager.rs:225-257 | the tools registered are those of the connected servers and no others |
| Names.RegistrationLosesNothing | clareon-core/src/mcp/manager.rs:216-267 | no registration overwrites another: every tool is found under a name made of its server's and its own, and of a number only where that was taken; the two resource tools are there if and only if a server has resources; the size is the sum of the parts |
| Names.StartupLosesNothing | clareon-core/src/tools/builtin/mod.rs:19-21 | so it is for the registry with the built-in tools |
| Trees.CalculateDirSize | clareon-core/src/tools/workspace.rs:209-237 | the stack loop terminates with the recursive sum of file sizes |
| Trees.CalculateDiskUsage | clareon-core/src/tools/workspace.rs:195-206 | the sum over the directories that exist |
| Trees.SizeIsFiles | clareon-core/src/tools/workspace.rs:209-237 | a directory's size is the size of the files below it |
| Trees.OneFilePerPath | clareon-core/src/tools/artifacts.rs:68-81 | relative paths are unique in a tree |
| Trees.WalkIsListing | clareon-core/src/tools/artifacts.rs:46-84 | the stack loops come by every file exactly once |
| Artifacts.ScanOutputDirectory | clareon-core/src/tools/artifacts.rs:37-87 | the loop's map is the hashes of the files in walking order, empty for an absent directory |
| Artifacts.ScanIsExact | clareon-core/src/tools/artifacts.rs:37-87 | that map has each file's hash under its path and nothing else |
| Artifacts.CollectArtifacts | clareon-core/src/tools/workspace.rs:136-192 | collects exactly the files whose remembered hash is missing or different |
| Artifacts.ArtifactStore.SyncArtifacts | clareon-core/src/tools/artifacts.rs:92-152 | the rows afterwards: each collected file updated or inserted in turn |
| Artifacts.DiffSync | clareon-core/src/tools/artifacts.rs:92-152 | the database agrees with the tree afterwards if and only if it agreed before with every skipped file; absent files keep their rows and names stay unique |
| Artifacts.ChangesAreAttributed | clareon-core/src/storage/artifacts.rs:34-89 | a sync puts what changed under its own message, in its row's place or behind, and leaves every other row, its message included, as it was |
| Artifacts.DiffEqualsFull | clareon-core/src/tools/executor.rs:128-166 | with an injective hash and agreement at the first scan, the diff does what copying every file does |
| Artifacts.RestoreArtifacts | clareon-core/src/tools/artifacts.rs:157-196 | a restore into an empty directory succeeds if and only if no stored name is a directory of another, and then brings back every artifact and nothing else |
| Artifacts.RestoredTree | clareon-core/src/tools/artifacts.rs:157-196 | a database that agrees with a tree gives every file of the tree back |
| Artifacts.RowsOfTreeRestore | clareon-core/src/tools/artifacts.rs:157-196 | rows of the files of one tree never block the restore |
| Artifacts.SyncedNames | clareon-core/src/tools/artifacts.rs:92-152 | after two syncs the rows are named after the files of either tree: nothing is ever deleted |
| Artifacts.StaleRowBlocksRestore | clareon-core/src/tools/artifacts.rs:170-184 | after a tree and then the tree it became are synchronised, the restore is free of conflicts if and only if no file of the one lies on the path to a file of the other |
| Artifacts.FileBecomesDirectory | clareon-core/src/tools/artifacts.rs:170-184 | a file "a" that became a directory with a file "b" blocks it |

## Left out

- Refinement.SessionRefinesReference: states the correspondence for one task's steps without other tasks between them, because the storage-reading loop has no stop, prompt or lock that others could touch.
- UnpairedRuns.PairedIffClean: speaks of sessions whose appended user messages hold no tool results, because the view appends text and images only.
- Trees.CalculateDirSize: sizes are unbounded, because 64 bits of file sizes do not overflow in practice.
- Dropping a response stream in the middle of an await: every task here runs to its own end.
- Width of integers: row ids, token counts and totals are unbounded integers.
- HTTP, server-sent events, the AWS SDK, SQLite, processes and the file system: they are the environment's choices, maps and trees.
- Read and write errors of the file system inside a scan, and files changing while they are walked.
- JSON text, SHA-256 and clocks are parameters; timestamps are whole seconds.
- Non-UTF-8 file names, and path rules of Windows.
- Title generation, the model and system prompt of a request, tool definitions in it, and the conversation's own record.
- The MIME type, the timestamps and the size column of an artifact row.
- The Bedrock and Anthropic translators and converters: they have no shared state beyond what the three modelled ones have.
- Rules for the wording of error notices, and the other list models, roles and signals of the user interface.
- Lag of the broadcast channel, and sessions recreated when the configuration is reloaded.
- Sandboxing, built-in tools, OAuth, the keyring and the transport of remote tools.
- The single-instance lock: its guarantees rest on the operating system.

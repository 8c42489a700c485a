# OpenDray core: models and proofs

A Dafny model of the self-contained algorithms and state machines inside OpenDray, with proofs of what they are for:

- the LLM proxy's two translators: the streaming one, which turns OpenAI delta chunks into Anthropic block events, and the one-shot one, which turns whole messages into each other;
- the two rate limiters: a ring of accept times per plugin, and a token bucket per address with background eviction that takes no lock;
- the task runner: its concurrency cap, the life of a run, the reaper, and the output buffer with live subscribers;
- the Codex config printer, against a decoder of the TOML it emits;
- two independent unified-diff splitters, the log tail with its line filter, and the Telegram chunker;
- the workbench event bus and the plugin registry across restarts.

Code that changes things step by step is modelled as methods and classes, each proved equal to a specification function
or a step of a state machine; the lemmas are about those functions and about every run of those machines, and say what they
mean in terms of inputs and outputs alone.

## Reading guide

| file | content |
|---|---|
| `Common.dfy`, `Lines.dfy` | shared vocabulary: options, snoc recursion, sorted keys, `strings` functions, newline splitting |
| `Wire.dfy` | decoded OpenAI and Anthropic messages |
| `Translate.dfy` | whole-message translation, both ways |
| `Stream.dfy` | the streaming translator as a machine, and its traces |
| `StreamLifecycle.dfy` | what every reachable machine has written, block index by block index |
| `StreamConservation.dfy` | where every text and argument fragment went |
| `StreamTheorems.dfy` | well-formedness, index use and conservation of whole traces |
| `StreamInput.dfy` | what a trace carries, told from the lines themselves |
| `StreamRefinement.dfy` | the trace read back against the one-shot translator |
| `StreamMethod.dfy` | the scan loop, proved to write such a trace |
| `StreamDifferences.dfy` | what equality with the one-shot translator needs of any stream, and streams without it |
| `SlidingWindow.dfy` | the per-plugin limiter |
| `TokenBucket.dfy` | one bucket: refill arithmetic and bounds |
| `RateLimiter.dfy` | the per-address limiter as it runs: calls and cleanup interleaved, bounds for every run |
| `LimiterEviction.dfy` | runs with eviction against the same runs without |
| `LimiterRaces.dfy` | runs in which eviction is noticed |
| `RingBuffer.dfy`, `RunLifecycle.dfy` | the task runner |
| `Toml.dfy` | printer (`Toml`) and decoder with round trips (`TomlReader`) |
| `LogTail.dfy` | line filter, backlog alignment, follow loop |
| `Diff.dfy`, `MultiDiff.dfy` | the two diff splitters, over the grouping of lines they share (`DiffGroups`) |
| `Telegram.dfy` | the message chunker |
| `WorkbenchBus.dfy` | drop-oldest fan-out |
| `PluginRegistry.dfy` | boot, seed, toggle, remove, uninstall, restore |

Conventions. Concurrent parts are state machines whose steps are one critical section, one atomic operation or one
channel operation; a run is any sequence of steps. The order in which Go yields a map is a parameter (any order of the
open tools, any element of a set). Random identifiers come from an arbitrary function `rand`. Times are unbounded
integers in nanoseconds (seconds for run finish times).

## Model

| member | source | states |
|---|---|---|
| `StreamMethod.StreamOpenAIToAnthropic` | gateway/llm_proxy/stream.go:32-234 | for every line sequence the events written are one of the machine's traces and well formed; their text deltas add up to the content of every line with a choice before the end marker; every tool call some line has a delta for has a block that delivers what its own deltas ask for; message id, model, stop reason and usage are as they should be |
| `StreamMethod.ScanLines` | gateway/llm_proxy/stream.go:84-200 | the scan loop stops at the first end marker, skips lines that are not chunks, and leaves the machine's state, the last non-empty finish reason and the last usage report |
| `StreamMethod.FeedLine` | gateway/llm_proxy/stream.go:85-199 | a line that brings a choice feeds the machine that choice's content and then its tool calls, in order, whatever else it says; any other line feeds nothing |
| `StreamMethod.FeedText` | gateway/llm_proxy/stream.go:128-145 | a content delta is one text step of the machine, also when it has to open a block |
| `StreamMethod.FeedCalls` | gateway/llm_proxy/stream.go:147-199 | the inner loop is one machine step per tool-call delta, in order |
| `StreamMethod.AdmitTool` | gateway/llm_proxy/stream.go:149-163 | first sight of a tool closes the open text block and takes the next index |
| `StreamMethod.AdvanceTool` | gateway/llm_proxy/stream.go:164-198 | filling in, opening and appending compose to the machine's tool step, including when one delta does all three |
| `StreamMethod.StopTools` | gateway/llm_proxy/stream.go:212-219 | whatever order the map is walked in, every opened tool is stopped exactly once and no other |
| `StreamLifecycle.Reachable` | gateway/llm_proxy/stream.go:61-199 | in every reachable machine indices are owned by one block each, and the events of every index are nothing, or a start and deltas of one kind, stopped only for a text block that has been left |
| `StreamLifecycle.BodyAt` | gateway/llm_proxy/stream.go:205-219 | after the closing events every index carries a complete lifecycle or nothing, for every closing order |
| `StreamTheorems.StreamIsWellFormed` | gateway/llm_proxy/stream.go:32-234 | every trace is message_start, block events, message_delta, message_stop, and per index empty or start, deltas of one type, stop |
| `StreamTheorems.UsedIndex` | gateway/llm_proxy/stream.go:131-191 | an index occurs in the trace exactly when it was allocated to text or to a tool that is named sometime |
| `StreamTheorems.IndicesContiguous` | gateway/llm_proxy/stream.go:131-191 | the used indices are 0 to n-1 without a gap if and only if every tool mentioned gets a name |
| `StreamTheorems.TextConserved` | gateway/llm_proxy/stream.go:128-145 | concatenated text deltas are the concatenated content, however tool calls interleave |
| `StreamTheorems.ToolConserved` | gateway/llm_proxy/stream.go:147-199 | each tool's block carries exactly its argument fragments from the delta that first names it, under its first name and the first id known by then (a random one if none); it is absent if and only if never named |
| `StreamTheorems.BlocksDistinct` | gateway/llm_proxy/stream.go:160-162 | two tool calls never share a block index |
| `StreamConservation.ToolHistory` | gateway/llm_proxy/stream.go:149-198 | the table entry of a tool is a function of its own deltas alone, whatever else the stream does |
| `StreamConservation.TextHistory` | gateway/llm_proxy/stream.go:128-199 | at every point the text written is the text received, and tool deltas write none |
| `StreamInput.TextHeard` | gateway/llm_proxy/stream.go:84-145 | on the lines: the trace's text is the content of each line with a choice before the end marker, one after another |
| `StreamInput.LinesGive` | gateway/llm_proxy/stream.go:84-199 | what the machine is fed is, in order, the content and the tool-call deltas of those lines, none left out |
| `StreamInput.LineInOrder` | gateway/llm_proxy/stream.go:128-199 | within a line the content comes before anything its calls give rise to, and nothing written earlier changes |
| `StreamInput.ToolHeard` | gateway/llm_proxy/stream.go:147-199 | the tool calls are those some line has a delta for; the block of each has the first name its deltas give, the first id given by then, and all arguments from the naming delta on; no block without a name |
| `StreamInput.EnvelopeHeard` | gateway/llm_proxy/stream.go:114-127 | the stop reason is the one for the last finish reason that is not empty, the usage the last reported, on the lines before the end marker |
| `StreamInput.RandomIdsDiffer` | gateway/llm_proxy/stream.go:173-190 | two tools that have to be given random ids are given two draws, neither of them the message id's |
| `StreamInput.TextStopsFirst` | gateway/llm_proxy/stream.go:205-219 | no text block is stopped after a tool block |
| `StreamRefinement.StreamRefinesBatch` | gateway/llm_proxy/stream.go:84-233 | when tools appear in order and bring id and name before any argument, the client's reading of the stream equals the one-shot translation of the accumulated message, whatever random ids either draws, if and only if no text follows a tool call and the text is empty or not all white space |
| `StreamRefinement.EnvelopeRefinesBatch` | gateway/llm_proxy/translate.go:342-392 | model, stop reason and usage agree with the one-shot translator for every stream, and are those of the last chunk that gave a finish reason and of the last that reported usage |
| `StreamRefinement.ArgumentsKept` | gateway/llm_proxy/stream.go:191-198 | a tool's block carries all its arguments if and only if none came before the delta that names it |
| `StreamRefinement.ClientReadsSlots` | gateway/llm_proxy/stream.go:128-219 | with every tool prompt, folding the events by index gives one block per allocation, in order of allocation, text interruptions included |
| `StreamRefinement.TextFirstLayout` | gateway/llm_proxy/stream.go:128-163 | text-first streams allocate one text block, then tools in order of first appearance |
| `StreamRefinement.LateTextLayout` | gateway/llm_proxy/stream.go:128-163 | text after a tool call always opens a later text block |
| `StreamDifferences.EqualContentsNeed` | gateway/llm_proxy/stream.go:84-233 | for every stream whatever: equal contents need every tool named, no text after a tool call, and text that is empty or not all white space |
| `StreamDifferences.LateTextFails` | gateway/llm_proxy/stream.go:129-139 | any stream with text after a tool call: the contents differ, for every model, random source and closing order |
| `StreamDifferences.BlankTextFails` | gateway/llm_proxy/stream.go:129-145 | any stream that says only white space, but something: the contents differ |
| `StreamDifferences.EarlyArgumentLost` | gateway/llm_proxy/stream.go:191-198 | any tool with an argument fragment before its name: its block is not all its arguments |
| `StreamDifferences.LateAtoms` | gateway/llm_proxy/stream.go:129-139 | such a stream: a tool call, then `hi` |
| `StreamDifferences.BlankSaid` | gateway/llm_proxy/stream.go:129-145 | such a stream: a single space |
| `StreamDifferences.EarlyFacts` | gateway/llm_proxy/stream.go:191-198 | such a stream: the fragment `x` before the name, `y` with it |
| `StreamDifferences.LateIdReplaced` | gateway/llm_proxy/stream.go:164-178 | any tool whose first id comes after its name: its block is announced with a random id |
| `StreamDifferences.LateIdFacts` | gateway/llm_proxy/stream.go:164-178 | such a stream: the name first, the id with the second delta |
| `StreamDifferences.UnnamedLost` | gateway/llm_proxy/stream.go:173-198 | any tool never named: nothing of it is streamed, and the contents differ |
| `StreamDifferences.UnnamedFacts` | gateway/llm_proxy/stream.go:173-198 | such a stream: an id and a fragment without a name |
| `Translate.AnthropicToOpenAI` | gateway/llm_proxy/translate.go:142-250 | fails exactly when some message content does not decode; otherwise the system text first, if there is any, then every message turn by turn; the texts under the roles user, assistant and system are those of the request, in order, none lost and no others; every tool definition and parameter carried over |
| `Translate.TranslateMessages` | gateway/llm_proxy/translate.go:159-232 | the message loop returns an error if and only if some content is malformed, wherever it stands |
| `Translate.UserMessages` | gateway/llm_proxy/translate.go:166-199 | a user turn is one message under the role user with its joined text, if that is not empty, directly followed by one message under the role tool for each result, in order |
| `Translate.AssistantMessage` | gateway/llm_proxy/translate.go:201-230 | an assistant turn is one message under that role with its texts, a line each, and its calls, empty arguments as `{}` |
| `Translate.ToolResultText` | gateway/llm_proxy/translate.go:308-338 | the text of a tool result in each content form; of blocks, their texts a line each without leading empty lines; error mark on decoded forms only |
| `Translate.FlattenTextMaybeBlocks` | gateway/llm_proxy/translate.go:280-303 | system text from either content form; of blocks, exactly the non-empty texts, a line each |
| `Translate.JoinTextJoins` | gateway/llm_proxy/translate.go:280-338 | gluing text blocks one by one is joining their lines with newlines, leading empty lines dropped |
| `Translate.UserTextJoins` | gateway/llm_proxy/translate.go:171-195 | a user's text is its string form, text blocks and image notes, a line each, without leading empty lines |
| `Translate.AssistantTextJoins` | gateway/llm_proxy/translate.go:203-229 | an assistant's text likewise, from its text blocks |
| `Translate.MessageIsTurn` | gateway/llm_proxy/translate.go:165-231 | each message becomes its turn by role: a user's text and results, an assistant's one message, nothing for any other role |
| `Translate.TurnsSay` | gateway/llm_proxy/translate.go:159-232 | the messages under the role user are the non-empty joined texts of the users' turns, those under assistant one for each assistant's turn; in order, none lost and no others, and none under system |
| `Translate.OpenAIToAnthropicResponse` | gateway/llm_proxy/translate.go:342-379 | content, stop reason and usage of a reply, field by field: the text unless it is all white space, then one block per call, the i-th call without an id getting the i-th random one |
| `Translate.TrafficKept` | gateway/llm_proxy/translate.go:159-232 | tool calls of assistants and tool results of users come out with id, name, arguments and text, same order, same multiplicity |
| `Translate.MessageKeepsTraffic` | gateway/llm_proxy/translate.go:159-232 | the same for one message of any role |
| `Translate.AnsweredKept` | gateway/llm_proxy/translate.go:142-250 | every result follows its call in the output if and only if it does in the input |
| `Translate.ReplyRoundTrip` | gateway/llm_proxy/translate.go:201-230 | a reply translated to Anthropic form and sent back after any history is the model's own message, up to blank text, missing ids and empty arguments |
| `Translate.NormalizedIsIdentity` | gateway/llm_proxy/translate.go:342-379 | the calls come back unchanged if and only if each had an id, arguments and type `function` |
| `SlidingWindow.BridgeRateLimiter.constructor` | gateway/plugins_bridge.go:126-138 | defaults of 60 calls and one minute, an empty log |
| `SlidingWindow.BridgeRateLimiter.Allow` | gateway/plugins_bridge.go:144-174 | the ring with head and fill count decides, advises and updates exactly as an unbounded log of accepts does |
| `SlidingWindow.NoWindowOverfull` | gateway/plugins_bridge.go:117-174 | for calls at any times, even out of order, no half-open interval one window long holds more than limit accepts |
| `SlidingWindow.ExactInOrder` | gateway/plugins_bridge.go:144-174 | in time order a call is accepted if and only if fewer than limit accepts lie in (now - window, now] |
| `SlidingWindow.RunRefinesCounting` | gateway/plugins_bridge.go:144-174 | over whole runs in time order the limiter and the counting specification accept the same calls |
| `SlidingWindow.RunSpaced` | gateway/plugins_bridge.go:144-174 | accepts limit apart are at least a window apart, in every run |
| `SlidingWindow.RetryIsExact` | gateway/plugins_bridge.go:168-173 | a rejected caller succeeds after the advised wait, and not earlier if and only if the wait left is at least one millisecond |
| `SlidingWindow.RetryOvershoots` | gateway/plugins_bridge.go:168-173 | a concrete call for which the millisecond floor makes the advice too long |
| `TokenBucket.DroppedIsFull` | gateway/server.go:783-805 | a bucket old enough to be dropped serves a call and ends up exactly as a new one does |
| `TokenBucket.BucketBound` | gateway/server.go:783-805 | for any call times tokens stay in [0, limit] and accepts plus tokens never exceed the start plus floor(elapsed * limit / window) |
| `TokenBucket.StretchBound` | gateway/server.go:783-805 | whatever happened before, a stretch of calls gets at most limit + 1 accepts plus what it earned |
| `TokenBucket.IdleRestores` | gateway/server.go:790-804 | after an idle window the next call finds a full bucket |
| `TokenBucket.ServedExactly` | gateway/server.go:790-804 | in time order a call is served if and only if tokens plus floor(elapsed * limit / window) is positive; every whole token earned is credited up to the limit, and the bucket's time moves only if one was |
| `TokenBucket.EmptyWaits` | gateway/server.go:790-804 | a caller who finds the bucket empty is served from the moment on at which a whole token has been earned, and no sooner |
| `TokenBucket.PacedAllAccepted` | gateway/server.go:783-805 | from any bucket in range, calls spaced so that each gap earns a token are all accepted |
| `TokenBucket.BurstAllAccepted` | gateway/server.go:783-805 | as many calls as there are tokens are all accepted, whatever their times |
| `RateLimiter.Limiter.LoadOrStore` | gateway/server.go:784-786 | the load of a call alone: the bucket under the key, or a full one stored there, whatever else is under way |
| `RateLimiter.Limiter.TakeLocked` | gateway/server.go:788-804 | the locked part of a call alone, on the bucket it holds, whether or not that can still be found: in time order the answer is yes exactly if tokens plus floor(elapsed * limit / window) is positive, and the bucket is left with min(limit, that) less one |
| `RateLimiter.Limiter.Allow` | gateway/server.go:783-805 | a call nothing comes between serves its address's bucket, a full one standing for a missing one, and touches no other |
| `RateLimiter.Limiter.SweepKey` | gateway/server.go:772-778 | the cleanup's test and deletion of one key are the two steps of the machine, the deletion only after a test that found it stale |
| `RateLimiter.Limiter.Cleanup` | gateway/server.go:764-781 | a pass nothing comes between drops exactly the buckets older than two windows |
| `RateLimiter.WholeCallServes` | gateway/server.go:783-805 | clock, load and take in a row from any state with a sound table: one answer, one bucket changed, no call, key or deletion disturbed |
| `RateLimiter.Reachable` | gateway/server.go:764-805 | under every interleaving of clock readings, loads, takes, tests and deletions each bucket's accepts plus tokens are covered by its start and its time, and the table holds exactly the undeleted ones |
| `RateLimiter.AnyRunBound` | gateway/server.go:764-805 | under every interleaving an address gets at most limit + floor(span * limit / window) accepts, times one more than its deletions |
| `RateLimiter.AddressBound` | gateway/server.go:764-805 | if buckets are made in clock order: at most limit + floor(span * limit / window), and limit more for each deletion that was not quiet; quiet ones cost nothing |
| `LimiterEviction.EvictionTransparent` | gateway/server.go:764-805 | in every interleaving whose deletions are quiet (no call of the address under way, bucket still as stale as tested) and whose new buckets are first taken from by their makers, each call gets the answer it gets without eviction |
| `LimiterEviction.RunsRelated` | gateway/server.go:764-805 | in such runs the two tables stay equal but for buckets that every call finds idle for a window |
| `LimiterEviction.EvictionAddress` | gateway/server.go:764-805 | in such runs eviction does not change how many calls of an address are accepted |
| `LimiterEviction.AddressReplays` | gateway/server.go:783-805 | without eviction an address's bucket and accepts are a replay of its own calls in the order they took the lock |
| `LimiterEviction.PacedAddressAccepted` | gateway/server.go:783-805 | without eviction an address whose calls are paced from its first one on has all of them accepted, under every interleaving with others |
| `LimiterRaces.DeletedUnderCall` | gateway/server.go:770-788 | a run in which a deletion between a call's load and its take gives a call away |
| `LimiterRaces.DeletedAfterCall` | gateway/server.go:774-775 | a run in which a whole call between test and deletion gives a call away |
| `LimiterRaces.MakerOvertaken` | gateway/server.go:784-788 | a run in which a quiet deletion gives a call away, because a second call takes from the new bucket before its maker |
| `LimiterRaces.OutOfTurn` | gateway/server.go:784-788 | for every n a run with one deletion and n accepts more than the allowance: calls that stalled between clock and load make the clock-order condition necessary |
| `RingBuffer.Buffer.WriteLocked` | gateway/tasks/runner.go:304-313 | the critical section of a write is one step: append, trim, note the open channels |
| `RingBuffer.Buffer.TrySend` | gateway/tasks/runner.go:315-321 | a non-blocking send queues the chunk or records it as dropped, and takes it off the pending ones |
| `RingBuffer.Buffer.WriteAll` | gateway/tasks/runner.go:297-322 | an undisturbed write leaves no send pending and keeps every invariant; every open channel with room gets the chunk, every other channel is untouched |
| `RingBuffer.Buffer.TakeSnapshot` | gateway/tasks/runner.go:324-330 | hands out the buffer as it is, and changes nothing else |
| `RingBuffer.Buffer.SubscribeLocked` | gateway/tasks/runner.go:332-344 | an identifier no channel has had; the channel is open unless the buffer is closed; the invariant is kept |
| `RingBuffer.Buffer.UnsubscribeLocked` | gateway/tasks/runner.go:346-353 | closes an open channel once; a second call does nothing |
| `RingBuffer.Buffer.CloseAll` | gateway/tasks/runner.go:355-366 | closes every open channel, once |
| `RingBuffer.Reachable` | gateway/tasks/runner.go:281-366 | the invariant behind the results below, under every interleaving of writers, sends, receives, subscribers and closing |
| `RingBuffer.BufferIsTail` | gateway/tasks/runner.go:297-313 | the buffer is always the last max bytes of everything written |
| `RingBuffer.OpenUntilClosed` | gateway/tasks/runner.go:332-366 | a channel is open from its subscription, unless the buffer was closed before, until it is unsubscribed or the buffer is closed; nothing else opens or closes one |
| `RingBuffer.NoGap` | gateway/tasks/runner.go:191-200 | after subscribe-then-snapshot every append from the subscription on is exactly one of sent, dropped or pending, and the snapshot is the tail of a prefix that includes everything before |
| `RingBuffer.DroppedOnlyWhenFull` | gateway/tasks/runner.go:315-321 | an append is dropped for a subscriber only at a moment of the run when it was offered to a channel holding 64 chunks |
| `RingBuffer.ChannelIsFaithful` | gateway/tasks/runner.go:315-321 | a channel holds what was sent and not yet received, in order, within capacity; one writer's chunks keep their order, none twice |
| `RunLifecycle.CapHolds` | gateway/tasks/runner.go:65-137 | with at most k overlapping starts, active plus starts in the race window never exceed the cap by more than k - 1 |
| `RunLifecycle.RaceExceedsCap` | gateway/tasks/runner.go:69-120 | the bound is tight: for every cap and every overlap k some run reaches cap + k - 1 active runs |
| `RunLifecycle.CapExactIffAlone` | gateway/tasks/runner.go:69-120 | the cap is kept in all runs of a given overlap if and only if no two starts overlap |
| `RunLifecycle.RunningWithinActive` | gateway/tasks/runner.go:120-137 | runs in the map with status running never outnumber the active count |
| `RunLifecycle.StatusIsFinal` | gateway/tasks/runner.go:249-268 | once a run has left running, status, exit code and finish time never change, whatever steps follow |
| `RunLifecycle.KilledIffStoppedFirst` | gateway/tasks/runner.go:143-160 | a finished run is killed if and only if a stop had marked it before it finished |
| `RunLifecycle.FinishReports` | gateway/tasks/runner.go:249-268 | what a finish records then and whatever steps follow: the time; killed for a run marked before; else exited with the process's code, with 0 for none, failed for any other error |
| `RunLifecycle.OverByFinish` | gateway/tasks/runner.go:249-268 | every run that is over was finished by some step and says what that step recorded; failed if and only if it was unmarked then and the error was no exit |
| `RunLifecycle.DoneClosesOnce` | gateway/tasks/runner.go:249-271 | the done channel is closed at most once, only after the run finished, and always before its slot is released |
| `RunLifecycle.ReapsOnlyFinished` | gateway/tasks/runner.go:203-220 | only the reaper removes a run from the map, and only one finished longer than the time-to-live ago |
| `RunLifecycle.ReapsExpired` | gateway/tasks/runner.go:203-220 | a look by the reaper removes a run if and only if it finished more than 600 seconds before |
| `RunLifecycle.UnfinishedIsListed` | gateway/tasks/runner.go:203-220 | a launched run that has not finished can always be found |
| `RunLifecycle.Reachable` | gateway/tasks/runner.go:65-271 | in every reachable state the active count is the number of runs holding a slot, and map, starts and stops are consistent |
| `RunLifecycle.Runner.CheckCap` | gateway/tasks/runner.go:69-71 | the cap check passes if and only if there is no cap or the count is below it, and changes no run |
| `RunLifecycle.Runner.Start` | gateway/tasks/runner.go:65-137 | an undisturbed start is refused exactly for an empty command, a full cap or a failed spawn, and then changes nothing; otherwise the run can be found, is running, holds a slot, and the cap is kept |
| `RunLifecycle.Runner.Stop` | gateway/tasks/runner.go:143-160 | an undisturbed stop fails exactly for a run that cannot be found; otherwise that run alone is marked, and a finish after it ends in killed whatever the process says |
| `RunLifecycle.Runner.FinishLocked` | gateway/tasks/runner.go:249-268 | finishing changes one run and sets its time; killed if marked, else exited with the process's code, exited with 0 if there was no error, or failed for any other error |
| `RunLifecycle.Runner.ReapTick` | gateway/tasks/runner.go:203-220 | one tick removes exactly the finished runs older than 600 seconds and keeps the invariant |
| `Toml.TomlString` | gateway/mcp/renderer.go:195-216 | the loop writes the quoted form that `TomlReader.StringRoundTrip` reads back |
| `Toml.TomlKey` | gateway/mcp/renderer.go:178-193 | bare exactly for non-empty keys of bare characters, quoted otherwise |
| `Toml.CodexServerBlock` | gateway/mcp/renderer.go:143-175 | the block of a server's entry, environment in ascending key order whatever the map order |
| `Toml.Render` | gateway/mcp/renderer.go:114-141 | the document of the stdio servers with a command, in order; nothing exactly if there are none |
| `TomlReader.RenderRoundTrip` | gateway/mcp/renderer.go:114-216 | the rendered config decodes, under TOML v1.0.0 rules for keys, strings, arrays and inline tables, to name, command, args and env of every rendered server in order, if and only if no string has a control character other than tab, newline and carriage return and the names are distinct |
| `TomlReader.ConfigSays` | gateway/mcp/renderer.go:114-216 | the config decodes to entries that give name, command, args and environment of exactly the stdio servers with a command, in order, if and only if their strings have no control character other than tab, newline and carriage return and their names differ |
| `TomlReader.RenderInjective` | gateway/mcp/renderer.go:114-216 | equal configs come from equal rendered servers, for all strings whatever |
| `TomlReader.TablesRoundTrip` | gateway/mcp/renderer.go:114-141 | joined blocks read back as their entries, strictly or leniently |
| `TomlReader.BlockRoundTrip` | gateway/mcp/renderer.go:143-175 | one block followed by a blank line or the end reads back as its entry, optional lines present or not |
| `TomlReader.StringRoundTrip` | gateway/mcp/renderer.go:195-216 | a quoted string followed by anything reads back as itself, or is refused exactly for a raw control character |
| `TomlReader.KeyRoundTrip` | gateway/mcp/renderer.go:178-193 | a key followed by anything that is not a bare character reads back as itself |
| `TomlReader.BareIff` | gateway/mcp/renderer.go:178-193 | a key is written bare if and only if TOML v1.0.0 lets it stand bare |
| `TomlReader.EnvRecovered` | gateway/mcp/renderer.go:159-173 | the ordered listing determines the environment map |
| `LogTail.LineFilterWriter.Write` | gateway/logs.go:143-168 | whatever the chunking, lines sent are the complete lines of all bytes written that the grep lets through, each as often as it occurs and in order, and the rest is held back; at the first refused send exactly those before it are out |
| `LogTail.LineFilterWriter.SendLines` | gateway/logs.go:156-167 | the lines at exactly the positions the grep lets through go out, in order, up to the first failed send; without a grep all do |
| `LogTail.KeepFilters` | gateway/logs.go:157-160 | the lines kept are those at exactly the positions whose line the grep lets through, in order |
| `LogTail.KeepCounts` | gateway/logs.go:157-160 | a line is kept as often as it occurs if the grep lets it through, and never if not; without a grep all are |
| `LogTail.AppendText` | gateway/logs.go:143-168 | splitting resumes from the unfinished line, so chunk boundaries do not matter |
| `LogTail.AlignBacklog` | gateway/logs/tail.go:123-150 | the start offset: 0 for a file within the backlog of 65536 bytes or the one asked for, else after the first line end at or past the cut, or the cut if there is none |
| `LogTail.AlignmentMeans` | gateway/logs/tail.go:123-150 | the tail starts at the file's start or at the first line start after the cut; at the cut itself only when no line ends after it |
| `LogTail.SliceLines` | gateway/logs/tail.go:135-150 | from an aligned start the lines of a slice are lines of the file |
| `LogTail.Tail` | gateway/logs/tail.go:152-195 | for any file history, read sizes and cancellation time, what reaches the writer is the output of the read-or-poll loop over the file as it was at each moment, up to cancellation or the first refused send |
| `LogTail.OpsMean` | gateway/logs/tail.go:159-193 | a read moves on if and only if the file is longer than the offset, a poll rewinds if and only if it is shorter |
| `LogTail.PollsAfterIdleRead` | gateway/logs/tail.go:159-181 | the loop polls exactly after a read that met the file no longer than the offset |
| `LogTail.TruncationNoticed` | gateway/logs/tail.go:159-193 | a file found shorter than the offset by two operations in a row has begun a new epoch by then |
| `LogTail.LogsTailWS` | gateway/logs.go:119-130 | lines sent are the kept complete lines of the epochs with the marker's line between them, the current unfinished line held back; for a file that only grows they are those of file[start..offset]; or properly fewer, in order, up to a refused send, and then one more attempt to say what the error was |
| `LogTail.EpochsAreSlices` | gateway/logs/tail.go:152-195 | each truncation seen at a poll starts a new epoch from offset 0; every epoch forwards one slice of the file, wherever among reads and polls the truncations fall, as long as a read that returns something finds what lies before the offset unchanged |
| `LogTail.GrowOnlyIsOneEpoch` | gateway/logs/tail.go:152-195 | for a file that only grows there is one epoch, exactly file[start..offset] |
| `LogTail.GrowingFileLines` | gateway/logs/tail.go:152-195 | for a growing file and any read sizes and moments of the loop itself, the kept lines are those of file[start..offset] and the rest is its unfinished line |
| `LogTail.TruncationBetweenReads` | gateway/logs/tail.go:180-193 | a truncation first met by a read is covered: the read returns nothing, the next poll rewinds |
| `LogTail.UnseenTruncation` | gateway/logs/tail.go:159-193 | a truncation no poll sees, for the file has grown past the offset again: what is forwarded is a piece of no version of the file |
| `LogTail.OutputLines` | gateway/logs/tail.go:184-193 | the lines of the output are those of the epochs with one marker line at each truncation |
| `Diff.ParseUnifiedDiff` | gateway/forge/diff.go:23-97 | the line loop with current entry, buffer and flush yields one entry per header, its patch the lines up to the next header, each entry saying what its lines say |
| `Diff.CountHunkLines` | gateway/forge/diff.go:125-144 | additions and deletions are the numbers of lines with that sign after the first hunk header, file headers excluded |
| `Diff.ParsedIs` | gateway/forge/diff.go:48-97 | status by the last line that decides one, else modified; path by the last rename, else by the header; old path by the last rename, the header or the first `--- a/` line, and only if it differs; counts of the patch |
| `Diff.PatchesAreLossless` | gateway/forge/diff.go:23-97 | concatenated patches are the blob from its first header line on |
| `Diff.BlobParts` | gateway/forge/diff.go:23-97 | what is missing from the patches is only the lines before the first header |
| `Diff.ReparseIsStable` | gateway/forge/diff.go:23-97 | parsing the concatenated patches gives the same entries |
| `Diff.ParseIsCompositional` | gateway/forge/diff.go:23-97 | parse(a + b) = parse(a) + parse(b) when a ends in a newline and b starts with a header |
| `Diff.ForgeHeaderPaths` | gateway/forge/diff.go:103-119 | both paths of an unquoted header are read right if and only if the old path has no ` b/` in it |
| `Diff.HeaderKeptWhole` | gateway/forge/diff.go:103-119 | a header without the separator, or with nothing before it, is kept whole as the path |
| `Diff.ForgeMisreads` | gateway/forge/diff.go:103-119 | a path that is misread |
| `MultiDiff.ParsePatchBlocks` | gateway/sourcecontrol/multidiff.go:221-283 | fails (panics) exactly when some header cannot be split; otherwise groups lines by the same headers, each entry saying what its header and its lines say |
| `MultiDiff.EntriesFollow` | gateway/sourcecontrol/multidiff.go:243-281 | status, path and old path by the last line that gives them, else by the header; binary exactly if some line says so; the patch is the group's text |
| `MultiDiff.PlainHeaderMeans` | gateway/sourcecontrol/multidiff.go:244-260 | an unquoted header without a space in the old path names the new file, and the old one as a rename exactly if it differs |
| `MultiDiff.QuotedHeaderMeans` | gateway/sourcecontrol/multidiff.go:244-260 | a quoted header likewise, if no quote in the old path is followed by a space |
| `MultiDiff.OneWordHeaderMeans` | gateway/sourcecontrol/multidiff.go:300-304 | a header with a single unquoted word names no file |
| `MultiDiff.SplittersAgree` | gateway/sourcecontrol/multidiff.go:221-283 | both splitters give the same number of entries and the same patches but for one newline at the very end of the second |
| `MultiDiff.PatchesAreLosslessToo` | gateway/sourcecontrol/multidiff.go:221-283 | the second splitter's patches concatenate to the blob from its first header, plus that newline if there is a header |
| `MultiDiff.PlainHeaderPaths` | gateway/sourcecontrol/multidiff.go:288-314 | an unquoted header is read right if and only if the old path has no space; the forge splitter then reads it too |
| `MultiDiff.QuotedHeaderPaths` | gateway/sourcecontrol/multidiff.go:288-314 | a quoted header is read right, spaces and all, if and only if the old path has no quote followed by a space |
| `MultiDiff.PlainMisreads` | gateway/sourcecontrol/multidiff.go:300-304 | an unquoted path with a space that is misread |
| `MultiDiff.SplitPanicsIff` | gateway/sourcecontrol/multidiff.go:289-299 | splitting panics if and only if a lone quote follows the first quoted path |
| `MultiDiff.LoneQuotePanics` | gateway/sourcecontrol/multidiff.go:294-296 | the header `diff --git "x" "` does |
| `Telegram.SplitForTelegram` | gateway/telegram/bot.go:534-553 | the loop terminates and its chunks tile the text: non-empty, at most maxLen, at most one newline swallowed per cut |
| `Telegram.ChunksRestoreText` | gateway/telegram/bot.go:534-553 | putting the swallowed newlines back restores the text; every cut is at the last newline of its window unless the window has none at positions 1 to maxLen - 1 |
| `Telegram.CutInsideCharacter` | gateway/telegram/bot.go:534-553 | a chunk ends inside a UTF-8 character if and only if it is cut at its full length, for want of a newline, and the byte there is a continuation byte |
| `Telegram.CharacterCut` | gateway/telegram/bot.go:534-553 | the two bytes of an accented e at one byte per chunk: every way to tile them cuts the character |
| `WorkbenchBus.Reachable` | gateway/workbench_stream.go:78-140 | the invariant behind the results below, with receives, subscribes and unsubscribes between the publisher's channel operations |
| `WorkbenchBus.QueueIsTail` | gateway/workbench_stream.go:78-140 | every queue holds at most 32 events and exactly a contiguous tail of those published since subscribing; receipts are in order, none twice |
| `WorkbenchBus.LiveUntilDone` | gateway/workbench_stream.go:118-139 | a subscription begins empty and live and stays live until its owner is done with it, for good; nothing else ends one |
| `WorkbenchBus.NewestIsQueued` | gateway/workbench_stream.go:87-112 | when the publisher is through with a subscriber the new event is the newest in its queue, so the best-effort retry never fails |
| `WorkbenchBus.DropsOnlyOldest` | gateway/workbench_stream.go:94-103 | an unreceived event leaves a queue only as its oldest |
| `WorkbenchBus.DropsOnlyWhenFull` | gateway/workbench_stream.go:89-93 | and only for a publisher that found 32 events queued |
| `WorkbenchBus.Bus.Deliver` | gateway/workbench_stream.go:87-112 | an undisturbed turn is one or three machine steps: the event becomes the newest there, only the oldest is lost and only from a full queue, and no other queue changes |
| `WorkbenchBus.Bus.PublishAll` | gateway/workbench_stream.go:78-113 | the same for every live queue at once, in whatever order subscribers are served; closed subscriptions are left alone |
| `WorkbenchBus.Bus.SubscribeLocked` | gateway/workbench_stream.go:118-128 | a fresh identifier with an empty queue from now on |
| `WorkbenchBus.Bus.DoneWith` | gateway/workbench_stream.go:130-139 | ends a subscription; calling it again changes nothing |
| `PluginRegistry.MergeProviders` | plugin/runtime.go:260-274 | sorted by name, one per name, the overlay's manifest where both have one, whatever order the map is walked in |
| `PluginRegistry.OverlayWins` | plugin/runtime.go:260-274 | the later list overrides the earlier by name |
| `PluginRegistry.Runtime.LoadAll` | plugin/runtime.go:140-226 | loading rows, then syncing, skipping or seeding manifest by manifest equals the per-name outcome of a boot |
| `PluginRegistry.Runtime.LoadOne` | plugin/runtime.go:193-224 | one manifest is synced, skipped or seeded |
| `PluginRegistry.Runtime.LoadRows` | plugin/runtime.go:162-178 | exactly the rows that decode are in memory, with their enabled flag |
| `PluginRegistry.Runtime.Seed` | plugin/runtime.go:276-289 | row and memory both hold the manifest, enabled |
| `PluginRegistry.Runtime.Register` | plugin/runtime.go:406-419 | the same for a runtime registration; tombstones are left alone |
| `PluginRegistry.Runtime.SetEnabled` | plugin/runtime.go:389-403 | error exactly for an unknown plugin or for disabling a required one; otherwise memory and row change alike |
| `PluginRegistry.Runtime.Remove` | plugin/runtime.go:425-446 | error exactly for an unknown or required plugin; otherwise it leaves memory and rows |
| `PluginRegistry.Runtime.Uninstall` | plugin/install/install.go:422-445 | the best-effort removal, then row and tombstone regardless |
| `PluginRegistry.Runtime.RestoreBuiltin` | plugin/runtime.go:527-560 | error exactly when not bundled or already loaded; otherwise untombstoned and seeded from the first built-in of that name |
| `PluginRegistry.BootAgrees` | plugin/runtime.go:140-226 | after a boot memory and rows agree if and only if every row that does not decode is seeded afresh |
| `PluginRegistry.BootMeans` | plugin/runtime.go:162-224 | name by name: a row that decodes keeps its enabled flag under the manifest at hand or its own; a name without one is loaded, enabled, if and only if it has a manifest and no tombstone |
| `PluginRegistry.SecondBootIsIdle` | plugin/runtime.go:140-226 | a second boot with the same manifests changes nothing |
| `PluginRegistry.BootOneMore` | plugin/runtime.go:193-224 | adding a manifest affects its own name only: synced, skipped or seeded |
| `PluginRegistry.RunAgrees` | plugin/runtime.go:140-226 | over any run that begins with a boot and uninstalls no required plugin, memory and database agree from the first boot on if and only if that boot seeds every row it cannot decode |
| `PluginRegistry.UninstallAgrees` | plugin/install/install.go:422-445 | uninstalling keeps them in agreement if and only if the plugin is not a required one |
| `PluginRegistry.UninstalledIsGone` | plugin/install/install.go:422-445 | an uninstalled plugin has left memory and rows, with a tombstone, if and only if it was not a required one |
| `PluginRegistry.ToggleOutlivesBoot` | plugin/runtime.go:389-403 | a plugin switched on or off stays so in memory and through the next boot, and no other changes |
| `PluginRegistry.RequiredUninstallDisagrees` | plugin/install/install.go:422-445 | a required plugin whose uninstall leaves it in memory and not in the rows |
| `PluginRegistry.GoneStaysGone` | plugin/runtime.go:212-217 | a tombstoned name without a row stays absent through any operations and boots until restored or registered |
| `PluginRegistry.BootBuries` | plugin/runtime.go:212-217 | a tombstone without a row is enough for the next boot to leave the plugin out |
| `PluginRegistry.RestoreUndoesUninstall` | plugin/runtime.go:527-560 | restoring an uninstalled built-in brings it back enabled, untombstoned, through the next boot, and disturbs no other plugin |
| `PluginRegistry.RemovalWithoutTombstone` | plugin/runtime.go:425-446 | a plain removal lasts only until the next boot that has the manifest |

## Where code and documentation differ

The models follow the code.

- `allow` of the bridge limiter documents the returned wait as exactly when the next call would succeed; the one millisecond floor makes it longer when less than that is left (`SlidingWindow.RetryIsExact`, `SlidingWindow.RetryOvershoots`).
- The streaming translator drops argument fragments that arrive before a tool's name, a tool never named altogether, and keeps white-space text that the one-shot translator drops; text after a tool call becomes a block of its own (`StreamRefinement.ArgumentsKept`, `StreamDifferences.UnnamedLost`, `StreamRefinement.StreamRefinesBatch`).
- The first id a tool brings after its block has been opened is not used: the block keeps the random id it was announced with (`StreamDifferences.LateIdReplaced`, `StreamDifferences.LateIdFacts`).
- The cleanup of the per-address limiter tests and deletes without the lock that calls take, and a call finds its bucket before it takes that lock. A deletion under a call, or after a call that came between test and deletion, lets calls through that a limiter without cleanup would turn away; so does a second call that overtakes the maker of a new bucket (`LimiterRaces.DeletedUnderCall`, `LimiterRaces.DeletedAfterCall`, `LimiterRaces.MakerOvertaken`). How much can be lost is bounded by `RateLimiter.AddressBound` and `RateLimiter.AnyRunBound`.
- `splitDiffPaths` panics on a header with a lone second quote (`MultiDiff.SplitPanicsIff`).
- `MaxConcurrent` is checked before it is counted, so overlapping starts exceed it (`RunLifecycle.RaceExceedsCap`).
- Uninstalling a required plugin deletes its row and tombstones it but leaves it in memory until the next boot (`PluginRegistry.UninstallAgrees`).
- The Telegram limit is counted in bytes, and a cut for want of a newline may fall inside a multi-byte character (`Telegram.CutInsideCharacter`, `Telegram.CharacterCut`).
- The tail compares sizes only: a file cut down and grown past the offset again between two polls is read on as if nothing had happened (`LogTail.UnseenTruncation`).
- A boot keeps, and does not load, a row whose manifest does not decode and that no manifest replaces or whose name is tombstoned (`PluginRegistry.BootAgrees`).

## Left out

- SSE framing, JSON decoding and encoding, scanner line limits and HTTP: lines arrive decoded, as noise, the end marker, or a chunk; Anthropic content fields arrive decoded or marked malformed.
- Tool choice and tool schemas are carried as opaque text.
- int64 overflow of times and products in the token bucket, and saturation of `time.Sub`: times are unbounded integers.
- SlidingWindow.BridgeRateLimiter.Allow: a call runs under the limiter's lock, so it is one step.
- RateLimiter.Reachable: a call's clock reading, its load or store, its locked part, and the cleanup's test and deletion are one step each; the cleanup's unlocked read of a bucket's time is taken to see its value before or after a concurrent refill, never a torn one.
- LimiterEviction.EvictionTransparent: one direction only, since a disturbed run may by chance answer every call alike; each of its conditions has a run in which leaving it out is noticed, and the bounds hold without it.
- RateLimiter.AddressBound: needs buckets made in clock order, by `LimiterRaces.OutOfTurn`; `RateLimiter.AnyRunBound` does not.
- Clocks and tickers: the time of each call, sweep, finish and reap is a parameter.
- Panics of a send on a closed channel: runs in which a channel is closed or unsubscribed while a send to it is pending are excluded by assumption, and no claim is made about them.
- Two publishers at once on the event bus: one publisher at a time, everything else interleaved.
- Reuse of run identifiers, and a cap that changes between starts: identifiers are fresh and the cap is fixed.
- Spawning, pipes, process groups, timeouts, and the pump goroutines' reads: a process may come back with any outcome at any time, and a writer may append any chunks.
- LogTail.Tail: read, stat and seek errors end the original loop early and are not modelled; neither is the path check. The text of a refused send's error is a parameter.
- StreamRefinement.StreamRefinesBatch: for streams whose tools are late or out of order it does not say when the contents happen to coincide; `StreamDifferences.EqualContentsNeed` says what is needed then too, `StreamTheorems.ToolConserved` what such streams carry.
- StreamRefinement.EnvelopeRefinesBatch: message ids are independent random draws in the two translators and are not compared.
- Diff.ParsedIs: says nothing of the old path of an entry when some `rename from ` or `--- a/` line of it gives an empty path.
- PluginRegistry.Runtime.LoadAll: runs in a fresh process, on rows stored under their manifest's own name; database errors, hooks, contributions, configuration and the installed flag are left out.
- `parseNumstat`, `diffContextFor`, `claudeRenderer`, `ListBuiltins`, `List` and `Get`: per-field or per-entry facts.
- Invalid UTF-8: strings are sequences of characters for messages, TOML and diffs, and of bytes for logs, task output and Telegram.
- Cleaning up audit rows, consents and files on uninstall.
- Handlers, WebSockets, the database driver, sessions, OAuth, marketplace, Git hosting clients, setup commands and the user interface.

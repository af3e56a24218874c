# localx: a verified model of its streaming, process and model-selection logic

LocalX puts a proxy in front of llama.cpp-style servers, runs check commands for
evaluations, names and picks quantised model files, and builds the server's command
line. This project models the parts of it whose correctness depends on many steps or
on every input, and proves what each promises.

* **The think stripper** (`ThinkStripping`, `StripperMachine`, `StripperBound`,
  `StripperLedger`) removes
  `<think>…</think>` spans from text that arrives in chunks. Texts are bytes, and the
  object is also proved to cut UTF-8 text only between characters. The machine delivers
  the one-shot text for *every* way of cutting a string into strings exactly when its
  spans fit the 32 KiB bailout; for every other string there is a cut that shows the
  difference. Whatever the spans, a ledger accounts for every input byte.
* **The SSE filter** (`SseFilter`, `SseLifecycle`, `SseMeaning`, `SseDelivery`,
  `SseStream`) re-frames a byte stream into events, threads every delta through one
  stripper, releases the held tail before a block ends and announces blocks the upstream
  forgot to announce.
* **The check runner** (`CancelSignal`, `CommandRun`, `CheckRun`, `Capture`) is a set of
  transition systems: concurrent waiters and cancellers, one gated command under every
  answer of its environment and abandonment at every await, the fix-and-re-run order, and
  bounded capture.
* **Model files** (`ShardNames`, `QuantNames`, `QuantCandidates`, `QuantSelect`) reads and
  prints shard names, groups a listing into loadable sets and picks one by key.
* **Server arguments** (`FitArgs`, `ServerArgs`, `ServerTail`, `ServerReading`) builds the argument list of a
  launch, says what it means, and filters it for the memory fitter.
* **Kappa** and **Request** are the agreement statistic and the request-side JSON rewrite.

`Text`, `Decimal` and `Sorting` hold what these share. Code that changes state in place is
a class or a loop proved equal to a function; the theorems are about those functions, so
they hold of the loops.

Five places where the code does less than its documentation or a first reading says; each
is stated exactly rather than assumed away:

* The stripper is not independent of chunking beyond the bailout
  (`StreamingRefinesOneShot` gives the exact condition).
* A block stop that itself carries held-back text loses it unless more text follows
  before the next release (`SoundIffNotStranding`, `RunMeaning`, `StrandedTextIsLost`).
* A cleanup of "not started" can also be the guard's own answer for a command that did
  start (`CleanupIsHonest`, `StartedAsNotStarted`).
* Filtering fitter arguments twice changes them when a memory option lacks its value
  (`FitTwice`, `FitTwiceDiffers`).
* A chat template, path or speculation type that reads as a memory option is shown to the
  fitter as one (`TailUnseen`, `TemplateIsShown`).

## Model

| member | source | states |
|---|---|---|
| StripperBound.StreamingRefinesOneShot | crates/localx-llama-runtime/src/nothink.rs:78-237 | for every string, streaming equals one-shot stripping for all ways of cutting it into strings if and only if every closed span fits the bailout with all but one byte of its closing tag and no unclosed one holds an opening tag past it |
| ThinkStripping.StreamFits | crates/localx-llama-runtime/src/nothink.rs:141-216 | on texts that fit, streaming equals one-shot stripping for every cutting, even inside characters |
| ThinkStripping.StripThinkOneShot | crates/localx-llama-runtime/src/nothink.rs:84-107 | the loop over the rest of the text computes the recursive visible text, unterminated spans flushed |
| ThinkStripping.DrainSettles | crates/localx-llama-runtime/src/nothink.rs:141-209 | between pushes at most 7 bytes without an opening tag are held outside a span, at most 32 KiB without a closing tag inside one |
| ThinkStripping.HoldbackStart | crates/localx-llama-runtime/src/nothink.rs:227-237 | the holdback starts on a character boundary at most 7 bytes from the end, and only continuation bytes are skipped to find it |
| ThinkStripping.ReleasedHoldsNoTag | crates/localx-llama-runtime/src/nothink.rs:219-237 | no opening tag that later text could complete starts in a released prefix |
| ThinkStripping.DrainKeepsMeaning | crates/localx-llama-runtime/src/nothink.rs:141-209 | a push keeps the visible text of everything held and still to come, when the spans fit |
| ThinkStripping.BailoutKeepsMeaning | crates/localx-llama-runtime/src/nothink.rs:149-168 | giving up on an over-long span shows what the one-shot function would show, when no opening tag lies past the shortest buffer that gives up |
| ThinkStripping.DrainThenFinish | crates/localx-llama-runtime/src/nothink.rs:141-216 | one push and a flush deliver the one-shot text of the buffer, bailouts included |
| StripperBound.StreamDiverges | crates/localx-llama-runtime/src/nothink.rs:78-216 | every string whose spans exceed the bailout can be cut into strings for which a different text is delivered |
| StripperBound.SomeCutDiverges | crates/localx-llama-runtime/src/nothink.rs:149-168 | such a string has a character boundary at which one push gives up on a span and the rest then reads differently |
| StripperLedger.StripThinkReads | crates/localx-llama-runtime/src/nothink.rs:84-107 | the one-shot text is what the parsed document shows: plain text kept, spans dropped, an unclosed span kept without its tag |
| StripperLedger.ParseOfRender | crates/localx-llama-runtime/src/nothink.rs:84-107 | parsing the rendering of a proper document gives the document back, so reading loses nothing |
| StripperLedger.StreamLedger | crates/localx-llama-runtime/src/nothink.rs:141-216 | for all chunks, bailouts included, every input byte is delivered in order, is an opening tag, or lies in a span ended by its first closing tag |
| StripperLedger.DrainLedger | crates/localx-llama-runtime/src/nothink.rs:141-209 | one push consumes a prefix of what is held and accounts for each byte of it |
| StripperLedger.PushLeavesTail | crates/localx-llama-runtime/src/nothink.rs:140-237 | after one push of a whole string something stays held if and only if its document ends in visible text or in a short unclosed span |
| StripperMachine.TagCuts | crates/localx-llama-runtime/src/nothink.rs:143-204 | cutting UTF-8 text before and after a tag leaves UTF-8 halves, so no slice panics |
| StripperMachine.ThinkStripper.Push | crates/localx-llama-runtime/src/nothink.rs:140-209 | the object emits and keeps what the specification says, stays settled, and cuts only between characters |
| StripperMachine.ThinkStripper.Finish | crates/localx-llama-runtime/src/nothink.rs:213-216 | the flush returns the whole buffer and leaves a fresh stripper |
| StripperMachine.ThinkStripper.EmitSafePrefix | crates/localx-llama-runtime/src/nothink.rs:219-224 | what is emitted and what is kept are the buffer cut at the holdback, both well formed |
| StripperMachine.ThinkStripper.HoldbackIndex | crates/localx-llama-runtime/src/nothink.rs:227-237 | the index loop finds the specified holdback |
| Text.FindFirst | crates/localx-llama-runtime/src/nothink.rs:46-51 | the search answers the first occurrence, and none only when there is none |
| SseFilter.ChunkIndependence | crates/localx-llama-runtime/src/nothink.rs:312-322 | for every chunking both the frames and the state depend only on the concatenated bytes, and no blank line stays pending; no bound on spans is needed |
| SseFilter.TakeEventsRuns | crates/localx-llama-runtime/src/nothink.rs:312-322 | feeding bytes is transforming the events they complete, in order, and keeping the rest |
| SseFilter.StreamIsFramed | crates/localx-llama-runtime/src/nothink.rs:312-322 | the frames and the unfinished rest are the stream, cut after each first blank line: every frame holds one, at its end, and the rest holds none |
| SseFilter.SseThinkFilter.Push | crates/localx-llama-runtime/src/nothink.rs:312-322 | the framing loop computes the specified frames and state for every chunk |
| SseFilter.SseThinkFilter.Finish | crates/localx-llama-runtime/src/nothink.rs:326-339 | the held tail leaves in the last shape, then the partial event; nothing stays |
| SseFilter.SseThinkFilter.TransformEvent | crates/localx-llama-runtime/src/nothink.rs:341-408 | announcement, release, rewriting and forgetting happen in this order with the specified frames and state |
| SseFilter.SseThinkFilter.RewriteData | crates/localx-llama-runtime/src/nothink.rs:412-436 | a recognised delta's text, and only that, passes through the shared stripper and sets the shape |
| SseLifecycle.WalkIsLawful | crates/localx-llama-runtime/src/nothink.rs:287-291 | a machine over open blocks accepts exactly the sequences in which every text and stop lies in an open block and no block opens twice |
| SseLifecycle.TransformWalks | crates/localx-llama-runtime/src/nothink.rs:341-408 | one event's frames take a strict reader exactly where the event takes a reader that opens blocks at their first text; the tail's shape is always an open block |
| SseLifecycle.LifecycleRepaired | crates/localx-llama-runtime/src/nothink.rs:324-408 | over whole runs and the final flush, the client's lifecycle is lawful if and only if missing starts are the upstream's only fault |
| SseLifecycle.EndInventsNothing | crates/localx-llama-runtime/src/nothink.rs:326-339 | the flush at the end of a stream opens, stops and completes nothing |
| SseMeaning.SegmentMeaning | crates/localx-llama-runtime/src/nothink.rs:370-436 | the frames of a block whose text fits the bailout are the one-shot text of its deltas, in shapes of that block, and then its end's own lines as they came: nothing comes after the terminator or stop |
| SseMeaning.ReleasesAre | crates/localx-llama-runtime/src/nothink.rs:26-43 | the held tail is released if and only if some line is `[DONE]` or a `message_stop`, or the first data line is a block stop |
| SseMeaning.TailGoesFirst | crates/localx-llama-runtime/src/nothink.rs:370-383 | such an event, in every state, sends exactly the held tail before its own lines, and they are rewritten from a stripper that holds nothing |
| SseMeaning.TailWaits | crates/localx-llama-runtime/src/nothink.rs:341-408 | any other event sends none of the held text ahead of its own lines |
| SseMeaning.TextPlaces | crates/localx-llama-runtime/src/nothink.rs:412-436 | which text of a data line is rewritten, what replaces it, and that nothing else of the payload changes |
| SseMeaning.NothingAfterTerminator | crates/localx-llama-runtime/src/nothink.rs:26-43 | a run that ends in `[DONE]` or `message_stop` without text leaves the final flush only bytes that never became an event |
| SseMeaning.TailBeforeDone | crates/localx-llama-runtime/src/nothink.rs:809-826 | a held "hi" leaves before `[DONE]` |
| SseDelivery.RunMeaning | crates/localx-llama-runtime/src/nothink.rs:326-436 | the frames of any run whose passages fit the bailout, and of its end, fall into those passages, from one release to the next and to the end of the stream: each passage's text is out, stripped as one piece and in its own shapes, before the next release's first line; all text is delivered if and only if no passage is lost |
| SseDelivery.ReadingsAreTheRun | crates/localx-llama-runtime/src/nothink.rs:312-408 | cutting a run's frames before each releasing event's own lines leaves nothing out and adds nothing |
| SseMeaning.SoundIffNotStranding | crates/localx-llama-runtime/src/nothink.rs:370-408 | held text keeps a shape to be delivered in across an event, from every state, if and only if the event is not a stop whose own text, read as a document, ends in something that must be held |
| SseMeaning.StrandedTextIsLost | crates/localx-llama-runtime/src/nothink.rs:401-408 | a concrete block stop carrying text whose text is never delivered |
| SseStream.TruncationContract | crates/localx-llama-runtime/src/proxy.rs:301-344 | for every upstream script the client gets all the filter delivers for the received bytes; an error is the last and only error item, a clean end has none |
| SseStream.DoneIsFinal | crates/localx-llama-runtime/src/proxy.rs:314-342 | after an error item, and after the item a clean end yields, every further poll yields nothing and changes nothing |
| SseStream.StreamLifecycle | crates/localx-llama-runtime/src/proxy.rs:301-344 | the lifecycle law holds of the whole response, error or not, if and only if missing starts are the only fault of the events received |
| SseStream.StreamMeaning | crates/localx-llama-runtime/src/proxy.rs:301-344 | for every script and chunking, error or clean end, passages that fit the bailout are told in order, the one cut off by the end included, and all text is delivered if and only if none is lost |
| SseStream.ThinkStream.Poll | crates/localx-llama-runtime/src/proxy.rs:309-344 | each poll yields the specified item and leaves the specified phase, script and filter |
| CancelSignal.NoLostWakeup | crates/localx-eval-core/src/check.rs:262-285 | in every interleaving of any number of waiters and cancellers, once a cancel call has returned no waiter is blocked |
| CancelSignal.ReturnsOnlyWhenCancelled | crates/localx-eval-core/src/check.rs:274-285 | a waiter returns only after some cancel call stored the flag |
| CancelSignal.WakesInThreeSteps | crates/localx-eval-core/src/check.rs:274-285 | after a cancel call has returned a waiter returns on a known step of its own, at most the third |
| CancelSignal.RunKeepsInvariant | crates/localx-eval-core/src/check.rs:254-285 | every run keeps: the flag is set exactly when a cancel call stored it, and a waiter past its check waits for a notification still to come or already made |
| CancelSignal.ReachesKeeps | crates/localx-eval-core/src/check.rs:262-271 | over time the flag is never cleared |
| CancelSignal.CancelReturns | crates/localx-eval-core/src/check.rs:262-267 | a cancel call can always take its next step and has returned exactly after its second, whatever runs in between |
| CommandRun.CompleteRun | crates/localx-eval-core/src/check.rs:494-620 | told by the answers alone: a run ends as the gate or the wait answered, its pipes count as closed if and only if no drain answered otherwise, and its effects are one sequence, the late reap only of an unmanaged command with a pipe left open |
| CommandRun.AbandonedRun | crates/localx-eval-core/src/check.rs:494-620 | a run abandoned at any await spawned nothing unasked, dropped its guard and released its child exactly once each, did nothing twice and reaped no owned tree |
| CommandRun.CleanupIsHonest | crates/localx-eval-core/src/check.rs:208-218 | a finished run is "confirmed" exactly on its guard's word, and "not started" exactly when it spawned nothing or its guard says so; only the guard of a spawned command says anything |
| CommandRun.StartedAsNotStarted | crates/localx-eval-core/src/check.rs:589-594 | a run that spawned, ran and exited, and whose guard answers "not started", reports that |
| CommandRun.RunKeeps | crates/localx-eval-core/src/check.rs:494-620 | every run keeps the effect ledger: at each await the effects so far are those of the stage reached |
| CommandRun.EffectsCounts | crates/localx-eval-core/src/check.rs:555-602 | each effect happened once or never, as the stage and the ending say, after the asking and the spawn |
| CommandRun.Execute | crates/localx-eval-core/src/check.rs:494-620 | the code as written produces the machine's run, effect for effect; told by the environment: it spawns only when granted and not cancelled, and reports the pipes closed if and only if both closed or nothing started |
| CheckRun.ExecutedIsGated | crates/localx-eval-core/src/check.rs:494-545 | a command asks the gate once, first, and spawns only with its own grant |
| CheckRun.RunCommand | crates/localx-eval-core/src/check.rs:454-485 | the status is read from the command's end alone, and a denied or cancelled command spawns nothing |
| CheckRun.Run | crates/localx-eval-core/src/check.rs:406-450 | at most three gated commands; the fixer runs exactly when the check failed and there is one; the last run of the check decides which of the four statuses it is; on one signal, a command begun after a cancel spawns nothing |
| CheckRun.OneSignalSticks | crates/localx-eval-core/src/check.rs:244-285 | commands that follow one another on one cancel signal never lose a cancellation, whoever waits and cancels in between |
| Capture.Captured.Keep | crates/localx-eval-core/src/check.rs:653-661 | one read adds what there is room for and flags exactly what there was not |
| Capture.Captured.ReadAll | crates/localx-eval-core/src/check.rs:641-666 | however the output is cut into reads, the buffer is its first 64 KiB and the flag tells exactly whether there was more |
| Capture.Bound | crates/localx-eval-core/src/check.rs:706-716 | a text over 16 KiB is cut at the last character boundary the cap allows, at most three bytes below it, and stays well formed |
| Text.BoundaryNear | crates/localx-eval-core/src/check.rs:710-713 | in UTF-8 a boundary is never more than three bytes below an index, so the search ends |
| ShardNames.SuffixReads | crates/localx-llama-core/src/quant.rs:142-162 | every name with a shard suffix is split at that suffix, whatever stands before it |
| ShardNames.SuffixOnly | crates/localx-llama-core/src/quant.rs:142-162 | and only a shard suffix is read as one |
| ShardNames.ShardReads | crates/localx-llama-core/src/quant.rs:192-288 | the name printed for shard k parses to (k+1, total) with the first shard's base |
| ShardNames.ShardFilesAreWhole | crates/localx-llama-core/src/quant.rs:254-288 | exactly the first shards of 2 to 1024 expand; the expansion starts with the name itself, holds no name twice and is a complete set |
| ShardNames.NamesAreWritten | crates/localx-llama-core/src/quant.rs:282-287 | each shard's name is the first one's, case kept, with a numeral of its own number in the index's place, at least as wide; all names are equally long when the total fits the index's width |
| ShardNames.NumeralIsPad | crates/localx-llama-core/src/quant.rs:282-287 | such a numeral is unique, and it is the zero-padded decimal |
| ShardNames.NotExpanded | crates/localx-llama-core/src/quant.rs:254-280 | any other name stands for itself alone |
| ShardNames.PadReads | crates/localx-llama-core/src/quant.rs:282-287 | zero-padded decimal reads back as the number |
| ShardNames.IsCompleteSet | crates/localx-llama-core/src/quant.rs:223-241 | sort and compare answers exactly whether the parts are one unsplit file or hold each of the shards 1 to n of a set of n |
| ShardNames.NothingElse | crates/localx-llama-core/src/quant.rs:217-222 | n places that hold the shards 1 to n hold nothing else |
| QuantCandidates.AnswerIsUnique | crates/localx-llama-core/src/quant.rs:290-335 | two listings of the same files, in any order, have one and the same answer |
| QuantNames.KeyIs | crates/localx-llama-core/src/quant.rs:166-188 | a file's key is its last quant token without separators, marked if and only if an imatrix word stands right before it; its qualifiers are the words after the token |
| QuantNames.NoKey | crates/localx-llama-core/src/quant.rs:166-188 | a name without quant token or extension has no key |
| QuantNames.QuantTokens | crates/localx-llama-core/src/quant.rs:128-136 | which words are quant tokens, exactly |
| QuantNames.SpellsSegments | crates/localx-llama-core/src/quant.rs:166-178 | every base spells some list of words, so what is said of a name by its words is said of every name |
| QuantNames.BuildsDiffer | crates/localx-llama-core/src/quant.rs:179-188 | the static and the imatrix build of one quant have different keys |
| QuantNames.AuxiliaryIs | crates/localx-llama-core/src/quant.rs:205-221 | a file is auxiliary if and only if the first word after the last slash or backslash is `mmproj` or `mtp` |
| QuantCandidates.Candidates | crates/localx-llama-core/src/quant.rs:299-335 | keys ascend; a key is listed if and only if a complete set of non-auxiliary files has it; the set has fewest qualifiers, ties to the first base; file i is shard i+1; the total is the sum exactly when every size is known |
| QuantCandidates.ListedIsOffered | crates/localx-llama-core/src/quant.rs:299-335 | in an answer, listed and loadable are the same |
| QuantCandidates.GroupFiles | crates/localx-llama-core/src/quant.rs:300-312 | the nested maps hold, under each key and base, exactly the files that belong there, in listing order |
| QuantCandidates.ChooseSet | crates/localx-llama-core/src/quant.rs:315-319 | the first least qualified complete set is chosen |
| QuantCandidates.SortedIsNumbered | crates/localx-llama-core/src/quant.rs:321-322 | sorting a complete set puts shard i+1 at position i |
| QuantCandidates.TotalSize | crates/localx-llama-core/src/quant.rs:323-325 | the fold stops at the first missing size and else adds all up |
| QuantCandidates.SumReads | crates/localx-llama-core/src/quant.rs:323-325 | there is a total if and only if every size is known, and each file adds its own |
| QuantSelect.CompactInjective | crates/localx-llama-core/src/quant.rs:120-188 | keys made from file names stay distinct without separators, imatrix builds included |
| QuantSelect.ExactIsUnique | crates/localx-llama-core/src/quant.rs:360-369 | only one candidate of a listing answers a request for a listed key |
| QuantSelect.SelectQuant | crates/localx-llama-core/src/quant.rs:385-410 | a listed key in any ASCII case or separators picks exactly its candidate; without a request one is always picked; unknown only without an exact match |
| QuantSelect.MatchQuant | crates/localx-llama-core/src/quant.rs:360-378 | an exact match wins, else the only match up to the imatrix marker, else none |
| QuantSelect.FuzzyMeans | crates/localx-llama-core/src/quant.rs:360-378 | up to the marker, a request for either build matches the two builds of its quant and nothing else |
| QuantSelect.SoleBuildIsFound | crates/localx-llama-core/src/quant.rs:360-378 | a request for either build finds the only build listed |
| QuantSelect.DefaultIndex | crates/localx-llama-core/src/quant.rs:341-358 | the favourite quant, else the median size when all are known, else the middle of the list |
| QuantSelect.FavouriteMeans | crates/localx-llama-core/src/quant.rs:341-345 | the favourite is Q4_K_M, static or imatrix |
| FitArgs.FilterKeepsMemory | crates/localx-llama-core/src/fit.rs:81-104 | for every argument list the token filter is the filter that keeps exactly the options that shape memory |
| FitArgs.FitParamsArgs | crates/localx-llama-core/src/fit.rs:81-104 | the peeking loop computes the token filter, then adds the target |
| FitArgs.ParseFlatten | crates/localx-llama-core/src/fit.rs:84-99 | well-formed options read back as themselves, whatever follows |
| FitArgs.FlattenParse | crates/localx-llama-core/src/fit.rs:84-99 | reading an argument list as options loses no token |
| FitArgs.ShownOptions | crates/localx-llama-core/src/fit.rs:69-104 | when every memory option has its value, what the fitter gets reads as the launch's memory options in order and the target: no placement is left |
| FitArgs.ShownDangling | crates/localx-llama-core/src/fit.rs:88-92 | a final memory option without a value takes the target flag for one |
| FitArgs.FitTwice | crates/localx-llama-core/src/fit.rs:81-104 | filtering again changes nothing if and only if no memory option lacks its value |
| FitArgs.FitTwiceDiffers | crates/localx-llama-core/src/fit.rs:88-92 | the shortest argument list that shows the failure |
| FitArgs.QuietTokens | crates/localx-llama-core/src/fit.rs:84-99 | tokens that are no memory options change nothing of what follows them |
| FitArgs.NothingShown | crates/localx-llama-core/src/fit.rs:84-99 | nothing is shown of an argument list if and only if none of its tokens, values included, is a memory option |
| ServerArgs.FitterSees | crates/localx-llama-core/src/fit.rs:69-80 | the fitter is shown the launch's model, context, slots, loading, batch shape, attention and cache types, then the memory options of later arguments, and the target |
| ServerArgs.PlacementUnseen | crates/localx-llama-core/src/args.rs:362-545 | two launches that differ only in how they ask to be placed are refused alike or shown to the fitter alike |
| ServerArgs.BuildServerArgs | crates/localx-llama-core/src/args.rs:362-545 | the builder pushes the specified options in order, or gives the first refusal |
| ServerTail.BuildLlamaServerArgs | crates/localx-llama-core/src/args.rs:362-545 | the whole argument list, the template, projector, reasoning, sampler and speculation arguments included, or the first refusal |
| ServerTail.BuildTail | crates/localx-llama-core/src/args.rs:477-538 | the arguments after the cache types are the specified ones, an unknown parser and a conflicting or unsupported speculation type refused in this order |
| ServerReading.MinimalLaunch | crates/localx-llama-core/src/args.rs:566-615 | with every option left to its default, exactly the arguments the repository pins for a minimal launch |
| ServerReading.FullLaunchArgs | crates/localx-llama-core/src/args.rs:362-545 | a launch that sets every option: the whole argument list, in order, with the launch's choices over the definition's |
| ServerReading.LaunchWins | crates/localx-llama-core/src/args.rs:398-475 | what a launch chooses for an option, no definition can change |
| ServerReading.DefinitionFills | crates/localx-llama-core/src/args.rs:398-475 | where a launch is silent it is built as if it had chosen what the definition says |
| ServerReading.TailLaunchWins | crates/localx-llama-core/src/args.rs:477-505 | so for reasoning policy, strict overlay and speculation type |
| ServerReading.TailDefinitionFills | crates/localx-llama-core/src/args.rs:477-505 | and the definition fills these too |
| ServerReading.LoadIntent | crates/localx-llama-core/src/args.rs:342-360 | which loading flags each build is handed for which intent: never the removed ones, and no two intents alike |
| ServerReading.FitOnlyUnplaced | crates/localx-llama-core/src/args.rs:400-418 | a launch nobody placed is left to a build that fits it, and goes to the default layers if and only if some raw argument places it |
| ServerReading.TurboTypes | crates/localx-llama-core/src/args.rs:28-47 | turbo cache types need a turbo build, unknown ones are refused, and capitals change nothing |
| ServerReading.HeadSpeculates | crates/localx-llama-core/src/args.rs:507-538 | a multi-token head without a draft length is left out, is refused by a turbo build, and conflicts with any drafter |
| ServerReading.ContextSpeculates | crates/localx-llama-core/src/args.rs:533-538 | n-gram speculation needs no draft length |
| ServerTail.ParameterArgs | crates/localx-llama-core/src/args.rs:200-246 | the loop over parameter lines yields each known parameter's flag and unquoted value |
| ServerReading.ParameterReads | crates/localx-llama-core/src/args.rs:200-222 | a line `PARAMETER name value` reads as the lower-case name and the value out of its quotes |
| ServerReading.SamplersKept | crates/localx-llama-core/src/args.rs:223-240 | nine samplers are passed under their own name with dashes |
| ServerReading.SamplersRenamed | crates/localx-llama-core/src/args.rs:223-240 | five have another, and nothing else is a sampler |
| ServerReading.StrictSamplers | crates/localx-llama-core/src/args.rs:179-194 | the strict overlay yields these sampler arguments and none of its system text |
| ServerTail.TailUnseen | crates/localx-llama-core/src/args.rs:477-538 | the fitter is shown nothing of these arguments if and only if no template, path or speculation type the caller chose is itself a memory option, and then they change nothing of what follows |
| ServerTail.TemplateIsShown | crates/localx-llama-core/src/fit.rs:93-98 | an inline template that reads as a memory option reaches the fitter |
| ServerTail.LaunchSeen | crates/localx-llama-core/src/fit.rs:69-80 | of a launch without such texts the fitter is shown exactly its memory options, those of the extra arguments, and the target |
| ServerArgs.OptionsRead | crates/localx-llama-core/src/args.rs:376-475 | the builder's options read as themselves whatever raw arguments follow |
| ServerArgs.OptionsMemory | crates/localx-llama-core/src/args.rs:376-475 | of the builder's options exactly the memory ones survive, whatever the placement |
| Kappa.KappaOfRange | crates/localx-eval-core/src/judge.rs:412-446 | for all label lists kappa lies between -1 and 1, is symmetric, and is 1 if and only if the compared items all agree |
| Kappa.KappaFromCounts | crates/localx-eval-core/src/judge.rs:412-446 | kappa from the counts alone: (1 - kappa) times the pairs that differ is n times the items that disagree |
| Kappa.KappaSign | crates/localx-eval-core/src/judge.rs:439-445 | short of full chance agreement, kappa is 0 if and only if the raters agree as chance would, and negative if and only if less |
| Kappa.ChanceWitness | crates/localx-eval-core/src/judge.rs:412-446 | raters who agree on half the items, as chance would have it, get 0 |
| Kappa.ChanceBound | crates/localx-eval-core/src/judge.rs:421-437 | chance agreement is at most halfway from the observed agreement to 1 |
| Kappa.ProductsArePairs | crates/localx-eval-core/src/judge.rs:428-437 | summing products of counts by label counts the pairs of items with equal labels, whatever extra labels are visited |
| Kappa.CohensKappa | crates/localx-eval-core/src/judge.rs:412-446 | the tallying loop and the sum in any order compute kappa over the shorter length |
| Request.TransformTwice | crates/localx-llama-runtime/src/nothink.rs:538-543 | transforming a request again changes nothing |
| Request.OtherFieldsKept | crates/localx-llama-runtime/src/nothink.rs:471-543 | every other root field is untouched, and so is a body that is no object |
| Request.ThinkingLeaves | crates/localx-llama-runtime/src/nothink.rs:469-478 | no thinking options are left at the root |
| Request.ConversationKept | crates/localx-llama-runtime/src/nothink.rs:495-535 | the messages that are no system messages stay, in order, whatever happens |
| Request.SystemGathered | crates/localx-llama-runtime/src/nothink.rs:495-535 | a system message with text sends every such text, after the existing one and in order, into `system` and leaves no system message behind |
| Request.FoldExample | crates/localx-llama-runtime/src/nothink.rs:495-535 | two system messages around another, after an existing text: the folded text, the messages left and the root, written out |
| Request.JoinAppend | crates/localx-llama-runtime/src/nothink.rs:495-535 | folded texts stand in their order, a separator between each two |
| Request.ContentReads | crates/localx-llama-runtime/src/nothink.rs:480-492 | a content's text is its string, or its blocks' texts, a line each |
| Request.RolesDecide | crates/localx-llama-runtime/src/nothink.rs:504-520 | messages of the system role are folded, and only those with text contribute; others are kept |
| Request.LeftBehind | crates/localx-llama-runtime/src/nothink.rs:504-520 | a system message stays behind if and only if there was one and none has text |
| Request.Body.MergeSystemMessages | crates/localx-llama-runtime/src/nothink.rs:495-535 | the in-place fold produces the specified body |
| Request.Body.TransformRequest | crates/localx-llama-runtime/src/nothink.rs:538-543 | thinking keys leave the root, then system messages are folded when asked |

## Left out

- Text.FindFirst: an empty needle is found at once here and never in the source; the model searches only for tags, blank lines and other constants.
- SseFilter.ChunkIndependence: how an event's bytes decode into lines and JSON payloads is an arbitrary function of the event, so JSON parsing and printing and lossy UTF-8 decoding are not modelled; a decoder is only required to give UTF-8 texts.
- JSON members the filter does not look up are one opaque value; that rewriting prints them unchanged is the JSON library's.
- SseFilter.SseThinkFilter.RewriteData: the filter trims a data payload differently when it looks for terminators and when it rewrites (both ends or only the front); a line is classified once, so payloads that differ only in trailing blanks are not told apart.
- SseLifecycle.LifecycleRepaired: an event has at most one JSON data line, and an Anthropic text delta is a `content_block_delta`; events with several differently typed data lines are outside the claim, as the event type is read from the first only.
- SseDelivery.RunMeaning: passages are told as wholes; the delta shape is overwritten by the latest delta, so within a passage whose blocks interleave there is no claim for each block. A block stop is taken to hold one data line.
- CancelSignal.NoLostWakeup: the notifier is taken by its documented rule (a registered waiter receives every later notification) as a count; memory orderings weaker than sequential consistency are not modelled.
- CommandRun.CompleteRun: environment variables, pipes, process groups, timers and the grace periods are I/O; which await answers when is arbitrary. Dropping the child handle, which kills an abandoned child, is one effect.
- CheckRun.Run: detail texts, sanitising and severities are not modelled.
- Capture.Captured.ReadAll: the mutex, the reader task and the decoding of the kept bytes are not modelled; an abandoned reader has read a prefix, for which the same statement holds.
- QuantCandidates.TotalSize: sizes are unbounded, the 64-bit sum cannot overflow here.
- ServerTail.BuildLlamaServerArgs: the context lookup in the model's definition is the caller's: its value or its refusal is an argument.
- Kappa.CohensKappa: arithmetic is exact; floating-point rounding is out, and the comparison with the machine epsilon is the comparison of chance agreement with 1.
- Request.Body.TransformRequest: object key order and number syntax are the JSON library's.
- `strip_think_json_response`, `fallback_if_empty`, the fitter's output parser, quant notes and display names: short walks over data that would only add easy members.
- Sockets, HTTP headers, process spawning, catalogues, scorecards, grading, tuning and downloads: I/O and plain tables.

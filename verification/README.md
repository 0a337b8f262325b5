# Model of the inference server of java-llama.cpp

A Dafny 4.11 model of the slot server that java-llama.cpp runs inside the JVM (`src/main/cpp/server.hpp` with helpers
from `utils.hpp`, the calls into it from `jllama.cpp`, and the JSON writer on the Java side), with proofs about it.
`dafny verify dfyconfig.toml` checks everything. Nothing here runs the original program.

How it is laid out:

- **Text.** `Utf8`, `StopWords` and `TextStream` are the streaming text machine: the UTF-8 checks, the windowed search
  for stop words, and what is sent, held back or cut; `Indentation` is the limit that can cut lines. `TokenVerdict` says
  when a token ends its task, and why. `JsonQuote` is the JSON writer against a reader of its own.
- **Cells and prompts.** `KvCache` models the part of the llama context that the server edits: per slot a map from
  position to a token and the adapters it was decoded under. `PromptReuse` is truncation and prompt reuse, and
  `PromptRules` what a launch, a refusal and the opening of a prompt are in plain fields.
- **Slots and calls.** `Slots` holds the data and what touches one slot; `UpdateSlots` gives one call of
  `update_slots` as a function of the slots, the cells and an `Oracle` (return codes of `llama_decode`, whether a
  partial removal works, sampled tokens, drafts and whether they can be decoded). The theorems are about this function:
  `ServerInvariant`, `BatchBuilding`, `PromptLoop`, `BatchRules`, `Adapters`, `Speculation`, `EarlyDrafts`,
  `DecodeLoop`, `DecodeCoverage`, `RetryLoop`, `Budget`, `BuildSteps`, `Traces`, `SlotIds`, `Progress`, and over whole
  runs `ServerRuns`, `Drain` and `EveryRun`. `Replies`, `ReplySteps` and `Silence` follow the results of one task through
  a call, and `TaskText` through a run: they are the text of its tokens. `SmallRuns`, put together from `OneSlot`, are
  runs from start-up that reach the cases the theorems single out.
- **Objects.** `SlotObject` and `ContextObject` are `server_slot` and `server_context` in their own form: fields, in
  place updates, loops with early exits. `ServerContext.UpdateSlots` is proved to compute the function above, loop by
  loop; `ContextSteps` cuts the function where the methods do. `TaskQueue`, `ResultQueue` and `JniClient` are the
  classes `server_queue` and `server_response` and the JNI entry points.
- **Protocol.** `Protocol` is the interleaved system of clients and the loop thread, one step per stretch of code
  under a lock, built from the functions that the queue classes are proved against. `ProtocolSafety`, `ProtocolSleep`
  and `ProtocolWaiting` hold its theorems; `Refinement` shows that what the concrete server does with requests and in a
  call is a run of it, and `Settlement` that the loop thread is, so that every task is answered once or cancelled.

The central invariant: at every boundary of `update_slots` a slot's `cache_tokens` are in its cells, and for a causal
task past its start they are all of its cells and `n_past` of them (`ServerInvariant.SlotOk`). While a batch is built
the cached tokens run ahead of the cells by exactly the slot's entries (`BatchBuilding.Behind`), and the decode loop
closes the gap view by view, while slots may speculate above it (`DecodeLoop.CellsBut`). Slots that generate at the same
time agree on their adapters (`Adapters.AllMatch`), so that no cell is ever decoded under foreign ones.

What the proofs turned up about the code:

- The check at server.hpp:2725, which its comment calls redundant, is reached: with context shift off it ends every
  task whose window is full, with an error, because `n_past` never reaches the `n_past >= n_ctx` that server.hpp:2141
  tests (`ServerInvariant.FullWindowWithoutShift`, `SmallRuns.FullWindowIsReached`).
- The stop detector can miss a stop word after a piece that ends inside a character was skipped, since the window at
  server.hpp:1326 counts the last piece only (`TextStream.SkippedPieceHidesStop`; the exact condition is in
  `DetectorRefinesNaive`).
- A streaming client does not get text that is held back when a limit or an end token ends the task
  (`TextStream.AllSentExactly`, `HeldBackTextIsLost`).
- A decode that fails for good releases the slots but leaves their cached tokens ahead of the cells
  (`ServerRuns.FatalDecodeLosesExactly`, `SmallRuns.FatalDecodeIsReached`), and sends an error for the task that an idle
  slot ran last (`Traces.GivingUpIsLegalExactly`, `SmallRuns.IdleSlotIsTold`).
- Cancelling compares `id_target`, which inference tasks do not set: a pending task is not taken out of the queue by a
  cancel of its id, while a cancel of -1 would remove all of them (`TaskQueue.CancelKeepsInferenceExactly`).
- A launch that fails, and a task pinned to a slot that does not exist, leave deferred tasks behind a sleeping thread
  (`ProtocolSleep.FailedLaunchStrandsExactly`, `FailedLaunchStrands`, `PinnedTaskIsStranded`). A task pinned to a slot
  that exists can be taken back in place of a free one, which then waits beside an idle slot
  (`ProtocolWaiting.PinnedTaskIsPassedOver`; the exact condition is in `WaitingIsServedExactly`).
- When a speculative step uses up the budget the accepted tokens after the first are counted but never processed
  (`Speculation.SpentBudgetDropsExactly`, `SmallRuns.AcceptedTokenIsLost`).
- A slot whose sampled token lies behind the first view of a batch can speculate before that token is decoded; the
  token is then cached and decoded twice, in consecutive places (`EarlyDrafts.EarlyDraftExactly`).
- The return code of the speculative decode is ignored: if it fails, tokens are cached that are in no cell
  (`Speculation.SpeculationKeepsCellsExactly`, `SmallRuns.UndecodedDraftIsReached`).
- The indentation limit looks at a line one token after it was sent, so a streaming client has text that is then cut
  (`Indentation.CutAgreesExactly`, `SentLineIsTakenBack`).
- A limit of generated tokens that is neither -1 nor positive stops a task after its first token: a slot that goes on
  is below its bound, which is at least one (`Slots.ProcessTokenStops`, `Budget.TokenSpendsBudget`).
- The final result of an empty prompt counts the tokens that its slot generated for an earlier task, since a launch does
  not reset `n_decoded` (`PromptRules.LaunchExactly`, `RefusedExactly`).
- A completion request with other than one prompt fails only after its tasks were registered and posted
  (`JniClient.RequestCompletion`).

What the theorems assume is written as preconditions. `ServerRuns.Allowed`: prompts are cached, a user's `n_discard`
stays inside the window, the first clear comes before the first task, no decode fails for good, and drafts can be
decoded. For each of these a lemma says exactly when the property fails without it (`UncachedPromptLosesExactly`,
`ShiftNeedsBoundedDiscard`, `LateClearLosesExactly`, `FatalDecodeLosesExactly`, `SpeculationKeepsCellsExactly`), and a
run from start-up gets there (in `SmallRuns`). Waiting and sleeping assume launches that succeed, and draining assumes
that partial removals work, which `Progress.FailingRemovalStallsForEver` and `SmallRuns.StallIsReached` show to be
needed. `Slots.Config` asks for at least four places in a slot's window and `1 <= n_ubatch <= n_batch`.

## Model

| member | source | states |
|---|---|---|
| `Utf8.IsValidUtf8` | src/main/cpp/utils.hpp:735-765 | the loop accepts exactly the byte strings made of complete characters (structural form of section 3 of RFC 3629) |
| `Utf8.ValidateUtf8` | src/main/cpp/utils.hpp:212-241 | the loop over the last four bytes returns the first cut it meets from the end, or the length |
| `Utf8.CutIsExact` | src/main/cpp/utils.hpp:212-241 | for every well formed text and every cut `k`: the tail check of the first `k` bytes is the greatest character boundary not above `k`, at most 3 back, and is `k` exactly when that prefix is itself well formed |
| `Utf8.BetweenBoundaries` | src/main/cpp/utils.hpp:735-765 | what lies between two character boundaries of a well formed text is well formed |
| `Utf8Masks.MasksAreRanges` | src/main/cpp/utils.hpp:222-236 | the bit masks of the source select the byte ranges of the model |
| `StopWords.FindPartialStopString` | src/main/cpp/utils.hpp:452-466 | the backward scan over the last character returns where the longest beginning of the stop word that the text ends in starts, or nothing |
| `StopWords.PartialIsLongest` | src/main/cpp/utils.hpp:452-466 | the scan finds the longest such beginning and fails only if there is none |
| `StopWords.EarliestOfIsFirst` | src/main/cpp/server.hpp:1319-1346 | the loop over stop words returns the earliest hit, and the first word of the list among equals |
| `StopWords.WindowedSearchIsNaive` | src/main/cpp/server.hpp:1325-1330 | the windowed search of one text agrees with the search of the whole text if and only if the latter finds nothing or some stop word at its offset ends no earlier than the last piece begins |
| `StopWords.WindowCanMiss` | src/main/cpp/server.hpp:1325-1330 | a text in which the window misses a stop word |
| `TextStream.SentIsPrefix` | src/main/cpp/server.hpp:2034-2073 | for all pieces and stop words, the partial contents joined together are `generated_text[..n_sent_text]`, and all of the text when the run ends on a stop word |
| `TextStream.AllSentExactly` | src/main/cpp/server.hpp:2034-2077 | of a run that no stop word ended, a streaming client gets the text that a waiting one gets if and only if the text is complete and no tail of it begins a stop word |
| `TextStream.HeldBackTextIsLost` | src/main/cpp/server.hpp:640-645 | a run of which a streaming client gets no text, because the tail is held back and the final response of a stream is empty |
| `TextStream.PartialContentIsWellFormed` | src/main/cpp/server.hpp:2034-2073 | no character is split between partial results: each adds a well formed text, if the whole text and the stop words are well formed |
| `TextStream.DetectorRefinesNaive` | src/main/cpp/server.hpp:2034-2073 | the windowed detector with hold-back stops at the same token and cuts at the same place as a search of the whole text after every token, at every prefix of the run, if and only if the text at which the latter stops is complete |
| `TextStream.SkippedPieceHidesStop` | src/main/cpp/server.hpp:2034-2077 | two pieces where a skipped incomplete one makes the window too short |
| `Indentation.LinesAreIndented` | src/main/cpp/server.hpp:2098-2132 | while a task goes on under the indentation limit, every line of its text but the first is indented by at least `n_indent`, up to the line that is looked at, and the partial contents are a beginning of the text |
| `Indentation.CutAgreesExactly` | src/main/cpp/server.hpp:2112-2122 | when the limit cuts the last line, a streaming client has the text that a waiting one gets if and only if text was sent exactly up to the cut, and has text that is taken back if and only if more was sent |
| `Indentation.SentLineIsTakenBack` | src/main/cpp/server.hpp:2088-2137 | a run in which a line is cut after it was sent |
| `Indentation.NoLimitIsPlain` | src/main/cpp/server.hpp:2099 | without the limit the run is the one that the results on streaming are about |
| `JsonQuote.ToJsonString` | src/main/java/de/kherud/llama/JsonParameters.java:39-94 | the character loop builds the quoted form, and null for null |
| `JsonQuote.QuoteRoundTrip` | src/main/java/de/kherud/llama/JsonParameters.java:39-94 | a reader written from section 7 of RFC 8259 reads back every UTF-16 sequence, whatever follows |
| `JsonQuote.QuotedIsTidy` | src/main/java/de/kherud/llama/JsonParameters.java:39-94 | the quoted form holds no control characters and no `</` |
| `JsonQuote.InferenceParameters.SetStopStrings` | src/main/java/de/kherud/llama/InferenceParameters.java:438-452 | the index loop stores the array form of the list under "stop", and nothing for an empty list; other parameters stay |
| `JsonQuote.ArrayRoundTrip` | src/main/java/de/kherud/llama/InferenceParameters.java:438-452 | reading the written array gives back every non-empty list, in order, with nulls as null |
| `KvCache.AreLoraEqual` | src/main/cpp/utils.hpp:819-831 | true if and only if pointers and scales agree in order; paths are not compared |
| `KvCache.ShiftMirrors` | src/main/cpp/server.hpp:2740-2751 | removing a block of cells and shifting the rest down keeps the tokens before it and after it, in order, and no two cells meet |
| `PromptReuse.TruncationFits` | src/main/cpp/server.hpp:2881-2912 | for all sizes the truncated prompt is the first `n_keep` tokens and then a suffix, at least half of the free window long, less than twice that and strictly below `n_ctx`; what is dropped between them are whole half-windows |
| `PromptReuse.MoveChunkOk` | src/main/cpp/server.hpp:2944-2953 | moving a matching chunk keeps the loop invariant (cache and cells are the prompt up to `head_p`, cells agree with the cache from `head_c` on) and no two cells meet |
| `PromptReuse.ReuseIsRight` | src/main/cpp/server.hpp:2914-2976 | prompt reuse ends with `n_past` between the longest common prefix and the prompt length, the cache agreeing with the prompt up to it, and after the trim to any `n` up to it the cells hold exactly `prompt[..n]` |
| `PromptReuse.ReuseGainsExactly` | src/main/cpp/server.hpp:2917-2958 | chunk reuse gets past the common prefix if and only if it is on and the cache has, behind that prefix, `n_cache_reuse` tokens that are next in the prompt, and then by at least as many; otherwise nothing is moved |
| `PromptRules.LaunchExactly` | src/main/cpp/server.hpp:1968-2019 | for every slot and task, in fields: what a launch sets, that the limit of generated tokens is cut to the server's, that cached tokens are kept if and only if pointers and scales of the adapters stay the same, and that `n_decoded` keeps its value |
| `PromptRules.RefusedExactly` | src/main/cpp/server.hpp:2843-2874 | for every slot: its prompt is refused if and only if it is empty, or wants an embedding or score and exceeds `n_ubatch` or `n_ctx`, or reaches `n_ctx` while shifting is off; and with which answer |
| `PromptRules.TakenExactly` | src/main/cpp/server.hpp:2819-2978 | a prompt that is not refused: `n_keep` is clamped, a prompt too long is fitted by whole half-windows, and `n_past` is where reuse ends, or one token before the end of the prompt |
| `TokenVerdict.TokenStopsExactly` | src/main/cpp/server.hpp:2029-2170 | for every slot and token: the task goes on if and only if the token is no end token, completes no stop word, and window, time, indentation, budget and training context are not used up; and which reason is told when it stops |
| `TokenVerdict.TokenShowsExactly` | src/main/cpp/server.hpp:2034-2077 | for every slot and token: a partial result is sent if and only if the client asked for a stream and the text is complete, with the text up to a stop word, nothing while an end of it begins one, or all that was not sent |
| `Slots.ProcessTokenStops` | src/main/cpp/server.hpp:2029-2170 | a token that is let through left the slot below its bound of generated tokens and below the window, and with a finite limit `n_remaining` is exactly what is left; the cached tokens, adapters and prompt stay |
| `Budget.TokenSpendsBudget` | src/main/cpp/server.hpp:1265-1279 | a handled slot stays within its bound and has strictly less to do |
| `ServerInvariant.ShiftIsForFullWindow` | src/main/cpp/server.hpp:2723-2732 | only a generating slot whose window is full up to the last place is shifted |
| `ServerInvariant.ShiftIsRight` | src/main/cpp/server.hpp:2723-2756 | in numbers: a shift discards `n_discard` tokens, or half of those behind the kept ones if it is 0, at least one; the first `n_keep`, one more with a BOS token, and those behind the block stay, in order, in cache and cells, and no two cells meet |
| `ServerInvariant.ShiftNeedsBoundedDiscard` | src/main/cpp/server.hpp:2736 | for a full window and any discard, cells, cache and `n_past` agree after the shift if and only if the discarded block lies inside it |
| `ServerInvariant.FullWindowWithoutShift` | src/main/cpp/server.hpp:2725-2732 | the check called redundant is reached, exactly by generating slots with `n_past == n_ctx - 1`; `n_past` stays below `n_ctx` |
| `ServerRuns.BuiltOk` | src/main/cpp/server.hpp:2758-3048 | from every sound state the batch is sound: tokens cached ahead of the cells are exactly the pending entries, ready slots point at their own last entry, contributors are compatible with the first, and the size is at most `n_batch` or the number of slots |
| `PromptLoop.BatchIsPairwiseCompatible` | src/main/cpp/server.hpp:1257-1263 | any two slots with entries in one batch both want embeddings or scores or neither does, and their adapters agree in pointers and scales, one by one |
| `PromptLoop.ReadyIndicesDiffer` | src/main/cpp/server.hpp:3031-3037 | ready slots have different `i_batch` |
| `PromptLoop.PositionsAreConsecutive` | src/main/cpp/server.hpp:2784-2786 | neighbouring entries of one slot have neighbouring positions, and the last one lies right below its `n_past` |
| `PromptLoop.AddTokensOk` | src/main/cpp/server.hpp:3004-3017 | the token loop keeps the batch sound and stops with the whole prompt taken in or with a full batch |
| `PromptLoop.PromptTurnOk` | src/main/cpp/server.hpp:2802-3042 | one turn of the prompt loop keeps the batch sound, the others' entries and ready slots as they were, and the batch within `n_batch` |
| `PromptLoop.WaitingSlotKeepsOldCache` | src/main/cpp/server.hpp:2982-2987 | an embedding prompt that has to wait keeps `n_past` 0 beside an earlier task's cached tokens; they agree if and only if there are none |
| `BatchRules.ShiftsExactly` | src/main/cpp/server.hpp:2723-2756 | before a batch is built, every busy slot with `n_past + 1 >= n_ctx` is shifted, or released if shifting is off, and no other is changed |
| `BatchRules.BatchIsByRules` | src/main/cpp/server.hpp:2758-3048 | from every sound state and for any answers: the sampled token of every generating slot is in the batch, at its `n_past` and in the order of the slots; behind them are prompts, none without continuous batching while some slot generates; a slot whose prompt is not in waits only because the batch is full, it is not like the slot that sets the pace, or its prompt must go in as a whole and does not fit; slots behind the one that fills the batch stay as they were; logits are asked for exactly the entries that are sampled from and for embeddings that are not pooled |
| `BatchBuilding.OpenedIsTrimmable` | src/main/cpp/server.hpp:2819-2978 | an opened prompt starts behind what is reused, which is never the whole prompt, and the cells up to there are those of its cached tokens |
| `DecodeLoop.DecodeFromOk` | src/main/cpp/server.hpp:3066-3256 | for any failure pattern, with or without a draft model, the loop ends; the cells are then the cached tokens but for the entries it did not reach, every ready slot was handled unless it gave up, and giving up leaves every slot idle |
| `DecodeCoverage.DecodeCoversBatchOnce` | src/main/cpp/server.hpp:3066-3256 | for any failure pattern the decoded views lie end to end from entry 0 to where the loop got, and each ready slot reached has exactly one turn, in the view holding its entry and with the right index in it, or none if a draft model let an earlier speculative step end its task; others have none |
| `RetryLoop.RetriesExactly` | src/main/cpp/server.hpp:3066-3104 | for every batch and all return codes: the loop gives up if and only if some call that is made returns a negative code, or any failure at a view size of one, where the size is `n_batch` halved once per failure before; the decoded views are those of the successful calls, each as long as the smaller of its size and of what was left |
| `Speculation.AdvancedIsRight` | src/main/cpp/server.hpp:3178-3234 | a speculative step makes the cache the old cache, the sampled token and all but the last accepted id; the cells equal it; `n_past <= n_ctx - 1`; a finite budget is not overrun |
| `Speculation.SpeculationKeepsCellsExactly` | src/main/cpp/server.hpp:3213-3234 | after a speculative step the cells are the cached tokens under the slot's adapters if and only if the draft could be decoded, which is not checked, and the adapters in force equal the slot's |
| `DecodeLoop.GeneratingIsInForce` | src/main/cpp/server.hpp:3058-3063 | the adapters in force in the decode loop are those of every slot that generates, also of one without an entry in the batch |
| `Adapters.SampledPaces` | src/main/cpp/server.hpp:2770-2794 | if generating slots agree on their adapters, the first of them sets the pace for all |
| `Adapters.PromptTurnPaces` | src/main/cpp/server.hpp:2799-3042 | a slot whose prompt is done is compatible with the one that sets the pace, and so are the generating ones |
| `Speculation.EarlyDraftRepeatsToken` | src/main/cpp/server.hpp:3168-3232 | a slot that speculates before the view with its own entry caches its sampled token twice |
| `EarlyDrafts.EarlyDraftExactly` | src/main/cpp/server.hpp:3168-3234 | in every sound state: a slot with its token in the batch speculates before that token is decoded if and only if its entry lies behind the first view and the draft limits let it; the token is then cached twice in a row |
| `Speculation.StepSpendsBudgetExactly` | src/main/cpp/server.hpp:3178-3226 | with a finite limit a step uses up what is left if and only if as many tokens are accepted, and never more; without one it can pass `n_ctx_train` |
| `Speculation.SpeculatesExactly` | src/main/cpp/server.hpp:3168-3211 | a slot speculates if and only if it generates with a draft model and a cached prompt and a draft of the least size is given and fits the task's limit, the window with one place free and the budget but one token; the draft is cut to the tightest of these |
| `Speculation.SpentBudgetDropsExactly` | src/main/cpp/server.hpp:3226-3254 | of accepted tokens that do not end the task themselves (by a stop word, an end token, time or indentation), all are processed if and only if there is one or the bound is not reached; otherwise only the first |
| `Speculation.OnlyToldMatter` | src/main/cpp/server.hpp:3236-3254 | accepted tokens that are not processed leave no trace in slots, cells or results |
| `SmallRuns.AcceptedTokenIsLost` | src/main/cpp/server.hpp:3226-3254 | a run from start-up whose final result counts three tokens and carries the text of two |
| `SmallRuns.UndecodedDraftIsReached` | src/main/cpp/server.hpp:3221 | a run from start-up that leaves three cached tokens and one cell, because a draft could not be decoded |
| `DecodeLoop.SpeculateFromOk` | src/main/cpp/server.hpp:3168-3258 | between any two views the pass over all slots keeps cache, cells, window and budget of every slot, also of slots with entries still to be decoded |
| `ServerRuns.UpdateOk` | src/main/cpp/server.hpp:2691-3260 | one call keeps the invariant of all slots, in any number of views and with or without a draft model, unless decoding fails for good |
| `ServerRuns.CacheMirrorsCellsInEveryRun` | src/main/cpp/server.hpp:2691-3260 | in every run of launches, cancels, erases and calls, with or without a draft model: cached tokens are in the cells, those of a causal task past its start are all of them and `n_past` many, `n_past` of a causal task is below `n_ctx`, and every such cell was decoded under the slot's adapters |
| `ServerRuns.FatalDecodeLosesExactly` | src/main/cpp/server.hpp:3075-3088 | after a decode that fails for good a slot's cached tokens are in its cells if and only if the loop had passed all its entries |
| `SmallRuns.FullWindowIsReached` | src/main/cpp/server.hpp:2725-2732 | a run from start-up in which a task ends at the check called redundant |
| `SmallRuns.FatalDecodeIsReached` | src/main/cpp/server.hpp:3075-3088 | a run from start-up that leaves a slot with three cached tokens and no cells |
| `SmallRuns.IdleSlotIsTold` | src/main/cpp/server.hpp:3083-3086 | a run from start-up of two slots, one of them idle, whose last event is an error for the idle one, and whose trace is not legal |
| `ServerRuns.LateClearLosesExactly` | src/main/cpp/server.hpp:2702-2709 | the first idle call leaves cached tokens covered if and only if there are none |
| `ServerRuns.UncachedPromptLosesExactly` | src/main/cpp/server.hpp:2989-3001 | without prompt caching, a prompt that spans batches leaves cached tokens that are in the cells if and only if all missing ones are token 0 |
| `SmallRuns.LateClearIsReached` | src/main/cpp/server.hpp:2702-2709 | a run from start-up in which a task runs before the first idle call, which then leaves three cached tokens and no cells |
| `SmallRuns.LongDiscardIsReached` | src/main/cpp/server.hpp:2736-2751 | a run from start-up whose next shift leaves cells that are no cached tokens |
| `SmallRuns.UncachedPromptIsReached` | src/main/cpp/server.hpp:2989-3001 | a run from start-up that leaves zeros cached for tokens that are not zero |
| `SmallRuns.StallIsReached` | src/main/cpp/server.hpp:2989-2998 | a run from start-up after which a prompt never gets in, however many calls are made |
| `Traces.UpdateIsLegal` | src/main/cpp/server.hpp:2691-3260 | every call in which decoding does not fail for good tells a legal trace: a slot is released once, with exactly one answer for its own task right after or before, partial results come for running tasks only, and nothing else is sent |
| `Traces.GivingUpIsLegalExactly` | src/main/cpp/server.hpp:3083-3086 | giving up is such a trace if and only if every slot is busy: an idle one gets an error for the task it ran last |
| `Progress.UpdateMakesProgress` | src/main/cpp/server.hpp:2691-3260 | every call with a busy slot strictly lowers the tokens and steps left, with or without a draft model and also when decoding fails for good; slots stay within their bounds |
| `Progress.FailingRemovalStallsExactly` | src/main/cpp/server.hpp:2989-2998 | where partial removal fails, a causal prompt alone in the batch is done in this turn if and only if it fits one batch |
| `Progress.FailingRemovalStallsForEver` | src/main/cpp/server.hpp:2989-2998 | and a longer one never gets in, however many calls are made |
| `Drain.UpdateIsBalanced` | src/main/cpp/server.hpp:1293-1302 | a call tells one release for each slot that becomes idle |
| `Drain.EverythingDrains` | src/main/cpp/server.hpp:1537-1578 | from any queues, whatever samplers, drafts, failures, pins and slot choices, the loop thread sleeps after finitely many steps with all slots idle and an empty queue, and nothing deferred if every task can be given to some slot |
| `EveryRun.EveryBatchInEveryRun` | src/main/cpp/server.hpp:2691-3260 | after every run, whatever the library answers next, the batch a call builds is at most `n_batch` or the number of slots, its slots are alike in kind and adapters, each slot's entries have consecutive positions from where its cells end up to its new `n_past`, ready slots sample from their own last entry, for which logits are asked, and the decode loop covers it once |
| `EveryRun.EveryShiftInEveryRun` | src/main/cpp/server.hpp:2723-2756 | after every run: a slot is shifted by the next call if and only if it generates and its window is full up to the last place, by the numbers of `ShiftIsRight`; with shifting off it is released |
| `TaskText.TaskTextIsDelivered` | src/main/cpp/server.hpp:2029-2277 | in every run, for any answers and also if decoding fails for good: from the launch of a task on, the partial contents joined together and followed by the content of the final result are what a client gets of the run over the tokens given for the task, in a stream or not; partial results come with a stream only, and before the end they are what the stream has carried so far |
| `Silence.UpdateIsSilent` | src/main/cpp/server.hpp:2691-3260 | a call sends nothing for a task that no slot has, and gives it to none |
| `TaskText.OneTokenPerCall` | src/main/cpp/server.hpp:3107-3165 | without a draft model: in a call each task that is due hears exactly the token sampled for its slot after the decode call whose view holds its entry, unless decoding fails for good before; other tasks hear none |
| `TaskText.PlainTaskText` | src/main/cpp/server.hpp:2029-2077 | without limits of time and indentation the text of a task is that of the run that the results on the text are about |
| `EveryRun.EveryRunDrains` | src/main/cpp/server.hpp:1537-1578 | the same from the state after any run of the slots, with any queues |
| `Settlement.ThreadIsProtocolRun` | src/main/cpp/server.hpp:1537-1578 | what the loop thread of the concrete server does in any number of steps is a run of the protocol from every state that shows it, with the same slots and queues at the end |
| `Settlement.EveryTaskIsSettled` | src/main/cpp/server.hpp:1537-1578 | from every reachable state of the protocol that shows a sound server the thread sleeps after finitely many steps, and each task that was posted has been told exactly one final result, or was taken off its slot by a cancel and told none |
| `Settlement.StartedServerSettles` | src/main/cpp/server.hpp:1537-1578 | the same for a server that was just started, whatever its clients have posted |
| `TaskQueue.ServerQueue.Post` | src/main/cpp/server.hpp:1453-1468 | the request goes to the chosen end; a cancel first removes requests with its target |
| `TaskQueue.ServerQueue.PostMany` | src/main/cpp/server.hpp:1471-1490 | the same for a list, in order, giving ids to those without |
| `TaskQueue.ServerQueue.CleanupPendingTask` | src/main/cpp/server.hpp:1581-1587 | exactly the requests with this target are removed from both queues |
| `TaskQueue.ServerQueue.PopDeferredTask` | src/main/cpp/server.hpp:1514-1521 | the oldest deferred task moves to the end of the queue |
| `TaskQueue.CancelKeepsInferenceExactly` | src/main/cpp/server.hpp:1581-1587 | a cancel keeps every pending inference task if and only if its target is not -1 or there are none |
| `TaskQueue.SparedIsAllExactly` | src/main/cpp/server.hpp:1581-1587 | nothing is removed if and only if no request has the target |
| `TaskQueue.CancelCleansBoth` | src/main/cpp/server.hpp:1453-1468 | posting a cancel leaves in both queues exactly the requests that it does not take away: other cancels of its target go, and, if the target is -1, inference tasks and wake-ups |
| `ResultQueue.ServerResponse.Recv` | src/main/cpp/server.hpp:1643-1655 | one pass takes out the first result for one of the ids and keeps the order of the rest |
| `ResultQueue.ServerResponse.RemoveWaitingTaskId` | src/main/cpp/server.hpp:1620-1630 | the id is no longer waited for and all its results are gone |
| `ResultQueue.ServerResponse.Send` | src/main/cpp/server.hpp:1690-1703 | a result is kept if and only if its id is waited for |
| `ResultQueue.ReceivedIsOldest` | src/main/cpp/server.hpp:1643-1655 | receiving for one task takes its oldest result and leaves every other task's results as they were |
| `ProtocolSafety.TasksAreConserved` | src/main/cpp/server.hpp:1453-1521 | in every interleaving a posted task is in exactly one of queue, deferred, the loop thread's hands, one slot, or finished; others are nowhere |
| `ProtocolSafety.TasksAreAnsweredOnce` | src/main/cpp/server.hpp:2495-2525 | in every interleaving a task gets at most one final result, none if a cancel took it off its slot, exactly one if its slot was released otherwise, and nothing after it |
| `ProtocolSafety.DeliveryIsLossless` | src/main/cpp/jllama.cpp:531-567 | in every interleaving, while a task is waited for, the results sent are those received followed by those pending; pending ids are waited for; a client with its final result has received all |
| `ProtocolSafety.GoneStaysGone` | src/main/cpp/jllama.cpp:544-548 | after a release or cancel no result for the task is ever queued again |
| `ProtocolSafety.IdsAreFresh` | src/main/cpp/server.hpp:1501-1505 | ids are never given out twice: the next one differs from those of all tasks, and of all requests on their way, and the counter never goes back |
| `ProtocolSleep.SleepsOnlyWithoutWork` | src/main/cpp/server.hpp:1571-1575 | in every interleaving in which launches succeed, the loop thread waits on an empty queue only if every slot is idle, and then nothing is deferred if and only if every posted task is free or pinned to a slot that exists |
| `ProtocolWaiting.WaitingIsServedExactly` | src/main/cpp/server.hpp:2495-2508 | in every interleaving, with any pins and failing launches: at every state with a deferred task no more slots are idle than inference tasks are queued or in hand, if and only if the thread never defers a task, or fails to launch one while another is deferred, with more slots idle than inference tasks queued |
| `ProtocolWaiting.FreeTasksWaitForBusySlots` | src/main/cpp/server.hpp:2495-2508 | this bound holds at every state of every interleaving of free tasks whose launches succeed |
| `ProtocolWaiting.PinnedTaskIsPassedOver` | src/main/cpp/server.hpp:2495-2508 | a run of two slots in which a task pinned to one of them breaks the bound: a free task waits beside an idle slot with nothing queued |
| `ProtocolSleep.FailedLaunchStrandsExactly` | src/main/cpp/server.hpp:2003-2004 | in every reachable state in which the next launch is the first to fail, this can leave a deferred task behind a sleeping thread, with nothing else going wrong, if and only if a task is deferred, no slot is busy and no inference task is queued |
| `ProtocolSleep.FailedLaunchStrands` | src/main/cpp/server.hpp:2003-2004 | a run of one slot and three tasks that gets there |
| `ProtocolSleep.PinnedTaskIsStranded` | src/main/cpp/server.hpp:2495-2508 | in every run a task posted for a slot that does not exist stays in the queue, deferred or in the thread's hands, and never gets to a slot or an end |
| `Refinement.CallIsProtocolRun` | src/main/cpp/server.hpp:2691-3260 | a call of the concrete server, taken event by event, is a run of the protocol and ends with the busy slots, queue and result box that the call computes |
| `Refinement.RunIsProtocolStep` | src/main/cpp/server.hpp:2491-2515 | what `ServerContext.ProcessRun` does to slots, queues and results is one step of the protocol |
| `Refinement.RunIsThreadStep` | src/main/cpp/server.hpp:2491-2515 | and, if the launch succeeds, one step of the loop thread that the draining theorem is about |
| `Refinement.CancelIsProtocolStep` | src/main/cpp/server.hpp:2517-2525 | what `ServerContext.ProcessCancel` does is one step of the protocol |
| `SlotObject.ServerSlot.FindStoppingStrings` | src/main/cpp/server.hpp:1319-1346 | the loop finds the earliest hit and sets the stop fields exactly for a full one |
| `SlotObject.ServerSlot.AcceptPiece` | src/main/cpp/server.hpp:2030-2073 | text, offset sent and partial content after one piece |
| `SlotObject.ServerSlot.CheckLine` | src/main/cpp/server.hpp:2101-2131 | the loop over blanks measures the last line, which is cut if it is indented by less than `n_indent`, and the next line is looked for |
| `SlotObject.ServerSlot.CheckLimits` | src/main/cpp/server.hpp:2088-2170 | text, stop reason and truncation after the limits, in their order; what they are is `TokenVerdict.TokenStopsExactly` |
| `SlotObject.ServerSlot.Launch` | src/main/cpp/server.hpp:1968-2019 | the whole slot after a launch, as stated by `PromptRules.LaunchExactly` |
| `SlotObject.ServerSlot.Shift` | src/main/cpp/server.hpp:2743-2755 | cached tokens and counters after the in-place copy loop; what they are in numbers is `ServerInvariant.ShiftIsRight` |
| `SlotObject.ServerSlot.FitPrompt` | src/main/cpp/server.hpp:2876-2912 | `n_keep` and prompt fitted to the window |
| `SlotObject.ServerSlot.CopyChunk` | src/main/cpp/server.hpp:2950-2953 | the overlapping in-place copy equals a copy of the whole chunk |
| `ContextObject.ServerContext.ApplyContextShift` | src/main/cpp/server.hpp:2723-2756 | the loop over slots shifts or refuses each slot that needs it |
| `ContextObject.ServerContext.AddSampledTokens` | src/main/cpp/server.hpp:2770-2794 | the loop puts the sampled tokens of compatible slots into the batch |
| `ContextObject.ServerContext.ReuseCache` | src/main/cpp/server.hpp:2914-2964 | the reuse loop computes cache, cells and `n_past` as stated by PromptReuse.ReuseIsRight |
| `ContextObject.ServerContext.OpenSlot` | src/main/cpp/server.hpp:2819-2978 | a prompt is refused or opened, as stated by `PromptRules` |
| `ContextObject.ServerContext.AddPrompts` | src/main/cpp/server.hpp:2799-3048 | the loop over slots, with its early exits, computes the batch |
| `ContextObject.ServerContext.ProcessSampled` | src/main/cpp/server.hpp:2029-2187 | slot, partial result and verdict after one token, as stated by `TokenVerdict` |
| `ContextObject.ServerContext.HandleView` | src/main/cpp/server.hpp:3107-3165 | every slot whose entry lies in the view is sampled, or its embedding or score sent |
| `ContextObject.ServerContext.SpeculateSlot` | src/main/cpp/server.hpp:3168-3258 | draft limit, draft, acceptance, trim and results of one slot |
| `ContextObject.ServerContext.DecodeBatch` | src/main/cpp/server.hpp:3066-3256 | the retry loop with its index that steps back computes the outcome that `RetryLoop.RetriesExactly` reads off the return codes |
| `ContextObject.ServerContext.UpdateSlots` | src/main/cpp/server.hpp:2691-3260 | one call leaves slots, cells, queue and results as the function the theorems are about says, for any answers of the library |
| `ContextObject.ServerContext.GetAvailableSlot` | src/main/cpp/server.hpp:1906-1966 | the most similar idle slot, or the least recently used one; none if and only if no idle slot is similar or was released before now |
| `ContextObject.ServerContext.ProcessRun` | src/main/cpp/server.hpp:2491-2515 | a task is launched on an idle slot, or deferred, and deferred only for the stated reasons |
| `ContextObject.ServerContext.ProcessCancel` | src/main/cpp/server.hpp:2517-2525 | the first slot with the task is released, and a deferred task taken back only if it was busy |
| `ContextObject.ServerContext.EraseSlot` | src/main/cpp/server.hpp:2671-2674 | an idle slot loses its cached tokens and all its cells; a busy one is left alone |
| `JniClient.JniClient.RequestCompletion` | src/main/cpp/jllama.cpp:489-542 | ids are drawn, registered and posted in order; other than one prompt is an error after the posting |
| `JniClient.JniClient.ReceiveCompletion` | src/main/cpp/jllama.cpp:551-567 | the oldest result for the task; a final one ends the waiting |
| `JniClient.JniClient.CancelCompletion` | src/main/cpp/jllama.cpp:813-819 | nothing is kept or waited for for the task, other tasks' results stay, and the cancel is first in the queue |

## Left out

- CacheMirrorsCellsInEveryRun: assumes what `ServerRuns.Allowed` lists, because the source breaks the property without it; `UncachedPromptLosesExactly`, `ShiftNeedsBoundedDiscard`, `LateClearLosesExactly`, `FatalDecodeLosesExactly` and `SpeculationKeepsCellsExactly` say exactly when. The part about all cells and `n_past` leaves out a waiting embedding or rerank slot, see `WaitingSlotKeepsOldCache`.
- DecodeCoversBatchOnce: with a draft model a slot whose task was ended by a speculative step before its view has no turn; the statement says so but not in which view the task ended.
- EverythingDrains: with partial removals that work and launches that succeed; some idle slot is found for a free task whenever there is one, which the source gives for a clock above every `t_last_used` (`ServerContext.GetAvailableSlot` says what it finds; `Tick` lets time pass, but that it passes between a release and the next choice is not tracked).
- EveryTaskIsSettled: where decoding does not fail for good, because giving up answers for slots that run nothing (`GivingUpIsLegalExactly`).
- SleepsOnlyWithoutWork: for launches that succeed; the protocol finds an idle slot for a free task whenever there is one (`Protocol.MustDefer`), which the source gives only for a clock above every `t_last_used`. It has no slot-erase, metrics or adapter requests, which the Java side never posts; a deferred slot-erase could be taken back in place of an inference task.
- FreeTasksWaitForBusySlots: the same assumption about idle slots and the clock.
- AdvancedIsRight: for a draft that could be decoded (`SpeculationKeepsCellsExactly` has the other case); the draft is taken to be no longer than asked, and the accepted ids to be a non-empty beginning of the draft and one token more.
- ShiftIsRight: `n_discard` is a natural number; a negative one, or one above the number of cached tokens, would resize a vector to a wrapped-around size; the model then leaves the cached tokens alone and sets `n_past` to 0.
- DetectorRefinesNaive: stop words are non-empty.
- TaskTextIsDelivered: for a task whose number no other slot has and no other task is given later, as `ProtocolSafety.IdsAreFresh` says of the protocol. With a draft model the tokens of a call are those that `ReplySteps.Heard` reads off the loop.
- OneTokenPerCall: without a draft model; with one, `DecodeCoversBatchOnce` and the results on `Speculation` say what is heard.
- GoneStaysGone: `remove_waiting_task_ids`, which forgets to drop pending results, is not part of this model; it has no caller.
- ServerQueue: `start_loop` and `terminate` are not methods here, because the loop does not end by itself; `Protocol` and `Drain` take it step by step. The race of starting and terminating is left out.
- ServerResponse: waiting on the condition variable is a step that cannot be taken in `Protocol`; the timeout of `recv_with_timeout` is left out.
- ServerSlot: the seven fields of the text machine are one record field, `text`; callbacks are calls of the context.
- The slot-erase request around server.hpp:2671-2674, its deferral for a busy slot and its result: the Java side never posts one.
- LinesAreIndented: for runs in which the time limit does not strike; the results of `TextStream` are for a limit of indentation that is off or does not strike.
- The time limit is the flag `late` of a sampled token, the clock a field that only slot selection reads.
- Integers are unbounded: `int32_t` counters and `size_t` positions never wrap around.
- Scales of adapters are reals, so a scale that is not a number, which equals nothing, is left out.
- llama.cpp itself: decoding, sampling, grammars, tokenizing, templates and the draft model are oracles; a cell is a token and adapters, not tensors. Of the longest common subsequence only the length is used, as a parameter.
- JNI fields and strings, model loading, logging and native library lookup: foreign calls.
- Response formats, timings, metrics, token probabilities and embedding values: copying and floating point.
- Slot save and restore: files inside llama.cpp decide the outcome.
- `receive_multi_results`, `receive_cmpl_results_stream`, `format_infill` and `base64_decode`: no caller is shown, or plain copying.

# Verification of the bolt-load download engine

A Dafny model of the concurrent download engine of bolt-load, of the two lock-free channels it signals
through, and of the headers it depends on, with proofs about every run and every input.

`dafny verify dfyconfig.toml` checks the whole project.

## The download engine

Each object (`ChunkPlanner`, `Generator`, `RunnerManager`, `RunnerLoop`) changes its fields in place; every method's
contract equates its new state and result with a transition function, and the invariants and run theorems are about
those functions.

- `Planner`, `PlannerLaws`, `PlannerGaps`, `PlannerAnswers`, `RangeMerging`, `ChunkPlanning`: the interval allocator.
  `Planner` holds values and transitions, `ChunkPlanning` the object that computes them in place.
- `IdGeneration`, `Manager`, `ManagerAnswers`, `RunnerManagement`: runner ids, limit mailboxes, spawning, shrinking,
  ticks.
- `Runner`, `RunnerLaws`, `RunnerRuns`, `RunnerCauses`, `RunnerTurns`, `RunnerLoop`: one runner, its actions, its runs,
  why it stops, and the polled object.
- `Engine`, `EngineLocal`, `EngineInvariant`, `EngineCrew`, `EngineSteps`, `EngineTicks`, `EngineRuns`: manager,
  any number of runners and the writer, in any interleaving, with failures, deaths, retries and shrinks.
- `PlanCompletion`, `Completion`, `StrandedRun`: when completion is reported, and when never. `Reporting`: which
  failures are.
- `Strategies`, `Delivery`, `Recovery`: what the strategies ask for, how a runner delivers, and from where a download
  can still finish.
- `Splitting`, `SplitRun`: when the split's `expect` fails.
- `SlotMailbox`: the engine's mailbox is the slot.

The main results are in `EngineRuns`: what is written is the source, once; completion means all of it; the
manager may take a runner's word for it; and no tick of the manager panics. `Reporting.ToldExactly` adds that no
failure is swallowed, repeated or made up.

## The channels and the headers

- `Slot`, `SlotLaws`, `SlotRuns`: the latest-value slot with its atomic waker, one receiver and any number of
  sending threads. `Watch`, `WatchLaws`, `WatchRuns`: the watch channel, any number of both.
- `Text`, `ContentRange`, `RangeResponse`: section 14.4 of RFC 9110, and the body held to a range.
- `ExtendedValue`, `ContentDisposition`, `DispositionLaws`, `DispositionExact`, `DispositionGrammar`: section 3.2 of
  RFC 5987 and section 4.1 of RFC 6266.
- `Wrappers`, `Numbers`, `OrderedKeys`, `Paths`: options, results, bounds, the order of a map's keys, and what steps
  lead to.

## What the proofs found

- `find_chunk_to_split` may suggest a range past the end of the chunk it splits. The suggestion stays inside
  exactly when the chunk has the required size left (`ChunkPlanning.SuggestionInsideIff`,
  `ChunkPlanning.SuggestionMayOverrun`).
- Allocating or splitting to an id that still owns an active chunk breaks the planner; the planner does not
  check it. This is the exact condition (`PlannerLaws.AllocatePendingKeepsInv`, `PlannerLaws.SplitKeepsInv`);
  `PlannerLaws.AllocatedTwice` and `PlannerLaws.SplitWithItself` give the plans. In the engine no id is ever reused
  that way.
- A failed stop is never checked for completion. If it is the last runner's and its last byte was accepted
  meanwhile, the download is complete and never says so. It can only fail: by that very failure, if it is
  unretryable or one too many, by the no-progress deadline, or by cancellation. `Completion.StrandedIff`
  says that nothing else can do this, `StrandedRun.StrandingHappens` gives a run.
- It is too late even before that: once everything was accepted and every runner left has a failed stop to be read,
  nothing finishes any more (`StrandedRun.DoomedBeforeStranded` gives a run). From every other state a download
  of something can finish: this is the exact condition (`Recovery.FinishPossibleIff`).
- `split` expects the spawn to succeed. It fails for a runner that has nothing left, which no strategy picks,
  and when every id is taken (`Splitting.SplitFailsIff`). The strategies count active chunks, but a runner that
  delivered its chunk keeps its id until its `Stopped` is read: `SplitRun.SplitMayFail` gives a run with three ids and
  one active chunk, in which every chunk was cut as the strategies ask.
- A form field name is printed without quotes, though it is read with them: names that are empty, hold `;`,
  start with a quote or have whitespace at an end are lost. Nothing else of a parsed header is
  (`DispositionExact.ReprintIsStable`, `DispositionExact.RoundTripIff`, `DispositionExact.QuotedNameIsLost`).
- The comment at `content_disposition.rs:468-469` asks for every ASCII control character to be escaped, the horizontal
  tab included. The pattern leaves U+0009 to U+000F as they are (`DispositionGrammar.EscapeSpells`); they come back all
  the same.
- `limit_range_body` counts the bytes of any range it is given. The count overflows exactly for reversed bounds and for
  `0-18446744073709551615` (`RangeResponse.CountsWithinIff`), of which the parser returns only the latter
  (`RangeResponse.ParsedCountsWithinIff`); a checked range never overflows (`RangeResponse.PassedFits`).

## Assumptions

- Atomics are sequentially consistent; each atomic operation, and each access to a guarded cell, is one step.
- A stream yields the source's bytes as far as its range goes, in any pieces; beyond it, anything. It may end,
  fail or stall at any time.
- Timers expire at any time. Threads and tasks may stop at any step; a runner may die at any step.
- `usize` has 64 bits, and the total is below 2^64. No sum of the planner's progress passes the total
  (`PlannerLaws.AdvanceNeverOverflows`); `checked_add` is modelled as such; the version word wraps.
- A failing `expect` and a failing debug assertion are the same outcome, a panic. Two sums may overflow: the end
  that `find_chunk_to_split` suggests and the count of a range body. A release build wraps them, as the model does; a
  debug build stops, exactly when `FindChunkToSplit` reports `overflow`, and where `CountsWithin` fails.
- A runner is no longer observed once the manager released it.
- A language tag is its text, and any predicate may tell which texts are tags; printing a tag gives its text.

## Model

| member | source | states |
|---|---|---|
| `EngineRuns.WritesAreTheSource` | crates/bolt-load/src/task/instance/concurrent_task/runner_manager/data.rs:148-163 | In every state of every run, each range handed to the writer carries the source's bytes of exactly that range, no two overlap, and `accepted_bytes` is the number of distinct bytes written |
| `EngineRuns.FinishedMeansEverything` | crates/bolt-load/src/task/instance/concurrent_task/runner_manager.rs:510-522 | When completion is reported, every byte of the source was put in its place by exactly one write, and `accepted_bytes` is the total |
| `EngineRuns.WritesOnlyGrow` | crates/bolt-load/src/task/instance/concurrent_task/runner_manager/data.rs:148-163 | What was handed to the writer is never taken back or changed |
| `EngineRuns.ViewsAgree` | crates/bolt-load/src/task/instance/concurrent_task/runner_manager.rs:491-507 | For each observed runner: downloaded is received clipped to the chunk, its own limit is never below the chunk, the limits sent strictly decrease from its range's length to the chunk's, and it refused none |
| `EngineRuns.SuccessIsTrue` | crates/bolt-load/src/task/instance/concurrent_task/runner_manager/lifecycle.rs:163-173 | A started runner's `Finished` or `ExceededTotalSize` always means its chunk is fully accepted, however limits, frames and shrinks interleave |
| `EngineRuns.NeverPanics` | crates/bolt-load/src/task/instance/concurrent_task/runner_manager/lifecycle.rs:131-194 | No `expect` or debug assertion of the ticks fails in any run; planner owners, limit senders and allocated ids are the same set |
| `EngineRuns.RunKeepsInv` | crates/bolt-load/src/task/instance/concurrent_task/runner_manager.rs:534-547 | The whole-system invariant holds in every state of every run |
| `EngineRuns.NextKeepsInv` | crates/bolt-load/src/task/instance/concurrent_task/runner_manager.rs:534-547 | Every event of manager, runners and environment keeps the whole-system invariant |
| `EngineTicks.DataKeepsWrites` | crates/bolt-load/src/task/instance/concurrent_task/runner_manager/data.rs:148-163 | Accepting a frame writes the source's bytes of a range never written before, and what is written stays what is downloaded |
| `EngineTicks.StoppedNext` | crates/bolt-load/src/task/instance/concurrent_task/runner_manager/lifecycle.rs:148-194 | Any stop removes the runner everywhere and gives its chunk up, or completes it only if it is fully downloaded; completion is reported only of a complete plan, and nothing panics |
| `EngineTicks.StoppedKeepsInv` | crates/bolt-load/src/task/instance/concurrent_task/runner_manager/lifecycle.rs:148-194 | A stop keeps the whole-system invariant |
| `EngineTicks.StartedKeepsInv` | crates/bolt-load/src/task/instance/concurrent_task/runner_manager/lifecycle.rs:135-147 | Starting a runner keeps the whole-system invariant |
| `EngineTicks.LossIsGivenUp` | crates/bolt-load/src/task/instance/concurrent_task/runner_manager/lifecycle.rs:235-260 | A lost runner is forgotten everywhere, its id is free, and exactly what it had not downloaded is unallocated again |
| `EngineTicks.RejectionIsUndone` | crates/bolt-load/src/task/instance/concurrent_task/runner_manager/lifecycle.rs:222-232 | The oldest rejected spawn is undone: runner and mailbox are forgotten, the id is free, and all of its range is unallocated again |
| `EngineTicks.ClosedOnce` | crates/bolt-load/src/task/instance/concurrent_task/runner_manager/data.rs:114-144 | A data end that closed is told of once, after its last frame, and only its removal changes anything |
| `EngineSteps.ResizeAllOrNothing` | crates/bolt-load/src/task/instance/concurrent_task/runner_manager.rs:491-507 | A resize cuts the chunk and sends the matching limit, or leaves the whole manager as it was; it goes through exactly when the runner still reads limits and the new end lies inside the chunk |
| `EngineSteps.ShrinkKeepsInv` | crates/bolt-load/src/task/instance/concurrent_task/runner_manager.rs:491-507 | A shrink at any moment keeps the whole-system invariant, and with it the agreement of planner, mailbox and runner |
| `EngineSteps.SpawnNext` | crates/bolt-load/src/task/instance/concurrent_task/runner_manager.rs:439-457 | A spawn adds a fresh id with a new chunk and its ends, or, without an id or room, changes nothing but the search hint |
| `EngineSteps.SpawnKeepsInv` | crates/bolt-load/src/task/instance/concurrent_task/runner_manager.rs:439-457 | A spawn keeps the whole-system invariant |
| `EngineSteps.ActsKeepsInv` | crates/bolt-load/src/runner/run_loop.rs:162-250 | Any action of a runner keeps the whole-system invariant |
| `EngineLocal.SuccessMeansComplete` | crates/bolt-load/src/task/instance/concurrent_task/runner_manager/lifecycle.rs:163-173 | Local core of the drain argument: success read from a runner implies a complete chunk |
| `EngineLocal.NoSuccessBeforeStart` | crates/bolt-load/src/task/instance/concurrent_task/runner_manager/lifecycle.rs:151-161 | A runner that never started can report neither success nor excess |
| `EngineLocal.FrameHoldsSource` | crates/bolt-load/src/task/instance/concurrent_task/runner_manager/data.rs:148-163 | A taken frame, truncated to the accepted range, is the source's bytes of that range |
| `EngineLocal.FrameKeepsProc` | crates/bolt-load/src/task/instance/concurrent_task/chunk_planner.rs:225-251 | Clipped progress keeps downloaded equal to min(received, allocated) |
| `EngineLocal.ActKeepsProc` | crates/bolt-load/src/runner/control.rs:64-85 | A mailbox limit is always lower than the runner's own, so applying it never fails |
| `EngineLocal.ShrinkKeepsProc` | crates/bolt-load/src/task/instance/concurrent_task/runner_manager.rs:491-507 | Overwriting an unread limit with a lower one keeps the sent limits decreasing and the views in agreement |
| `Completion.ReportedExactly` | crates/bolt-load/src/task/instance/concurrent_task/runner_manager/lifecycle.rs:163-194 | Completion is reported by exactly the successful stops and losses that leave the plan complete |
| `Completion.StrandedIff` | crates/bolt-load/src/task/instance/concurrent_task/runner_manager/lifecycle.rs:175-194 | Exactly one kind of event leaves everything accepted and nobody to report it: the failed stop of the last runner after its last byte was accepted |
| `Completion.StrandedForever` | crates/bolt-load/src/task/instance/concurrent_task/runner_manager/lifecycle.rs:175-194 | From then on no event ever reports completion |
| `PlanCompletion.FailureCompletesIff` | crates/bolt-load/src/task/instance/concurrent_task/chunk_planner.rs:288-315 | A failed runner leaves a complete plan exactly when its chunk was complete, all others are finished and no gap is left |
| `Recovery.FinishPossibleIff` | crates/bolt-load/src/task/instance/concurrent_task/runner_manager/lifecycle.rs:163-194 | From a reachable unfinished state a run can finish if and only if there is an id at all and not both everything was accepted and every runner left has a failed stop to be read next; and then by steps as the strategies ask |
| `Recovery.DoomedForever` | crates/bolt-load/src/task/instance/concurrent_task/runner_manager/lifecycle.rs:175-194 | Once everything was accepted and every runner left has a failed stop to be read, no run ever reports completion |
| `Recovery.StrandedIsDoomed` | crates/bolt-load/src/task/instance/concurrent_task/runner_manager/lifecycle.rs:175-194 | A stranded download is one of those that cannot finish |
| `Recovery.CompletionHappens` | crates/bolt-load/src/task/instance/concurrent_task/runner_manager.rs:510-522 | Every download of something, with any number of ids, has a run that reports completion with every byte written once |
| `StrandedRun.DoomedBeforeStranded` | crates/bolt-load/src/task/instance/concurrent_task/runner_manager/lifecycle.rs:175-194 | A reached state in which a runner is left and nothing is stranded, and yet no run finishes |
| `Delivery.Delivers` | crates/bolt-load/src/runner/run_loop/stream.rs:122-193 | A fresh runner can stream its range in as many frames as that takes, drain and report `Finished`, its chunk complete and nothing else of the download changed |
| `Recovery.Fills` | crates/bolt-load/src/task/instance/concurrent_task/strategy/concurrency_control_strategy.rs:345-353 | A gap given to a runner is downloaded: strictly more is accepted, and completion is reported exactly if that was everything |
| `PlanCompletion.FullIff` | crates/bolt-load/src/task/instance/concurrent_task/chunk_planner.rs:525-531 | The counter has reached the total exactly when the chunks leave no gap and each is downloaded |
| `StrandedRun.StrandingHappens` | crates/bolt-load/src/runner/run_loop/drain.rs:66-109 | A concrete run of one byte and one runner: a drain timeout crosses the last frame and the download is stranded with everything written |
| `Splitting.SplitFailsIff` | crates/bolt-load/src/task/instance/concurrent_task/download_loop/strategy_tick.rs:84-100 | The `expect` after a split fails exactly when the runner has nothing left, or it can be halved but every id is taken |
| `Splitting.PickedSplitFailsIff` | crates/bolt-load/src/task/instance/concurrent_task/download_loop/strategy_tick.rs:84-100 | Of the runners the strategies pick, exactly when the runner still reads limits and every id is taken |
| `Splitting.SplitHalves` | crates/bolt-load/src/task/instance/concurrent_task/download_loop/strategy_tick.rs:84-100 | A split that goes through leaves the runner the first half of what it had left and gives a newcomer the rest, to the byte |
| `SplitRun.SplitMayFail` | crates/bolt-load/src/task/instance/concurrent_task/download_loop/strategy_tick.rs:84-100 | For any file of 8 MiB or more with three ids: the whole file goes to one runner, which is split twice as the strategies pick it, each newcomer delivering its half; then one chunk is active, its runner is picked again, and the split fails |
| `Strategies.OnwardLeads` | crates/bolt-load/src/task/instance/concurrent_task/download_loop/strategy_tick.rs:47-100 | Whatever whole-gap tasks, picked splits and other events lead to, a run of the engine gets to |
| `Splitting.SpawnFailsIff` | crates/bolt-load/src/task/instance/concurrent_task/runner_manager.rs:439-457 | Any spawn gives no runner exactly if no id is free or the range is not accepted |
| `Reporting.ToldExactly` | crates/bolt-load/src/task/instance/concurrent_task/runner_manager/lifecycle.rs:175-273 | In every run the loop was told exactly of the failures of started and connecting runners, of rejected spawns, and of losses that left something to download, each once and in order; never of a success, an excess once started, or a cancellation |
| `Reporting.StepTells` | crates/bolt-load/src/task/instance/concurrent_task/runner_manager/lifecycle.rs:131-273 | Every event tells the loop exactly the failure it is, if it is one |
| `Reporting.RunHasEvents` | crates/bolt-load/src/task/instance/concurrent_task/runner_manager.rs:534-547 | Every run has the events that `ToldExactly` speaks of |
| `Reporting.StopOutcome` | crates/bolt-load/src/task/instance/concurrent_task/runner_manager/lifecycle.rs:148-218 | From any plan in which the runner owns a chunk: a stop is told as a failed attempt with error `e` if and only if its reason is `Failed(e)`, `e` is not `Cancelled`, and the runner was connecting or `e` is no excess; and exactly when it answers completion, nothing, or a panic |
| `Reporting.StartOutcome` | crates/bolt-load/src/task/instance/concurrent_task/runner_manager/lifecycle.rs:135-147 | A runner starts from the pending state with its data end held back, and from no other; then it runs and its data is polled |
| `Reporting.RejectionOutcome` | crates/bolt-load/src/task/instance/concurrent_task/runner_manager/lifecycle.rs:202-232 | A rejected spawn is always told as a failed attempt of the runner that waited longest |
| `Reporting.LossOutcome` | crates/bolt-load/src/task/instance/concurrent_task/runner_manager/lifecycle.rs:235-260 | A loss is told as `ChannelClosed` exactly when the plan it leaves is not complete, else it completes the download |
| `Reporting.BreakLosesNothing` | crates/bolt-load/src/runner/run_loop/drain.rs:38-48 | When the manager can read of a started runner's broken stream, it has accepted everything that runner pushed |
| `RunnerManagement.RunnerManager.SpawnRunnerWithChunk` | crates/bolt-load/src/task/instance/concurrent_task/runner_manager.rs:439-457 | Allocates id and pending chunk, registers or records the rejection, or undoes the id; it leaves the planner valid exactly if the id owned no active chunk, which is so while only allocated ids own chunks |
| `RunnerManagement.RunnerManager.ResizeRunner` | crates/bolt-load/src/task/instance/concurrent_task/runner_manager.rs:491-507 | The guarded shrink; on any error the manager is exactly as before |
| `ManagerAnswers.ResizeOutcome` | crates/bolt-load/src/task/instance/concurrent_task/runner_manager.rs:491-507 | A resize goes through exactly if nothing has to be cut, or the new size fits and the runner still reads limits; which error it gives otherwise; and the limit sent is the length of the chunk left |
| `RunnerManagement.RunnerManager.HandleLifecycle` | crates/bolt-load/src/task/instance/concurrent_task/runner_manager/lifecycle.rs:131-194 | The event handler computes the transition whose answers `Reporting.StopOutcome` and `StartOutcome` pin and the run theorems are about |
| `RunnerManagement.RunnerManager.HandleRunnerLost` | crates/bolt-load/src/task/instance/concurrent_task/runner_manager/lifecycle.rs:235-260 | The handler of a closed lifecycle computes its transition |
| `RunnerManagement.RunnerManager.TakeSpawnFailure` | crates/bolt-load/src/task/instance/concurrent_task/runner_manager/lifecycle.rs:269-273 | Rejected spawns are taken oldest first, once, each told as a failed attempt (`Reporting.RejectionOutcome`) |
| `RunnerManagement.RunnerManager.HandleDataFrame` | crates/bolt-load/src/task/instance/concurrent_task/runner_manager/data.rs:148-163 | Accepts the frame and truncates it to the accepted range |
| `ManagerAnswers.DataOutcome` | crates/bolt-load/src/task/instance/concurrent_task/runner_manager/data.rs:148-163 | A frame is accepted exactly for a runner with a chunk, directly behind what it has and up to the chunk's end, and exactly those bytes become downloaded |
| `RunnerManagement.RunnerManager.PollTick` | crates/bolt-load/src/task/instance/concurrent_task/runner_manager.rs:534-547 | Rejected spawns, then lifecycle, then data, and data only when enabled; a frame is returned cut to the accepted range |
| `RunnerManagement.RunnerManager.ReleaseRunner` | crates/bolt-load/src/task/instance/concurrent_task/runner_manager.rs:250-257 | Drops everything held of the runner and frees its id |
| `RunnerManagement.RunnerManager.RegisterRunnerChannels` | crates/bolt-load/src/task/instance/concurrent_task/runner_manager.rs:306-318 | A connecting runner's data end is held back, any other is polled |
| `RunnerManagement.SpawnKeepsOwnersAllocated` | crates/bolt-load/src/task/instance/concurrent_task/runner_manager.rs:439-457 | A spawn gives its chunk to an id that owned none |
| `RunnerManagement.StopKeepsOwnersAllocated` | crates/bolt-load/src/task/instance/concurrent_task/runner_manager/lifecycle.rs:148-194 | A stop frees an id only together with its chunk |
| `RunnerManagement.LossKeepsOwnersAllocated` | crates/bolt-load/src/task/instance/concurrent_task/runner_manager/lifecycle.rs:235-260 | A loss frees an id only together with its chunk |
| `RunnerManagement.RejectionKeepsOwnersAllocated` | crates/bolt-load/src/task/instance/concurrent_task/runner_manager/lifecycle.rs:222-232 | Undoing a rejected spawn frees its id only together with its chunk |
| `PlannerLaws.AllocatePendingKeepsInv` | crates/bolt-load/src/task/instance/concurrent_task/chunk_planner.rs:186-222 | Allocation keeps the representation invariant if and only if it is refused or the runner owns no active chunk; downloaded bytes are untouched |
| `PlannerLaws.SplitPartitions` | crates/bolt-load/src/task/instance/concurrent_task/chunk_planner.rs:318-363 | A split gives each byte of the chunk to exactly one of the two runners, all of the second part yet to come, and allocates, frees, downloads and loses nothing |
| `PlannerLaws.SplitKeepsInv` | crates/bolt-load/src/task/instance/concurrent_task/chunk_planner.rs:318-363 | A split keeps the invariant if and only if it is refused or the newcomer owns no active chunk |
| `PlannerLaws.AdvanceKeepsInv` | crates/bolt-load/src/task/instance/concurrent_task/chunk_planner.rs:225-251 | Progress keeps the invariant, counter included |
| `PlannerLaws.MarkFailedKeepsInv` | crates/bolt-load/src/task/instance/concurrent_task/chunk_planner.rs:288-315 | Failing keeps the invariant and every downloaded byte |
| `PlannerLaws.MarkFinishedKeepsInv` | crates/bolt-load/src/task/instance/concurrent_task/chunk_planner.rs:273-285 | Finishing keeps the invariant and every downloaded byte |
| `PlannerLaws.MarkRunningKeepsInv` | crates/bolt-load/src/task/instance/concurrent_task/chunk_planner.rs:254-270 | Starting keeps the invariant and every downloaded byte |
| `PlannerLaws.ResizeKeepsInv` | crates/bolt-load/src/task/instance/concurrent_task/chunk_planner.rs:493-521 | Shrinking keeps the invariant and every downloaded byte |
| `PlannerLaws.AllocateIdleKeepsInv` | crates/bolt-load/src/task/instance/concurrent_task/chunk_planner.rs:180-222 | Idle allocation keeps the invariant |
| `PlannerLaws.FailureFreesItsRange` | crates/bolt-load/src/task/instance/concurrent_task/chunk_planner.rs:288-315 | The range a failed runner leaves behind is exactly what its failure frees |
| `PlannerLaws.ShrinkFreesTheRest` | crates/bolt-load/src/task/instance/concurrent_task/chunk_planner.rs:493-521 | A shrink frees exactly the bytes behind the chunk's new end |
| `PlannerLaws.AllocatedTwice` | crates/bolt-load/src/task/instance/concurrent_task/chunk_planner.rs:174-222 | Two allocations to one runner are both accepted, and the second breaks the planner, for any file of two bytes or more |
| `PlannerLaws.SplitWithItself` | crates/bolt-load/src/task/instance/concurrent_task/chunk_planner.rs:318-363 | Splitting a chunk with the runner that has it goes through and breaks the planner |
| `PlannerLaws.AcceptedWithinTotal` | crates/bolt-load/src/task/instance/concurrent_task/chunk_planner.rs:225-251 | No more is ever accepted than the file has |
| `PlannerLaws.AdvanceNeverOverflows` | crates/bolt-load/src/task/instance/concurrent_task/chunk_planner.rs:225-251 | However long the frame, neither the chunk's new end nor the counter passes the total, let alone 64 bits |
| `PlannerLaws.GrowBytes` | crates/bolt-load/src/task/instance/concurrent_task/chunk_planner.rs:238-248 | Growing a chunk's downloaded part adds exactly the new bytes, none of them downloaded before |
| `PlannerAnswers.AcceptedIff` | crates/bolt-load/src/task/instance/concurrent_task/chunk_planner.rs:186-222 | A range is accepted if and only if it is not empty, lies in the file, overlaps no chunk, and the limit on chunks leaves room for one more |
| `PlannerAnswers.AllocationAnswers` | crates/bolt-load/src/task/instance/concurrent_task/chunk_planner.rs:186-222 | A refused allocation changes nothing; an accepted one adds exactly the range as a chunk of the runner with nothing downloaded |
| `PlannerAnswers.ProgressAnswers` | crates/bolt-load/src/task/instance/concurrent_task/chunk_planner.rs:225-251 | A frame is accepted for exactly the runners with a chunk: as many bytes as frame and chunk allow, which become downloaded and were not; the chunk is finished with its last byte and not before |
| `PlannerAnswers.StartAnswers` | crates/bolt-load/src/task/instance/concurrent_task/chunk_planner.rs:254-270 | Starting succeeds for exactly the runners with a chunk, whose chunk then runs and is otherwise as it was |
| `PlannerAnswers.CompletionAnswers` | crates/bolt-load/src/task/instance/concurrent_task/chunk_planner.rs:273-285 | Completing succeeds for exactly the runners with a chunk, which is finished, otherwise as it was, and no longer theirs |
| `PlannerAnswers.FailureAnswers` | crates/bolt-load/src/task/instance/concurrent_task/chunk_planner.rs:288-315 | A failed runner's downloaded bytes stay as a finished chunk of nobody, if there are any, and the answer is the range of the others |
| `PlannerAnswers.SplitAnswers` | crates/bolt-load/src/task/instance/concurrent_task/chunk_planner.rs:318-363 | A split is accepted if and only if the position lies strictly between what is downloaded and the end of the chunk; the newcomer runs the part behind it, and a refused split changes nothing |
| `PlannerAnswers.ResizeAnswers` | crates/bolt-load/src/task/instance/concurrent_task/chunk_planner.rs:493-521 | A resize is refused if and only if the new size is more than is left, or zero with nothing downloaded; otherwise the new size is left, and it is `Unchanged` exactly if it was before |
| `PlannerAnswers.CompleteIff` | crates/bolt-load/src/task/instance/concurrent_task/chunk_planner.rs:524-531 | Complete means exactly: there is a chunk, all are finished, and every byte is in one |
| `PlannerLaws.AcceptsIffDisjoint` | crates/bolt-load/src/task/instance/concurrent_task/chunk_planner.rs:192-209 | The predecessor-only lookup accepts a non-empty range inside the file exactly when it overlaps no chunk |
| `PlannerGaps.AcceptsIffInOneGap` | crates/bolt-load/src/task/instance/concurrent_task/chunk_planner.rs:366-379 | Equivalently, when it lies inside one gap |
| `PlannerGaps.GapsExact` | crates/bolt-load/src/task/instance/concurrent_task/chunk_planner.rs:366-379 | The gaps are ordered, non-empty, maximal, and with the chunks partition the file, bytes and lengths |
| `PlannerGaps.CompleteMeansEverything` | crates/bolt-load/src/task/instance/concurrent_task/chunk_planner.rs:524-531 | No gap and only full chunks mean every byte is downloaded and `accepted_bytes` is the total |
| `PlannerGaps.SumIsCount` | crates/bolt-load/src/task/instance/concurrent_task/chunk_planner.rs:225-251 | The lengths of the downloaded parts add up to the number of downloaded bytes |
| `RangeMerging.MergeAdjacentRanges` | crates/bolt-load/src/task/instance/concurrent_task/chunk_planner.rs:581-599 | For any input the same bytes, sorted, with real gaps between; disjoint input keeps its total length |
| `RangeMerging.MergedIsExact` | crates/bolt-load/src/task/instance/concurrent_task/chunk_planner.rs:581-599 | The recursion the merging loop computes has those properties |
| `ChunkPlanning.ChunkPlanner.AllocateChunk` | crates/bolt-load/src/task/instance/concurrent_task/chunk_planner.rs:165-222 | In-place allocation, and exactly when it leaves the planner valid |
| `ChunkPlanning.ChunkPlanner.UpdateProgress` | crates/bolt-load/src/task/instance/concurrent_task/chunk_planner.rs:225-251 | In-place progress, clipped to the chunk |
| `ChunkPlanning.ChunkPlanner.SetRunning` | crates/bolt-load/src/task/instance/concurrent_task/chunk_planner.rs:254-270 | In-place start, and whether the debug assertion on the chunk's status holds |
| `ChunkPlanning.ChunkPlanner.SetFinished` | crates/bolt-load/src/task/instance/concurrent_task/chunk_planner.rs:273-285 | In-place completion |
| `ChunkPlanning.ChunkPlanner.SetFailed` | crates/bolt-load/src/task/instance/concurrent_task/chunk_planner.rs:288-315 | In-place failure; what was downloaded stays |
| `ChunkPlanning.ChunkPlanner.SplitChunk` | crates/bolt-load/src/task/instance/concurrent_task/chunk_planner.rs:318-363 | In-place split, and exactly when it leaves the planner valid |
| `ChunkPlanning.ChunkPlanner.ResizeRunnerState` | crates/bolt-load/src/task/instance/concurrent_task/chunk_planner.rs:493-521 | In-place shrink with its error cases |
| `ChunkPlanning.ChunkPlanner.GetAvailableRanges` | crates/bolt-load/src/task/instance/concurrent_task/chunk_planner.rs:366-379 | The cursor loop returns the exact gaps |
| `ChunkPlanning.ChunkPlanner.GetDownloadedRanges` | crates/bolt-load/src/task/instance/concurrent_task/chunk_planner.rs:382-397 | Exactly the downloaded bytes, merged, their lengths adding up to `accepted_bytes` |
| `ChunkPlanning.ChunkPlanner.FindChunkToSplit` | crates/bolt-load/src/task/instance/concurrent_task/chunk_planner.rs:434-480 | The first gap that fits, cut to size, else the largest gap, else the running chunk with the most left; and exactly when the suggested end overflows |
| `ChunkPlanning.ChunkPlanner.IsDone` | crates/bolt-load/src/task/instance/concurrent_task/chunk_planner.rs:524-531 | The completion check |
| `ChunkPlanning.PickGap` | crates/bolt-load/src/task/instance/concurrent_task/chunk_planner.rs:441-460 | The gap loop: first fit, else last largest |
| `ChunkPlanning.PickRunning` | crates/bolt-load/src/task/instance/concurrent_task/chunk_planner.rs:462-480 | The running chunk with the most left, the last of several |
| `ChunkPlanning.SplittableIff` | crates/bolt-load/src/task/instance/concurrent_task/chunk_planner.rs:462-480 | Only a chunk that its own mapped runner runs, with the minimum left of it, is suggested |
| `ChunkPlanning.SuggestionInsideIff` | crates/bolt-load/src/task/instance/concurrent_task/chunk_planner.rs:462-480 | The fallback suggestion starts behind what was downloaded, has the required size, and stays inside the chunk exactly when that size is left in it |
| `ChunkPlanning.SuggestionMayOverrun` | crates/bolt-load/src/task/instance/concurrent_task/chunk_planner.rs:462-480 | With the planner's own minimum: of any file of at least that size whose only runner just started, every larger size is suggested, past the end of the chunk and of the file |
| `ChunkPlanning.PlannerGuard.Drop` | crates/bolt-load/src/task/instance/concurrent_task/chunk_planner.rs:553-578 | An uncommitted guard restores the planner exactly |
| `IdGeneration.NextIdIsFree` | crates/bolt-load/src/task/instance/id.rs:43-63 | An id is returned exactly when one is free; it was free, and only it becomes allocated; the count stays the number of set bits |
| `IdGeneration.NextIdIsLeast` | crates/bolt-load/src/task/instance/id.rs:43-90 | It is the least free id that is returned, whatever was released before |
| `IdGeneration.ReleaseFrees` | crates/bolt-load/src/task/instance/id.rs:74-90 | Releasing frees exactly that id |
| `IdGeneration.Generator.Next` | crates/bolt-load/src/task/instance/id.rs:43-63 | The rotated search loop |
| `IdGeneration.Generator.Release` | crates/bolt-load/src/task/instance/id.rs:74-90 | Release in place |
| `IdGeneration.Generator.Reset` | crates/bolt-load/src/task/instance/id.rs:135-139 | Reset in place |
| `RunnerRuns.PushedIsAPrefix` | crates/bolt-load/src/runner/run_loop/stream.rs:122-193 | In every run the pushed frames are a prefix of the stream, each of 1 to 32 KiB, and `downloaded` is their total |
| `RunnerRuns.NothingIsLostWhileReading` | crates/bolt-load/src/runner/run_loop/stream.rs:122-170 | While reading, pushed plus buffered is everything the stream yielded |
| `RunnerRuns.FramesAreFull` | crates/bolt-load/src/runner/run_loop/stream.rs:139-170 | A frame staged while more of its item waits has exactly 32 KiB |
| `RunnerRuns.LimitHolds` | crates/bolt-load/src/runner/run_loop/stream.rs:60-64 | After a limit applies, the count never exceeds the larger of the limit and what was already pushed, staged or buffered |
| `RunnerRuns.ItemShrinks` | crates/bolt-load/src/runner/run_loop/stream.rs:139-178 | Re-framing one item terminates: every resumed push leaves strictly less of it |
| `RunnerRuns.LifecycleIsOrdered` | crates/bolt-load/src/runner/run_loop/lifecycle.rs:28-51 | `Started` at most once and before any data, then one final `Stopped`, which every runner that is done has sent while the manager listens |
| `RunnerRuns.PublishingNeverBlocks` | crates/bolt-load/src/runner/run_loop/lifecycle.rs:13-51 | The two-slot lifecycle channel always has room |
| `RunnerRuns.FinishedIsTrue` | crates/bolt-load/src/runner/run_loop/drain.rs:38-109 | `Stopped(Finished)` means the pushed bytes are the limit, or not empty without one, and the consumer took them or is gone |
| `RunnerRuns.ExceededIsTrue` | crates/bolt-load/src/runner/run_loop/drain.rs:38-109 | `ExceededTotalSize` means a refused limit or bytes beyond it, all taken |
| `RunnerRuns.StreamErrorIsDrained` | crates/bolt-load/src/runner/run_loop/drain.rs:38-109 | A `StreamError` is reported only once the consumer took everything pushed before, or is gone |
| `RunnerRuns.StoppedHoldsNothing` | crates/bolt-load/src/runner/run_loop.rs:244-264 | A runner that stops has let go of its connection attempt, and once it is done of its data channel |
| `RunnerCauses.WaitsIffItCounts` | crates/bolt-load/src/runner/run_loop/drain.rs:38-48 | In every run, a runner that stops drains first exactly for a success, an excess, a broken stream or a timeout, and reports anything else at once |
| `RunnerCauses.ReasonsHaveCauses` | crates/bolt-load/src/runner/run_loop.rs:201-287 | Every reason a runner reports has its cause in its run: a cancellation, an expired timer, this very stream error, a closed or released channel, a refused limit or too many bytes, an ended stream that is too short; and a broken stream is covered up by nothing but a cancellation, a closed channel or a timer |
| `RunnerCauses.LearnedHappened` | crates/bolt-load/src/runner/run_loop.rs:201-250 | What those causes refer to are actions of the run |
| `RunnerCauses.NextCaused` | crates/bolt-load/src/runner/run_loop.rs:201-287 | Every action keeps the account of causes |
| `RunnerCauses.PushTells` | crates/bolt-load/src/runner/run_loop.rs:270-287 | After a push, a broken stream wins over a failed signal, and that over an expired timer and the size check |
| `RunnerCauses.FirstFailureIsKept` | crates/bolt-load/src/runner/run_loop/emit.rs:67-82 | Of the signals that fail while a frame waits the first is remembered, and no signal is read after the sender's end |
| `RunnerRuns.RunKeepsInv` | crates/bolt-load/src/runner/run_loop.rs:153-159 | The runner invariant holds in every run with any consumers |
| `RunnerLaws.NextKeepsInv` | crates/bolt-load/src/runner/run_loop.rs:162-287 | Every action keeps the runner invariant |
| `RunnerLaws.BufferItemKeepsInv` | crates/bolt-load/src/runner/run_loop/stream.rs:139-170 | Buffering an item loses, repeats and reorders nothing, in each of its cases |
| `RunnerLaws.PushKeepsInv` | crates/bolt-load/src/runner/run_loop/emit.rs:84-101 | Pushing a staged buffer and what follows keep the invariant |
| `RunnerTurns.TurnIsActions` | crates/bolt-load/src/runner/run_loop.rs:162-250 | A prioritised poll and its handling are exactly a run of the runner's actions |
| `RunnerTurns.PollOrder` | crates/bolt-load/src/runner/run_loop.rs:162-194 | While connecting or reading: a set token gives the cancellation, else a pending signal is taken, else an expired timer, and only then the connection or the item; nothing is answered exactly if nothing is ready |
| `RunnerTurns.CancelWins` | crates/bolt-load/src/runner/run_loop.rs:162-250 | A set token ends a connecting, streaming or draining runner at its next turn as `Cancelled`, with nothing more taken or pushed |
| `RunnerTurns.LimitBeforeItem` | crates/bolt-load/src/runner/run_loop.rs:178-189 | A limit that waits is applied, or refused with the excess, before anything more is taken from the stream |
| `RunnerTurns.PushComesLast` | crates/bolt-load/src/runner/run_loop/emit.rs:42-101 | A frame is pushed only after every signal that was there, with the lowest of the limits in force, and not if the token is set by then |
| `RunnerTurns.EmitTurn` | crates/bolt-load/src/runner/run_loop/emit.rs:42-101 | The emission loop: cancel, then every signal, then the push |
| `RunnerLoop.RunnerLoop.Buffer` | crates/bolt-load/src/runner/run_loop/stream.rs:139-170 | Buffering in place |
| `RunnerLoop.RunnerLoop.Flush` | crates/bolt-load/src/runner/run_loop/stream.rs:181-188 | Flush in place |
| `RunnerLoop.RunnerLoop.Resume` | crates/bolt-load/src/runner/run_loop/stream.rs:173-178 | Resuming the rest of an item in place |
| `RunnerLoop.RunnerLoop.TakeItem` | crates/bolt-load/src/runner/run_loop/stream.rs:122-133 | A new item in place |
| `RunnerLoop.RunnerLoop.Unstage` | crates/bolt-load/src/runner/run_loop/stream.rs:190-193 | After an emission in place |
| `RunnerLoop.RunnerLoop.ResumeAfterEmit` | crates/bolt-load/src/runner/run_loop.rs:270-287 | What follows a push, in place |
| `RunnerLoop.RunnerLoop.Stop` | crates/bolt-load/src/runner/run_loop.rs:254-264 | Abandons the connection attempt, then drains or reports, which of them is pinned by `RunnerCauses.WaitsIffItCounts` |
| `RunnerLoop.RunnerLoop.PollEmit` | crates/bolt-load/src/runner/run_loop/emit.rs:42-101 | The emission loop in place |
| `RunnerTurns.DrainWaitsForFrames` | crates/bolt-load/src/runner/run_loop/drain.rs:52-109 | Draining waits, and times out, only while the consumer has frames to take; the result it was entered with is reported exactly if all were taken or nobody takes them |
| `RunnerLoop.RunnerLoop.PollPublish` | crates/bolt-load/src/runner/run_loop/lifecycle.rs:13-25 | The publication of one event |
| `RunnerLoop.RunnerLoop.PollStep` | crates/bolt-load/src/runner/run_loop.rs:162-194 | The prioritised poll in place, whose order `RunnerTurns.PollOrder` pins |
| `RunnerLoop.RunnerLoop.HandleStep` | crates/bolt-load/src/runner/run_loop.rs:201-250 | The step handler in place |
| `RunnerLoop.RunnerLoop.PollRun` | crates/bolt-load/src/runner/run_loop.rs:153-159 | The loop takes one turn after the other, each a run of actions, until the runner is done or a turn finds nothing ready; it answers ready exactly if the runner is done |
| `RunnerLoop.RunnerLoop.LimitTo` | crates/bolt-load/src/runner/control.rs:64-85 | Only a lower limit is applied |
| `RunnerLaws.SizeCheckIff` | crates/bolt-load/src/runner/run_loop/stream.rs:68-95 | The size check passes exactly the sizes a reported success promises, and tells too much from too little |
| `RunnerLaws.AllowanceIsExact` | crates/bolt-load/src/runner/run_loop/stream.rs:60-64 | More bytes fit below the limit exactly if the allowance has them |
| `SlotRuns.CellHasOneOwner` | crates/bolt-load-sync/src/atomic_waker.rs:41-105 | In every interleaving at most one party owns the waker cell, and the state is one of four |
| `SlotRuns.RegisterIsAlone` | crates/bolt-load-sync/src/atomic_waker.rs:41-84 | `register` finds no other `register`; its failed release finds exactly the state its assertion names |
| `SlotRuns.TakenWakersAreWokenOnce` | crates/bolt-load-sync/src/atomic_waker.rs:87-105 | No waker is woken twice, none that was not taken, and a taken one not yet woken is in exactly one pair of hands |
| `SlotRuns.NewsReachesTheParked` | crates/bolt-load-sync/src/slot.rs:71-129 | No lost wake-up: a parked receiver with a value or the close waiting was woken since its poll began, or a thread has a pending step that will wake it |
| `SlotRuns.PendingWakeProgresses` | crates/bolt-load-sync/src/atomic_waker.rs:87-105 | Every step of that thread wakes, or leaves strictly less to do for itself or for the cell's owner |
| `SlotRuns.ReadsAreASubsequence` | crates/bolt-load-sync/src/slot.rs:107-129 | What was read is a subsequence of what was sent, each send at most once, the last one always |
| `SlotRuns.EndedMeansDrained` | crates/bolt-load-sync/src/slot.rs:117-129 | `Ready(None)` only after the close, with the last value read and nothing left to be stored |
| `SlotRuns.PollsEnd` | crates/bolt-load-sync/src/slot.rs:107-129 | A poll is over exactly when it read a value or told the end, and parks only having found neither a value nor the close |
| `SlotRuns.ReadyPollRegistersNothing` | crates/bolt-load-sync/src/slot.rs:107-115 | A value that is there when a poll begins is read at once, without registering |
| `SlotRuns.MetWakeIsKept` | crates/bolt-load-sync/src/atomic_waker.rs:41-84 | A wake that comes while a waker is being stored is kept: `register` wakes its own task before it is over |
| `SlotRuns.StepKeepsInv` | crates/bolt-load-sync/src/slot.rs:71-129 | Every atomic step keeps all of it |
| `SlotMailbox.RunIsMailboxRun` | crates/bolt-load-sync/src/slot.rs:71-129 | Every run of the slot is a run of the mailbox of the engine, with the same limits sent and got in the same order |
| `SlotMailbox.RefusedAlike` | crates/bolt-load-sync/src/slot.rs:71-79 | A send is refused exactly when the mailbox refuses it |
| `SlotLaws.ExclusiveKept` | crates/bolt-load-sync/src/atomic_waker.rs:41-105 | Every step keeps exclusive access to the cell |
| `SlotLaws.TokensKept` | crates/bolt-load-sync/src/atomic_waker.rs:41-105 | Every step keeps the account of wakers |
| `SlotLaws.WakesKept` | crates/bolt-load-sync/src/slot.rs:117-129 | Every step keeps the wake-up invariant |
| `WatchRuns.ReadsNeverGoBack` | crates/bolt-load-sync/src/watch.rs:178-182 | A receiver's reads never go back to an older publication |
| `WatchRuns.MarksAreNeverAhead` | crates/bolt-load-sync/src/watch.rs:117-126 | A locked read finds the newest publication, and no version was marked as seen ahead of it |
| `WatchRuns.ClosedComesLast` | crates/bolt-load-sync/src/watch.rs:373-386 | With fewer than 2^63 publications, `Closed` means the last one was marked as seen, and read by whoever follows the values |
| `WatchRuns.WaitForKeepsItsWord` | crates/bolt-load-sync/src/watch.rs:237-252 | For any test: whatever a `wait_for` returned, it read and the test accepts; while it waits, the test rejects what it read last; and if it ends as `Closed`, the test rejects the last publication of all |
| `WatchRuns.WaitForEndsBy` | crates/bolt-load-sync/src/watch.rs:244-252 | A `wait_for` goes on until its test accepts, it is dropped, or the channel ended |
| `WatchRuns.CheckDecides` | crates/bolt-load-sync/src/watch.rs:373-386 | With fewer than 2^63 publications a check succeeds exactly if there is one not marked, marking the newest, ends exactly if there is none and the sender is gone, and waits otherwise |
| `WatchRuns.ReadsAndMarks` | crates/bolt-load-sync/src/watch.rs:172-192 | A borrow marks nothing; every other read marks exactly what it reads |
| `WatchRuns.MarkAndCancel` | crates/bolt-load-sync/src/watch.rs:189-204 | Marking without reading marks the newest version, and a dropped wait leaves every mark as it was |
| `WatchRuns.PublishesWhatWasSent` | crates/bolt-load-sync/src/watch.rs:117-126 | A value that is sent is published once and unchanged, and nothing else is |
| `WatchRuns.NewReceiversHaveSeen` | crates/bolt-load-sync/src/watch.rs:133-139 | A subscriber has seen the current version, a clone what its original has, and nobody else is touched |
| `WatchRuns.StreamsYieldNewer` | crates/bolt-load-sync/src/watch.rs:299-360 | A stream yields ever newer publications, at least one, and ends only after it yielded the last one |
| `WatchRuns.CallsBegin` | crates/bolt-load-sync/src/watch.rs:172-252 | Which call begins with a read and which with a check |
| `WatchRuns.CallsGoOn` | crates/bolt-load-sync/src/watch.rs:199-252 | A call keeps its purpose until it is over, and hands what it read to its test, its stream or its caller |
| `WatchRuns.NewsReachesTheParked` | crates/bolt-load-sync/src/watch.rs:204-217 | A parked receiver with news was notified, or a publication or the close is about to notify it |
| `WatchRuns.ToldApartIff` | crates/bolt-load-sync/src/watch.rs:42-46 | Two versions are told apart exactly when the publications between them are no multiple of 2^63 |
| `WatchRuns.StepKeepsInv` | crates/bolt-load-sync/src/watch.rs:117-217 | Every step of senders and receivers keeps the invariant, with the verdicts of every `wait_for` and what it returned |
| `WatchLaws.ValueKept` | crates/bolt-load-sync/src/watch.rs:117-126 | Version and value agree except between the bump and the replacement, both under the lock |
| `WatchLaws.ReceiversKept` | crates/bolt-load-sync/src/watch.rs:320-386 | Every step keeps what is known of every receiver, streams included |
| `DispositionExact.RoundTripIff` | crates/bolt-load-http/src/header/content_disposition.rs:277-376 | A header survives being printed and parsed if and only if it is well-formed, for all headers |
| `DispositionLaws.WellFormedRoundTrip` | crates/bolt-load-http/src/header/content_disposition.rs:454-534 | Any token names, any quoted values and any extended octets come back |
| `DispositionExact.ParsedHeaderOk` | crates/bolt-load-http/src/header/content_disposition.rs:277-376 | Whatever the parser returns is well-formed up to its field names |
| `DispositionExact.ReprintIsStable` | crates/bolt-load-http/src/header/content_disposition.rs:277-376 | Printing and parsing again changes nothing that was parsed, unless a field name needs quotes |
| `DispositionExact.QuotedNameIsLost` | crates/bolt-load-http/src/header/content_disposition.rs:505-507 | A field name that is read from quotes and lost when printed |
| `DispositionExact.ReadsQuotedName` | crates/bolt-load-http/src/header/content_disposition.rs:319-348 | Any field name is read from its quoted form |
| `DispositionExact.NameIsPlain` | crates/bolt-load-http/src/header/content_disposition.rs:505-507 | A field name that comes back from its unquoted form needs no quotes |
| `DispositionLaws.UnquoteEscaped` | crates/bolt-load-http/src/header/content_disposition.rs:319-348 | Unquoting undoes escaping and ends at the closing quote |
| `DispositionLaws.ParamParses` | crates/bolt-load-http/src/header/content_disposition.rs:296-373 | Each well-formed parameter is parsed off whatever follows it |
| `DispositionGrammar.AcceptedIff` | crates/bolt-load-http/src/header/content_disposition.rs:277-376 | A header is parsed to `h` if and only if its text is spelled so: a type, and parameters with any whitespace, any escapes and any junk behind a closing quote |
| `DispositionGrammar.RefusedIff` | crates/bolt-load-http/src/header/content_disposition.rs:277-376 | A header is refused exactly for its missing type, or with the error of the first parameter that cannot be read |
| `DispositionGrammar.ParamReadsIff` | crates/bolt-load-http/src/header/content_disposition.rs:296-373 | A parameter is read exactly as it is spelled: name, equals sign, and an extended value, a quoted string or a token |
| `DispositionGrammar.ParamFailsIff` | crates/bolt-load-http/src/header/content_disposition.rs:296-313 | A parameter fails with the error of its extended value exactly if its name is starred and that value cannot be parsed |
| `DispositionGrammar.OtherwiseInvalid` | crates/bolt-load-http/src/header/content_disposition.rs:296-357 | Every other failure of a parameter is an invalid parameter |
| `DispositionGrammar.ValueReadsIff` | crates/bolt-load-http/src/header/content_disposition.rs:317-362 | A value is a quoted string up to its closing quote, or a token that is not empty |
| `DispositionGrammar.UnquoteIff` | crates/bolt-load-http/src/header/content_disposition.rs:319-343 | A quoted string is read as `v` exactly if some pieces, bare or after a backslash, spell `v` up to the first closing quote |
| `DispositionGrammar.EscapeSpells` | crates/bolt-load-http/src/header/content_disposition.rs:454-534 | The printer puts a backslash before quotes, backslashes and control characters other than U+0009 to U+000F, and before nothing else |
| `ContentDisposition.ParamConsumes` | crates/bolt-load-http/src/header/content_disposition.rs:296-373 | Every turn of the parse loop consumes input |
| `ContentDisposition.ReadHeader` | crates/bolt-load-http/src/header/content_disposition.rs:277-376 | The parse loop |
| `ContentDisposition.ReadQuoted` | crates/bolt-load-http/src/header/content_disposition.rs:319-343 | The loop over a quoted string |
| `Text.EqIgnoreCaseIff` | crates/bolt-load-http/src/header/content_disposition.rs:59-71 | Names are compared equal exactly if they differ at most in the case of the 26 letters |
| `ExtendedValue.RoundTripIff` | crates/bolt-load-http/src/header/extended.rs:87-151 | An extended value comes back exactly when charset and language hold no quote and the language is a tag |
| `ExtendedValue.ParsesIffParts` | crates/bolt-load-http/src/header/extended.rs:87-140 | A text is an extended value exactly if it has three parts between quotes, the second empty or a tag; the third is decoded |
| `ExtendedValue.ParseErrors` | crates/bolt-load-http/src/header/extended.rs:87-140 | Without a quote the language is missing, with only one the value, unless what stands there is no tag |
| `ExtendedValue.AnySpellingDecodes` | crates/bolt-load-http/src/header/extended.rs:124-133 | Whichever octets are percent-encoded, with digits in either case: what was spelled is what is decoded |
| `ExtendedValue.NoEscapeStays` | crates/bolt-load-http/src/header/extended.rs:124-133 | A percent sign that two hex digits do not follow stays as it is |
| `ExtendedValue.Utf8Spells` | crates/bolt-load-http/src/header/extended.rs:124-133 | The bytes that are decoded spell each character by its code point, in the fewest octets that hold it |
| `ExtendedValue.LiteralIff` | crates/bolt-load-http/src/header/extended.rs:8-28 | Not encoded are exactly the attribute characters of RFC 5987 but the dash, and the equals and at signs |
| `ExtendedValue.PercentRoundTrip` | crates/bolt-load-http/src/header/extended.rs:8-28 | Percent-decoding undoes encoding for all octets |
| `ExtendedValue.EncodedIsPlain` | crates/bolt-load-http/src/header/extended.rs:8-28 | The encoded form holds no quote, separator or whitespace |
| `ContentRange.ParsesIffSpelled` | crates/bolt-load-core/src/adapter/content_range.rs:41-83 | The parser accepts exactly the valid ranges that a grammar of unit, whitespace and digits spells |
| `ContentRange.RoundTripIffValid` | crates/bolt-load-core/src/adapter/content_range.rs:13-83 | A printed range comes back if and only if first <= last < complete and all fit 64 bits |
| `ContentRange.NeverBoth` | crates/bolt-load-core/src/adapter/content_range.rs:41-69 | No text is read both as an unsatisfied and as a satisfied range |
| `ContentRange.UnsatisfiedIsRead` | crates/bolt-load-core/src/adapter/content_range.rs:63-69 | The length of an unsatisfied range is read back from any spelling of it |
| `ContentRange.UnsatisfiedIff` | crates/bolt-load-core/src/adapter/content_range.rs:63-83 | An unsatisfied range gives a length exactly if the grammar spells it so |
| `RangeResponse.BodyIsExact` | crates/bolt-load-http/src/range.rs:152-198 | A limited body forwards a prefix of its stream, never more than the count, and passes exactly when it has that length, for any two 64-bit bounds |
| `RangeResponse.OutputsExact` | crates/bolt-load-http/src/range.rs:167-198 | Exactly what it yields: all, all and too short, or what precedes the crossing chunk and too long |
| `RangeResponse.PassesIff` | crates/bolt-load-http/src/range.rs:98-131 | A response passes with `got` if and only if its header spells `got`, which is valid, starts at the request, ends within it and has the expected total where both are known, and its body is neither multipart nor coded |
| `RangeResponse.RefusedExactly` | crates/bolt-load-http/src/range.rs:98-131 | Only a response that would pass is refused for its coding; any other refusal is a mismatch that tells the header's range, if it has one |
| `RangeResponse.PassedFits` | crates/bolt-load-http/src/range.rs:98-158 | The count of a range that passed is exact, at least one and at most what was requested |
| `RangeResponse.CountsWithinIff` | crates/bolt-load-http/src/range.rs:152-158 | For any two 64-bit bounds, counting overflows exactly if they are reversed or span all 2^64 bytes |
| `RangeResponse.ParsedCountsWithinIff` | crates/bolt-load-http/src/range.rs:152-158 | Of the ranges the parser returns, exactly `0-18446744073709551615` overflows the count |
| `RangeResponse.RangeBody.PollNext` | crates/bolt-load-http/src/range.rs:170-198 | The poll in place |

## Left out

- HTTP clients, servers and test adapters: network code over libraries that are not part of this model.
- File writers, `open_file`, finalize, rename and discard: the writer is the list of what was handed to it.
- Clocks: idle, connect and drain timers, the deadline and the strategy tick are events that may happen at any time.
- Runtimes, the aggregators' stream groups, ring buffers and `event_listener`: bounded queues and listener flags.
- Weak memory orderings: see the assumptions.
- Meters, outcome samples, `AttemptFailure.retryable` and the failure policy: they decide whether the loop goes on, not
  what is written; a run may stop anywhere.
- The strategies: spawns and shrinks of any runner and range at any time, so every strategy is covered. `Strategies`
  adds which tasks and splits they may ask for, without the speeds and timers that decide when.
- The single-connection fallback, task options, status publishing, progress bars and telemetry: wiring.
- `validate_range_response` other than 206, content-coding tables, `is_multipart` and `Retry-After`: table lookups.
  `CheckPartial` is given whether the body is multipart or coded.
- `Receiver::try_recv` and `Sender::unread` called on their own: in the slot only `poll_recv` reads.
- `changed_blocking` and `wait_for_blocking`: the same protocol with a blocking wait.
- The public control channel of a runner: the manager uses the mailbox; `Runner` allows any signals, the engine only
  those of the mailbox.
- `try_arrange_chunk_by_length`, the getters and `#[cfg(test)]` helpers: they only read.
- `ContentDisposition` values that are not UTF-8: the parser rejects them before it looks at them.
- Recovery.FinishPossibleIff: the run it gives may lose runners and try again as often as it has to; whether the failure
  policy bears that is not part of this model.
- Engine.Next: after `release_runner` the runner's remaining steps are not followed, because nothing it does is seen
  by the manager any more.
- Manager.OnLifecycle: `Finished` before `Started` is a debug assertion in the code, which a release build turns into a
  connect failure; the model stops there, and no run gets there.
- Slot.Slot: a waker is known by its task; `will_wake` is equality of tasks.
- Watch.Watch: a parked receiver may check again without being notified, which only streams do.

# Staged task runner and multi-destination log stream

This project models two parts of the hoth framework in Dafny.

**The task runner** (`packages/runner/src/index.ts`). A `Runner` keeps a queue of
*stages*. A stage is the group of tasks one `add` call appends. `run` drives the
stages one after another. Inside a stage, every task is started, and the tasks then
settle in whatever order the environment decides. The first failure, or a success
that finds the whole-run time budget exceeded, aborts the stage's other tasks and
becomes the stage error. The `failStrategy` then decides what happens:

- under `"anyOne"` any stage error rejects the run;
- under `"everyOne"` only the whole-run timeout rejects it, or, once every stage has
  run, the fact that every task failed.

**The log stream** (`packages/logger/src/stream.ts`). It keeps a list of log
destinations, newest first, each with an id from a counter. It routes a formatted
record to the first destination whose app and level accept it. If none accepts it,
the record goes to stderr for a level of 40 and above, and to stdout below that.

Layout:

- `wrappers.dfy`: `Option`.
- `numerals.dfy`: decimal rendering of numbers. Task ids are written as
  `stage + '_' + index`, and messages include `timeout + 'ms'`.
- `runner_spec.dfy` (module `RunnerSpec`): the runner described on values.
  - Task records and stages.
  - The settlement of one task's promise, its continuation (`Finish`), the
    abort sweep and one event `Step`.
  - A stage as a `Fold` of events.
  - `DriveStage`, `RunNext`, `Run`, `SetEnd`, `Stats`, `PreviousResults`.
  - The lemmas that state what the runner promises.
- `runner.dfy` (module `TaskRunner`): the class `Runner`.
  - It has the source's mutable fields: `queue`, `state`, `runningIndex`, `cost`.
  - Its options are fixed fields.
  - Every method changes those fields in place, with loops where the source
    loops, and is proved to reach the state that the `RunnerSpec` function for
    it describes. Every lemma in `RunnerSpec` is therefore a statement about
    the class.
- `stream.dfy` (module `LoggerStream`): the class `Multistream`, with its
  `counter`, `streams` and `minLevel` fields, the recursive `add`, the `write`
  loop, and the routing lemmas.

### How time and concurrency are represented

The source works with promises, timers and `Date.now()`. The model replaces these
with an explicit schedule:

- A stage is driven from a `StageSchedule`: the instant its tasks start, and a
  sequence of `Event`s. There are two kinds of event, because in JavaScript a
  promise settles one step before the `await` that waits on it resumes:
  - `Settles(task, outcome)`: the task's promise is resolved with a value,
    rejected by the run function, or rejected by the per-task timer;
  - `Resumes(task, now)`: the rest of `runTask` runs at instant `now`, followed by
    the `onFinish` callback of `runParalle`.
- Every task is started before any event is handled. This matches JavaScript,
  which runs the synchronous part of each `runTask` call before any continuation.
- A promise that has settled ignores later settlements, as `resolve` and `reject`
  of a settled promise do. A continuation runs only once its promise has settled,
  and only once.
- An abort sweep sets the abort flag of every task still running or in init. The
  abort listener rejects a running task's promise with "Aborted" only while that
  promise is still pending. A task whose promise was already fulfilled when the
  sweep came still ends `end` with its value (`RunnerSpec.StageEndsByPromise`).
  A task aborted before it started is rejected with "Aborted" at once.
- `Run` requires a schedule in which every task of every stage settles and then
  resumes (`ScheduleFits`, `EventsFit`). The per-task timer guarantees this in the
  source.

### Behaviour of the code worth knowing (the model follows the code)

- `autoNext` is `option.autoNext || true`, which is always truthy. A run therefore
  always continues to the next stage, and `autoNext: false` has no effect
  (`RunnerSpec.AutoNextOf`).
- Options are read with `||`, so a timeout or start time of 0, or an empty
  `failStrategy`, falls back to the default (`RunnerSpec.NumberOr`,
  `RunnerSpec.StringOr`).
- `failStrategy` is any string:
  - `runNext` tests `"anyOne"`;
  - `setEnd` tests `"everyOne"`;
  - any other value swallows ordinary stage errors and never applies the
    "every task failed" rule.
- With an empty queue, `"everyOne"` rejects with "Every task is failed", because
  "every task failed" holds of no tasks (`RunnerSpec.EmptyQueueRun`).
- `minLevel` in the log stream is set to the level of the destination just added.
  It is not the minimum level of all destinations.
- A task that settles after a stage error does not always fail with "Aborted": a
  task whose promise was fulfilled before the sweep still ends `end`
  (index.ts:193-195, 207).
- `onFinish` tests the task's `error` field, not its state. A running task has no
  error yet, so the model's test of the state after the continuation agrees with it.
- In `write`, a destination that matches but has no stream raises a TypeError: the
  metadata check reads a property of the absent stream. The search does not
  move on to the next destination.

## Model

| member | source | states |
|---|---|---|
| Numerals.NatToString | packages/runner/src/index.ts:63 | the decimal form used in task ids is a non-empty digit string without a leading zero (except for 0) |
| Numerals.IntToString | packages/runner/src/index.ts:190 | the rendering of a number in a timeout message: digits that parse back to the number when it is non-negative, otherwise a minus followed by digits that parse back to its magnitude |
| Numerals.ParseNatToString | packages/runner/src/index.ts:63 | rendering a stage or task number can be read back: parsing undoes it |
| Numerals.NatToStringInjective | packages/runner/src/index.ts:63 | distinct numbers render differently |
| RunnerSpec.NumberOr | packages/runner/src/index.ts:48-49 | `option.x \|\| d` for numbers: a missing option or 0 gives the default; any other value is kept |
| RunnerSpec.StringOr | packages/runner/src/index.ts:51 | `option.failStrategy \|\| 'anyOne'`: a missing or empty string gives the default; any other is kept |
| RunnerSpec.AutoNextOf | packages/runner/src/index.ts:52 | `autoNext` is true whatever the caller passes |
| RunnerSpec.Configure | packages/runner/src/index.ts:45-54 | the constructor's defaults: 3000 ms run timeout, 1000 ms task timeout, "anyOne", the current time as start, autoNext always true |
| RunnerSpec.Params | packages/runner/src/index.ts:56-58 | a lone descriptor is wrapped as a one-element array; an array is taken as is |
| RunnerSpec.TaskIdInjective | packages/runner/src/index.ts:63 | the id "{stage}_{index}" determines both numbers: equal ids mean the same stage and position |
| RunnerSpec.EffectiveTimeout | packages/runner/src/index.ts:65-84 | a bare run function gets the runner's `everyTimeout`; a descriptor its own when set and non-zero, else the runner's |
| RunnerSpec.NewTask | packages/runner/src/index.ts:62-84 | a new task is fresh (init, cost -1, not aborted, no promise, error or result) with id "{stage}_{index}" |
| RunnerSpec.NewStage | packages/runner/src/index.ts:61-85 | `add` builds one task per descriptor |
| RunnerSpec.AddKeepsQueueOk | packages/runner/src/index.ts:55-90 | appending a stage keeps the queue invariant; every new task has id "{n+1}_{j+1}", state init, cost -1, no error, no result and its own or the default timeout |
| RunnerSpec.IdsUnique | packages/runner/src/index.ts:63 | no two tasks of the queue share an id |
| RunnerSpec.StartTask | packages/runner/src/index.ts:169-186 | a task in init becomes running with its promise pending, or already rejected with "Aborted" when its signal was aborted; a task in any other state is left alone |
| RunnerSpec.StartAll | packages/runner/src/index.ts:247-269 | starting a stage starts each of its tasks as `StartTask` does |
| RunnerSpec.TaskIdParts | packages/runner/src/index.ts:63 | the id `TaskId` builds is the stage number, '_' and the position number, and both numbers read back from it |
| RunnerSpec.RejectionMessage | packages/runner/src/index.ts:210-212 | an `Error` rejection keeps its message; any other value is turned into its `String(e)` text |
| RunnerSpec.TimeoutCauseParts | packages/runner/src/index.ts:190 | `TimeoutCause` is "Timeout ", the task's configured timeout in decimal, and "ms" |
| RunnerSpec.TaskMessageParts | packages/runner/src/index.ts:217 | `TaskErrorMessage` is "Task {id}: " followed by the cause unchanged |
| RunnerSpec.RunnerTimeoutParts | packages/runner/src/index.ts:257 | `RunnerTimeoutMessage` is "Runner Timeout: ", the configured run timeout in decimal, and "ms" |
| RunnerSpec.MessagesDistinct | packages/runner/src/index.ts:292-300 | only the whole-run timeout message starts with "Runner Timeout"; neither it nor a task error equals "Every task is failed" |
| RunnerSpec.SettlementOf | packages/runner/src/index.ts:189-205 | a promise is fulfilled exactly by the run function's value; it is rejected with the rejection's message, or with "Timeout {ms}ms" for the task's own timeout |
| RunnerSpec.Finish | packages/runner/src/index.ts:182-225 | the continuation ends the task in end with the value exactly when its promise was fulfilled, and otherwise in fail with "Task {id}: {message}"; its cost is its elapsed time; the abort flag plays no part |
| RunnerSpec.FinishConsistent | packages/runner/src/index.ts:207-215 | after the continuation, a task has a result exactly when it ended, an error exactly when it failed |
| RunnerSpec.Abort | packages/runner/src/index.ts:193-195 | an abort sets the flag, and rejects the promise with "Aborted" exactly when the task is running and its promise is pending; nothing else changes |
| RunnerSpec.Sweep | packages/runner/src/index.ts:230-242 | `stopParalle` does nothing when the finishing task is itself aborted; otherwise every task running or in init becomes aborted, every pending promise of a running task is rejected with "Aborted", settled tasks and settled promises are kept, and no other field changes |
| RunnerSpec.SweepFollows | packages/runner/src/index.ts:236-241 | a sweep only moves tasks forward: settled tasks untouched, aborts never undone, settled promises kept |
| RunnerSpec.FirstError | packages/runner/src/index.ts:265 | `!error && (error = e)`: the first error is recorded and never replaced |
| RunnerSpec.Step | packages/runner/src/index.ts:182-267 | one event keeps the stage's length and start, changes nothing for a task that is not running, and never changes a settled task |
| RunnerSpec.StepSettles | packages/runner/src/index.ts:182-206 | a settlement changes only its own task and only while the promise is pending, which then holds the outcome's value or message |
| RunnerSpec.StepPolicy | packages/runner/src/index.ts:249-267 | a continuation finishes its task; a failure records the task's error as the first error and sweeps; a success sets the cost to the time since the runner's start and, over the budget, records "Runner Timeout: {timeout}ms" and sweeps; a sweep aborts every other running or init task unless the finisher was aborted |
| RunnerSpec.StepFacts | packages/runner/src/index.ts:182-267 | one event keeps the stage invariant (including: once an error is recorded, every running or init task is aborted) and an already recorded stage error |
| RunnerSpec.ErrorFreezesOutcomes | packages/runner/src/index.ts:193-195 | once a stage error is recorded, no promise settles any more: every running task's promise has already settled |
| RunnerSpec.StepProgress | packages/runner/src/index.ts:182-228 | every event moves each task forward; a settlement leaves its started task with a settled promise; a continuation after that finishes it |
| RunnerSpec.Fold | packages/runner/src/index.ts:244-270 | applying the events keeps the number of tasks and the stage start |
| RunnerSpec.FoldFacts | packages/runner/src/index.ts:244-270 | over any sequence of events the invariant holds and the first error stays |
| RunnerSpec.FoldFinishes | packages/runner/src/index.ts:244-270 | a started task whose promise settled at some event has a settled promise or is finished, and one whose continuation ran after that is finished |
| RunnerSpec.RunStage | packages/runner/src/index.ts:244-275 | `runParalle` keeps the number of tasks |
| RunnerSpec.RunStageFacts | packages/runner/src/index.ts:244-275 | after a stage every task is end or fail with its id kept; no error means every task ended unaborted; an error is the whole-run timeout or a failed task's own error |
| RunnerSpec.StageErrorShape | packages/runner/src/index.ts:272-274 | a stage error starts with "Runner Timeout" exactly when it is the whole-run timeout, and is never "Every task is failed" |
| RunnerSpec.StepFinishesByPromise | packages/runner/src/index.ts:207-217 | every event keeps each finished task's state tied to its promise |
| RunnerSpec.FoldFinishesByPromise | packages/runner/src/index.ts:207-217 | over any sequence of events each finished task's state stays tied to its promise |
| RunnerSpec.StageEndsByPromise | packages/runner/src/index.ts:182-217 | after a stage, each task ended in end with the value exactly when its promise was fulfilled, aborted or not, and otherwise failed with "Task {id}: {message}" |
| RunnerSpec.AllFailed | packages/runner/src/index.ts:144-146 | the all-failed test of `setEnd` holds of an empty queue |
| RunnerSpec.HasNext | packages/runner/src/index.ts:154-161 | `hasNext` is false once the run is no longer running |
| RunnerSpec.SetEnd | packages/runner/src/index.ts:141-152 | `setEnd` changes only the state; it resolves exactly when the state becomes end and throws exactly when it becomes fail |
| RunnerSpec.DriveStage | packages/runner/src/index.ts:285-288 | driving stage k changes only stage k, and not the state or running index |
| RunnerSpec.Fatal | packages/runner/src/index.ts:290-300 | under "anyOne" every stage error ends the run; the whole-run timeout ends it under any strategy |
| RunnerSpec.RunNext | packages/runner/src/index.ts:277-306 | `runNext` keeps the number of stages and always moves the running index forward |
| RunnerSpec.Run | packages/runner/src/index.ts:92-96 | `run` keeps the number of stages and moves the running index forward |
| RunnerSpec.DriveStageKeepsQueueOk | packages/runner/src/index.ts:285-301 | after a stage the queue invariant holds with that stage settled; a stage without error ended entirely; a stage error is a task error or the whole-run timeout |
| RunnerSpec.RunNextFacts | packages/runner/src/index.ts:277-306 | a run resolves exactly in state end and rejects exactly in state fail; without a fatal error it drives every stage; a fatal error leaves later stages untouched; driven stages are never revisited |
| RunnerSpec.AnyOneRun | packages/runner/src/index.ts:290-295 | under "anyOne" a rejection is the first stage error (the whole-run timeout or a failed task's error), in state fail; every earlier stage ended entirely and later stages never started; a resolved run saw every task end |
| RunnerSpec.EveryOneRun | packages/runner/src/index.ts:297-300 | under "everyOne" the run rejects only with the whole-run timeout or with "Every task is failed" when every task failed; after the last stage it resolves exactly when some task did not fail |
| RunnerSpec.RunnerTimeoutIsFatal | packages/runner/src/index.ts:297-300 | whatever the strategy, a stage that reports the whole-run timeout rejects the run with it, in state fail, at that stage |
| RunnerSpec.EmptyQueueRun | packages/runner/src/index.ts:277-283 | with nothing queued, "anyOne" ends and "everyOne" fails with "Every task is failed" |
| RunnerSpec.PreviousResults | packages/runner/src/index.ts:177-181 | the first stage receives an empty array; later stages receive one entry per task of the previous stage |
| RunnerSpec.PreviousResultsDefined | packages/runner/src/index.ts:178-181 | a previous result is present exactly for a task that ended, and is its result |
| RunnerSpec.Stats | packages/runner/src/index.ts:102-121 | one list per stage, one entry per task |
| RunnerSpec.StatOf | packages/runner/src/index.ts:110-115 | a stat carries the task's own error message, present exactly when a consistent task failed |
| RunnerSpec.StatsFollowAddOrder | packages/runner/src/index.ts:102-121 | entry [k][j] has id "{k+1}_{j+1}", the task's cost and state, and the task's own error message, which is present exactly when the task failed |
| TaskRunner.Runner.constructor | packages/runner/src/index.ts:45-54 | the fields take the defaults of `Configure`; the queue is empty, the state init and the running index -1 |
| TaskRunner.Runner.Add | packages/runner/src/index.ts:55-90 | appends exactly the stage `NewStage` describes, keeps the invariant, and changes nothing else |
| TaskRunner.Runner.GetStats | packages/runner/src/index.ts:102-121 | returns `Stats(queue)` and changes nothing |
| TaskRunner.Runner.SetFail | packages/runner/src/index.ts:135-138 | sets state fail and throws the given error; nothing else changes |
| TaskRunner.Runner.SetEnd | packages/runner/src/index.ts:141-152 | reaches the state and completion of `RunnerSpec.SetEnd` |
| TaskRunner.Runner.RunTaskStart | packages/runner/src/index.ts:163-186 | updates the one task as `StartTask` does |
| TaskRunner.Runner.StopParalle | packages/runner/src/index.ts:230-242 | replaces the stage by `Sweep` of it |
| TaskRunner.Runner.SettlePromise | packages/runner/src/index.ts:182-206 | `resolve`/`reject`: the pending promise of a running task takes `SettlementOf` the outcome; anything else is left alone |
| TaskRunner.Runner.ResumeTask | packages/runner/src/index.ts:207-267 | the continuation of `runTask` with its `onFinish` callback yields the stage, cost and error of `Step` |
| TaskRunner.Runner.HandleEvent | packages/runner/src/index.ts:182-267 | one event changes the stage, cost and error as `Step` says |
| TaskRunner.Runner.RunParalle | packages/runner/src/index.ts:244-275 | reaches the queue, cost and stage error of `DriveStage` and passes the tasks `PreviousResults` |
| TaskRunner.Runner.Run | packages/runner/src/index.ts:277-306 | `run` (with `runNext`'s recursion as a loop) reaches the state and completion of `RunnerSpec.Run` and keeps the queue invariant |
| LoggerStream.Normalize | packages/logger/src/stream.ts:73-92 | a writable becomes a destination with no app and level 30; a numeric `levelVal` wins; a level name is looked up, 30 when unknown; a number is kept; anything else becomes 30; app and stream are kept |
| LoggerStream.Built | packages/logger/src/stream.ts:119-129 | the factory's list has one destination per input |
| LoggerStream.BuiltOrder | packages/logger/src/stream.ts:119-129 | the factory's list holds the inputs in reverse order, input m with id m, so ids are distinct and decrease from the front |
| LoggerStream.Accepts | packages/logger/src/stream.ts:28 | a destination takes a record only for the record's own app, and never when its level is above the record's |
| LoggerStream.Select | packages/logger/src/stream.ts:27-50 | the position chosen is the first destination with the record's app and a level at or below its level; none is chosen only when no destination has both |
| LoggerStream.Route | packages/logger/src/stream.ts:27-62 | whatever `write` writes is the formatted record's `result` |
| LoggerStream.RouteFacts | packages/logger/src/stream.ts:27-62 | `write` throws exactly when the first matching destination has no stream; it writes to stderr or stdout exactly when nothing matches, by level 40; otherwise it writes `info.result` to the first match's stream |
| LoggerStream.LatestAddedWins | packages/logger/src/stream.ts:27-50 | for the factory's list, the destination chosen is the latest-added one among those that match |
| LoggerStream.Multistream.constructor | packages/logger/src/stream.ts:119-129 | a missing array counts as empty; the list is the `Built` list of the inputs, the counter their number, and `minLevel` 0 or the newest destination's level |
| LoggerStream.Multistream.Add | packages/logger/src/stream.ts:73-100 | puts the normalised copy with the next id at the front, increments the counter, sets `minLevel` to its level, and keeps ids descending |
| LoggerStream.Multistream.Write | packages/logger/src/stream.ts:21-63 | does what `Route` describes and changes nothing |

## Left out

- Promises, timers, `Date.now()` and the interleaving of concurrent tasks are replaced by an explicit schedule of settle and resume events. The model covers every order of such events in which each task's promise settles before its continuation resumes (`EventsFit`), but not real time.
- A task's cost is measured in the model from the stage's start instant, the
  one instant at which every task of the stage is started. The source reads
  `Date.now()` separately for each task (index.ts:166, 225), so tasks started
  a millisecond apart are not distinguished.
- The instants carried by `Resumes` events are not required to increase from
  one event to the next. The model therefore also admits schedules that real
  time cannot produce.
- The user's run functions, the shared `context` object and the arguments they receive (other than the previous-results array) are not modelled. A task's behaviour is its outcome in the schedule.
- `AbortSignal` as an `EventEmitter` is reduced to the `aborted` flag. Its `'abort'` listener is represented by the "Aborted" rejection of a still-pending promise.
- Errors are strings. The source prefixes `e.message` of the `Error` object in place (index.ts:214-217). When two tasks reject with the same `Error` object, the second prefix also changes the first task's message and the stage error. That sharing is not modelled.
- A `null` or `undefined` task descriptor makes `add` throw a TypeError when it reads `obj.everyTimeout` (index.ts:78). A `null` or `undefined` destination makes the log stream's `add` throw when it reads `dest.write` (stream.ts:76). Neither input exists in the model.
- `getTasks` returns the queue itself. With tasks as records there is no reference to return, so it is not modelled.
- `destroy` only removes event listeners and is left out.
- The listener removal that `getStats` performs as a side effect is left out.
- `parallelNumber` is stored but never used by the source, so it is left out.
- Concurrent calls to `run` on the same runner, and `add` during a run, are not modelled. Each method runs to completion.
- A rejection value that is not an `Error` is modelled by its `String(...)` text only.
- Numbers are integers. Fractional timeouts and times are not modelled.
- In the log stream, `clone`, `flushSync`, the `pino.metadata` fields copied onto a chosen stream, and the development-mode `console.log` are left out.
- `format` is not part of this model: `write` receives the formatted record. `defaultLevels` is not part of this model either and is a parameter.
- A destination object is either a `Writable` (the source tests for a `write` function and wraps it as `{stream: dest}`) or a descriptor; the caller of the model says which. A stream that is present but falsy (such as 0 or "") is not modelled.
- Object identity of destinations is not modelled. Destinations are values, so the caller's object is never changed by `add`, as in the source, which copies.

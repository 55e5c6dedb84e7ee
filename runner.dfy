/** The `Runner` class of packages/runner/src/index.ts. Its fields are the
    source's mutable fields; each method changes them in place and is proved
    to produce the state the functions of RunnerSpec describe, so every lemma
    there is a statement about this class. */
module TaskRunner {
  import opened Wrappers
  import opened Numerals
  import opened RunnerSpec

  class Runner<V(==)> {
    var queue: seq<seq<Task<V>>>
    var state: State
    var runningIndex: int
    var cost: int
    const timeout: int
    const everyTimeout: int
    const failStrategy: string
    const autoNext: bool
    const startTime: int

    function Cfg(): (c: Config) {
      Config(timeout, everyTimeout, failStrategy, autoNext, startTime)
    }

    function Snap(): (s: Snapshot<V>)
      reads this
    {
      Snapshot(queue, state, runningIndex, cost)
    }

    ghost predicate Valid()
      reads this
    {
      QueueOk(queue, runningIndex)
    }

    /** The numeric options fall back to their defaults when missing or 0,
        `autoNext` is always true, and the run starts empty in state init. */
    constructor (options: Options, now: int)
      ensures Valid()
      ensures Cfg() == Configure(options, now)
      ensures queue == [] && state == Init && runningIndex == -1 && cost == 0
    {
      timeout := NumberOr(options.timeout, DefaultTimeout);
      everyTimeout := NumberOr(options.everyTimeout, DefaultEveryTimeout);
      failStrategy := StringOr(options.failStrategy, DefaultFailStrategy);
      autoNext := AutoNextOf(options.autoNext);
      startTime := NumberOr(options.startTime, now);
      queue := [];
      state := Init;
      runningIndex := -1;
      cost := 0;
    }

    /** `add`: appends exactly one stage built from the descriptors, a lone
        descriptor becoming a one-task stage. */
    method Add(arg: AddArg)
      requires Valid()
      modifies this
      ensures Valid()
      ensures queue == old(queue) + [NewStage(|old(queue)|, Params(arg), everyTimeout)]
      ensures state == old(state) && runningIndex == old(runningIndex) && cost == old(cost)
    {
      var objs := Params(arg);
      var stage: seq<Task<V>> := [];
      var index := 0;
      while index < |objs|
        invariant 0 <= index <= |objs|
        invariant |stage| == index
        invariant forall j :: 0 <= j < index ==> stage[j] == NewTask(|queue|, j, objs[j], everyTimeout)
      {
        var id := TaskId(|queue| + 1, index + 1);
        var t: Task<V>;
        match objs[index] {
          case Bare =>
            t := Task(id, everyTimeout, Init, -1, false, None, None, None);
          case Described(own) =>
            t := Task(id, NumberOr(own, everyTimeout), Init, -1, false, None, None, None);
        }
        stage := stage + [t];
        index := index + 1;
      }
      assert stage == NewStage(|queue|, objs, everyTimeout);
      AddKeepsQueueOk(queue, runningIndex, objs, everyTimeout);
      queue := queue + [stage];
    }

    /** `getStats`: reads the queue and changes nothing. */
    method GetStats() returns (stats: seq<seq<Stat>>)
      ensures stats == Stats(queue)
    {
      stats := [];
      var k := 0;
      while k < |queue|
        invariant 0 <= k <= |queue|
        invariant |stats| == k
        invariant forall m :: 0 <= m < k ==> stats[m] == Stats(queue)[m]
      {
        var subStats: seq<Stat> := [];
        var j := 0;
        while j < |queue[k]|
          invariant 0 <= j <= |queue[k]|
          invariant |subStats| == j
          invariant forall m :: 0 <= m < j ==> subStats[m] == StatOf(queue[k][m])
        {
          var task := queue[k][j];
          subStats := subStats + [Stat(task.id, task.cost, task.state, task.error)];
          j := j + 1;
        }
        stats := stats + [subStats];
        k := k + 1;
      }
    }

    /** `setFail` */
    method SetFail(message: string) returns (c: Completion)
      modifies this
      ensures state == Fail && c == Thrown(message)
      ensures queue == old(queue) && runningIndex == old(runningIndex) && cost == old(cost)
    {
      state := Fail;
      c := Thrown(message);
    }

    /** `setEnd` */
    method SetEnd() returns (c: Completion)
      modifies this
      ensures (Snap(), c) == RunnerSpec.SetEnd(Cfg(), old(Snap()))
    {
      if failStrategy == "everyOne" {
        if AllFailed(queue) {
          c := SetFail(EveryFailedMessage);
          return;
        }
      }
      state := End;
      c := Done;
    }

    /** The synchronous part of `runTask` for task `j` of stage `k`: a task
        not in init is skipped, any other becomes running, and the promise
        executor rejects at once with "Aborted" when the task's signal is
        already aborted. */
    method RunTaskStart(k: nat, j: nat)
      requires k < |queue| && j < |queue[k]|
      modifies this
      ensures queue == old(queue)[k := old(queue)[k][j := StartTask(old(queue)[k][j])]]
      ensures state == old(state) && runningIndex == old(runningIndex) && cost == old(cost)
    {
      var task := queue[k][j];
      if task.state != Init {
        assert queue[k][j := task] == queue[k];
        assert queue[k := queue[k]] == queue;
        return;
      }
      var promise: Option<Settlement<V>> := None;
      if task.aborted {
        promise := Some(Broken(AbortedCause));
      }
      queue := queue[k := queue[k][j := task.(state := Running, promise := promise)]];
    }

    /** `stopParalle(task i, stage k)` */
    method StopParalle(k: nat, i: nat)
      requires k < |queue| && i < |queue[k]|
      modifies this
      ensures queue == old(queue)[k := Sweep(old(queue)[k], i)]
      ensures state == old(state) && runningIndex == old(runningIndex) && cost == old(cost)
    {
      if queue[k][i].aborted {
        return;
      }
      ghost var before := queue[k];
      var j := 0;
      while j < |queue[k]|
        invariant |queue| == |old(queue)| && queue == old(queue)[k := queue[k]]
        invariant |queue[k]| == |before|
        invariant 0 <= j <= |before|
        invariant forall m :: 0 <= m < j ==> queue[k][m] == Sweep(before, i)[m]
        invariant forall m :: j <= m < |before| ==> queue[k][m] == before[m]
        invariant state == old(state) && runningIndex == old(runningIndex) && cost == old(cost)
      {
        var task := queue[k][j];
        if task.state == Running || task.state == Init {
          var promise := task.promise;
          if task.state == Running && promise.None? {
            // the 'abort' listener rejects the still-pending promise
            promise := Some(Broken(AbortedCause));
          }
          queue := queue[k := queue[k][j := task.(aborted := true, promise := promise)]];
        }
        j := j + 1;
      }
      assert queue[k] == Sweep(before, i);
    }

    /** `resolve` or `reject` of the promise task `i` of stage `k` awaits,
        called by its run function or by its timer: only the pending
        promise of a running task takes the settlement. */
    method SettlePromise(k: nat, i: nat, o: Outcome<V>)
      requires k < |queue| && i < |queue[k]|
      modifies this
      ensures var t := old(queue)[k][i];
        queue == old(queue)[k := old(queue)[k][i :=
          if t.state == Running && t.promise.None? then t.(promise := Some(SettlementOf(t, o))) else t]]
      ensures state == old(state) && runningIndex == old(runningIndex) && cost == old(cost)
    {
      var task := queue[k][i];
      if task.state != Running || task.promise.Some? {
        assert queue[k][i := task] == queue[k];
        assert queue[k := queue[k]] == queue;
        return;
      }
      var settlement: Settlement<V>;
      match o {
        case Resolved(v) =>
          settlement := Fulfilled(v);
        case Rejected(reason) =>
          settlement := Broken(RejectionMessage(reason));
        case TimerFired =>
          settlement := Broken(TimeoutCause(task.everyTimeout));
      }
      queue := queue[k := queue[k][i := task.(promise := Some(settlement))]];
    }

    /** The rest of `runTask` for task `i` of stage `k` once its promise has
        settled, resuming at time `now`, followed by the `onFinish` callback
        of `runParalle`, whose local `error` is passed in and returned. */
    method ResumeTask(k: nat, i: nat, now: int, start: int, error: Option<string>) returns (error': Option<string>)
      requires k < |queue| && i < |queue[k]|
      modifies this
      ensures var r := Step(Cfg(), StageState(old(queue)[k], error, old(cost), start), Resumes(i, now));
        queue == old(queue)[k := r.tasks] && cost == r.cost && error' == r.error
      ensures state == old(state) && runningIndex == old(runningIndex)
    {
      var task := queue[k][i];
      error' := error;
      if task.state != Running || task.promise.None? {
        return;
      }
      var finished: Task<V>;
      match task.promise.value {
        case Fulfilled(v) =>
          finished := task.(state := End, result := Some(v));
        case Broken(m) =>
          finished := task.(state := Fail, error := Some(TaskErrorMessage(task.id, m)));
      }
      finished := finished.(cost := now - start);
      queue := queue[k := queue[k][i := finished]];
      if finished.state == End {
        cost := now - startTime;
        if cost > timeout {
          StopParalle(k, i);
          if error'.None? {
            error' := Some(RunnerTimeoutMessage(timeout));
          }
        }
      } else {
        StopParalle(k, i);
        if error'.None? {
          error' := finished.error;
        }
      }
    }

    /** One event of stage `k`, as the JavaScript event loop delivers it. */
    method HandleEvent(k: nat, ev: Event<V>, start: int, error: Option<string>) returns (error': Option<string>)
      requires k < |queue| && ev.task < |queue[k]|
      modifies this
      ensures var r := Step(Cfg(), StageState(old(queue)[k], error, old(cost), start), ev);
        queue == old(queue)[k := r.tasks] && cost == r.cost && error' == r.error
      ensures state == old(state) && runningIndex == old(runningIndex)
    {
      match ev {
        case Settles(i, o) =>
          ghost var t := queue[k][i];
          ghost var tasks := queue[k];
          SettlePromise(k, i, o);
          error' := error;
          if t.state != Running || t.promise.Some? {
            assert tasks[i := t] == tasks;
          }
        case Resumes(i, now) =>
          error' := ResumeTask(k, i, now, start, error);
      }
    }

    /** `runParalle` on the stage at `runningIndex`: start every task, then
        handle the settlements and resumptions in the order the schedule gives; returns the
        stage error and the previous results the tasks were given. */
    method RunParalle(sched: StageSchedule<V>) returns (error: Option<string>, previous: seq<Option<V>>)
      requires 0 <= runningIndex < |queue| && InRange(sched.events, |queue[runningIndex]|)
      modifies this
      ensures (Snap(), error) == DriveStage(Cfg(), old(Snap()), old(runningIndex), sched)
      ensures previous == PreviousResults(old(queue), old(runningIndex))
    {
      var k := runningIndex;
      previous := PreviousResults(queue, k);
      ghost var stage := queue[k];
      var j := 0;
      while j < |queue[k]|
        invariant |queue| == |old(queue)| && queue == old(queue)[k := queue[k]]
        invariant |queue[k]| == |stage|
        invariant 0 <= j <= |stage|
        invariant forall m :: 0 <= m < j ==> queue[k][m] == StartTask(stage[m])
        invariant forall m :: j <= m < |stage| ==> queue[k][m] == stage[m]
        invariant state == old(state) && runningIndex == k && cost == old(cost)
      {
        RunTaskStart(k, j);
        j := j + 1;
      }
      assert queue[k] == StartAll(stage);
      ghost var ss0 := StageState(StartAll(stage), None, cost, sched.start);
      error := None;
      var e := 0;
      while e < |sched.events|
        invariant 0 <= e <= |sched.events|
        invariant |queue| == |old(queue)| && queue == old(queue)[k := queue[k]]
        invariant StageState(queue[k], error, cost, sched.start) == Fold(Cfg(), ss0, sched.events[..e])
        invariant state == old(state) && runningIndex == k
      {
        assert sched.events[..e + 1][..e] == sched.events[..e];
        error := HandleEvent(k, sched.events[e], sched.start, error);
        e := e + 1;
      }
      assert sched.events[..e] == sched.events;
    }

    /** `run`, with the recursion of `runNext` written as a loop: the state
        and the way the returned promise settles are those of `Run`. */
    method Run(schedule: seq<StageSchedule<V>>) returns (c: Completion)
      requires Valid() && ScheduleFits(schedule, queue)
      modifies this
      ensures Valid()
      ensures (Snap(), c) == RunnerSpec.Run(Cfg(), old(Snap()), schedule)
    {
      state := Running;
      ghost var goal := RunNext(Cfg(), Snap(), schedule);
      while true
        invariant Valid() && ScheduleFits(schedule, queue)
        invariant RunNext(Cfg(), Snap(), schedule) == goal
        decreases |queue| - runningIndex
      {
        runningIndex := runningIndex + 1;
        if !HasNext(Snap()) {
          c := SetEnd();
          return;
        }
        var k := runningIndex;
        DriveStageFits(Cfg(), Snap(), k, schedule);
        DriveStageKeepsQueueOk(Cfg(), Snap(), k, schedule);
        var err, _ := RunParalle(schedule[k]);
        if err.Some? {
          if failStrategy == "anyOne" {
            c := SetFail(err.value);
            return;
          } else if StartsWith(err.value, RunnerTimeoutPrefix) {
            c := SetFail(err.value);
            return;
          }
        }
        if !autoNext {
          c := Done;
          return;
        }
      }
    }
  }
}

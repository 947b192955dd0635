/** Quiescence of the scheduler: the machine of all workers going round the run loop, and what its
    `stopping` test knows about them. */
module Workers {
  import opened Sequences
  import opened Schedulers

  datatype Stage =
    | Idle                  // between tasks
    | Executing(task: Task) // the task runs and may submit more work
    | Returned(task: Task)  // control is back, the requeue section is still to come
    | Leaving(task: Task)   // requeue section passed, the active count is still to be lowered

  datatype Pool = Pool(
    tasks: seq<Task>,
    next: nat,
    policy: Policy,
    config: MLFQConfig,
    active: nat,
    stopRequested: bool,
    stages: map<nat, Stage>)

  datatype Step =
    | SubmitOutside(work: Work, options: Options)
    | Submit(worker: nat, work: Work, options: Options)
    | Take(worker: nat, thread: int, index: nat)
    | Return(worker: nat)
    | Requeue(worker: nat, ready: bool)
    | Finish(worker: nat)
    | Reconfigure(policy: Policy, config: MLFQConfig)
    | RequestStop

  function Enqueue(p: Pool, work: Work, options: Options): Pool {
    if work == NoWork then p
    else
      var task := Task(work, options.thread, options.priority, 0, options.deadlineMs, p.next);
      p.(tasks := p.tasks + [task], next := p.next + 1)
  }

  ghost predicate CanDo(p: Pool, step: Step) {
    match step
    case SubmitOutside(_, _) => true
    case Submit(k, _, _) => k in p.stages && p.stages[k].Executing?
    case Take(k, thread, i) =>
      && k in p.stages && p.stages[k] == Idle
      && IsNormal(p.config) && IsPick(p.tasks, p.policy, p.config, p.next, thread, i)
    case Return(k) => k in p.stages && p.stages[k].Executing?
    case Requeue(k, _) => k in p.stages && p.stages[k].Returned? && IsNormal(p.config)
    case Finish(k) => k in p.stages && p.stages[k].Leaving?
    case Reconfigure(_, _) => true
    case RequestStop => true
  }

  ghost function Do(p: Pool, step: Step): Pool
    requires CanDo(p, step)
  {
    match step
    case SubmitOutside(work, options) => Enqueue(p, work, options)
    case Submit(_, work, options) => Enqueue(p, work, options)
    case Take(k, _, i) =>
      p.(tasks := Without(p.tasks, i), active := p.active + 1, stages := p.stages[k := Executing(p.tasks[i])])
    case Return(k) => p.(stages := p.stages[k := Returned(p.stages[k].task)])
    case Requeue(k, ready) =>
      var task := p.stages[k].task;
      var left := p.(stages := p.stages[k := Leaving(task)]);
      if p.policy == MLFQ && ready && task.work.FiberWork? then
        var again := task.(level := Demoted(p.config, task.level), sequence := p.next);
        left.(tasks := p.tasks + [again], next := p.next + 1)
      else left
    case Finish(k) => p.(active := if p.active > 0 then p.active - 1 else 0, stages := p.stages[k := Idle])
    case Reconfigure(policy, config) => p.(policy := policy, config := Normalize(config))
    case RequestStop => p.(stopRequested := true)
  }

  /** The scheduler's own test. */
  predicate Stopping(p: Pool) { p.stopRequested && p.tasks == [] && p.active == 0 }

  function Busy(stages: map<nat, Stage>): set<nat> { set k | k in stages && stages[k] != Idle }

  ghost predicate QueueOk(p: Pool) { IsNormal(p.config) && Increasing(p.tasks, p.next) }

  ghost predicate HandsOk(p: Pool) {
    forall k :: k in p.stages && p.stages[k] != Idle ==> p.stages[k].task.work != NoWork
  }

  ghost predicate CountOk(p: Pool) { p.active == |Busy(p.stages)| }

  ghost predicate Inv(p: Pool) { QueueOk(p) && HandsOk(p) && CountOk(p) }

  ghost predicate Init(p: Pool) {
    && p.tasks == [] && p.active == 0 && !p.stopRequested && IsNormal(p.config)
    && forall k :: k in p.stages ==> p.stages[k] == Idle
  }

  lemma BusyMoves(stages: map<nat, Stage>, k: nat, stage: Stage)
    requires k in stages
    ensures Busy(stages[k := stage]) == Busy(stages) - {k} + (if stage == Idle then {} else {k})
    ensures |Busy(stages[k := stage])|
         == |Busy(stages)| - (if stages[k] == Idle then 0 else 1) + (if stage == Idle then 0 else 1)
  {
    assert Busy(stages[k := stage]) == Busy(stages) - {k} + (if stage == Idle then {} else {k});
    assert k in Busy(stages) <==> stages[k] != Idle;
  }

  lemma DoCount(p: Pool, step: Step)
    requires CountOk(p) && CanDo(p, step)
    ensures CountOk(Do(p, step))
  {
    match step {
      case Take(k, _, i) => BusyMoves(p.stages, k, Executing(p.tasks[i]));
      case Return(k) => BusyMoves(p.stages, k, Returned(p.stages[k].task));
      case Requeue(k, _) => BusyMoves(p.stages, k, Leaving(p.stages[k].task));
      case Finish(k) => BusyMoves(p.stages, k, Idle);
      case _ =>
    }
  }

  lemma EnqueueIncreasing(p: Pool, work: Work, options: Options)
    requires Increasing(p.tasks, p.next)
    ensures Increasing(Enqueue(p, work, options).tasks, Enqueue(p, work, options).next)
  {
  }

  lemma DoQueue(p: Pool, step: Step)
    requires QueueOk(p) && HandsOk(p) && CanDo(p, step)
    ensures QueueOk(Do(p, step))
  {
    match step {
      case Take(_, _, i) => assert Increasing(Without(p.tasks, i), p.next);
      case Requeue(k, _) => assert Increasing(Do(p, step).tasks, Do(p, step).next);
      case Submit(_, work, options) => EnqueueIncreasing(p, work, options);
      case SubmitOutside(work, options) => EnqueueIncreasing(p, work, options);
      case _ =>
    }
  }

  lemma DoHands(p: Pool, step: Step)
    requires QueueOk(p) && HandsOk(p) && CanDo(p, step)
    ensures HandsOk(Do(p, step))
  {
  }

  lemma DoInv(p: Pool, step: Step)
    requires Inv(p) && CanDo(p, step)
    ensures Inv(Do(p, step))
  {
    DoQueue(p, step);
    DoHands(p, step);
    DoCount(p, step);
  }

  /** The count covers a task from its removal until after its effects, so the test is true exactly when a stop
      was requested, nothing is queued and no worker has a task in hand. */
  lemma StoppingIsAccurate(p: Pool)
    requires Inv(p)
    ensures Stopping(p) <==> p.stopRequested && p.tasks == [] && forall k :: k in p.stages ==> p.stages[k] == Idle
  {
    if p.active == 0 {
      assert Busy(p.stages) == {};
      forall k | k in p.stages ensures p.stages[k] == Idle {
        assert k !in Busy(p.stages);
      }
    }
    assert (forall k :: k in p.stages ==> p.stages[k] == Idle) ==> Busy(p.stages) == {};
  }

  ghost predicate IsRun(pools: seq<Pool>, steps: seq<Step>) {
    && |pools| == |steps| + 1
    && forall i {:trigger steps[i]} :: 0 <= i < |steps| ==>
         CanDo(pools[i], steps[i]) && pools[i + 1] == Do(pools[i], steps[i])
  }

  lemma {:induction false} RunInv(pools: seq<Pool>, steps: seq<Step>, n: nat)
    requires IsRun(pools, steps) && Init(pools[0]) && n < |pools|
    ensures Inv(pools[n])
  {
    if n == 0 {
      assert Busy(pools[0].stages) == {};
    } else {
      RunInv(pools, steps, n - 1);
      DoInv(pools[n - 1], steps[n - 1]);
    }
  }

  /** Once true in a run it stays true, and every worker stays idle, until somebody outside submits work. */
  lemma {:induction false} StoppingIsStable(pools: seq<Pool>, steps: seq<Step>, m: nat, n: nat)
    requires IsRun(pools, steps) && Init(pools[0]) && m <= n < |pools|
    requires Stopping(pools[m])
    requires forall i :: m <= i < n ==> !steps[i].SubmitOutside?
    ensures Stopping(pools[n]) && forall k :: k in pools[n].stages ==> pools[n].stages[k] == Idle
  {
    RunInv(pools, steps, n);
    if m < n {
      StoppingIsStable(pools, steps, m, n - 1);
      var step := steps[n - 1];
      assert pools[n] == Do(pools[n - 1], step);
    }
    StoppingIsAccurate(pools[n]);
  }

  // ----- no task is lost, none is taken twice

  /** Submitted work becomes the newest task, with what was asked for and level 0; no work becomes nothing. */
  lemma SubmissionIsQueued(pools: seq<Pool>, steps: seq<Step>, n: nat)
    requires IsRun(pools, steps) && n < |steps| && (steps[n].SubmitOutside? || steps[n].Submit?)
    ensures var p, next := pools[n], pools[n + 1]; var options := steps[n].options;
            && (steps[n].work == NoWork ==> next.tasks == p.tasks && next.next == p.next)
            && (steps[n].work != NoWork ==>
                  && next.next == p.next + 1 && |next.tasks| == |p.tasks| + 1 && next.tasks[..|p.tasks|] == p.tasks
                  && next.tasks[|p.tasks|].work == steps[n].work && next.tasks[|p.tasks|].thread == options.thread
                  && next.tasks[|p.tasks|].priority == options.priority && next.tasks[|p.tasks|].level == 0
                  && next.tasks[|p.tasks|].deadlineMs == options.deadlineMs
                  && next.tasks[|p.tasks|].sequence == p.next)
  {
    assert CanDo(pools[n], steps[n]) && pools[n + 1] == Do(pools[n], steps[n]);
  }

  ghost predicate TakenBy(pools: seq<Pool>, steps: seq<Step>, k: nat, t: Task)
    requires |pools| == |steps| + 1 && k < |steps|
  {
    && steps[k].Take? && steps[k].index < |pools[k].tasks| && pools[k].tasks[steps[k].index] == t
    && steps[k].worker in pools[k + 1].stages && pools[k + 1].stages[steps[k].worker] == Executing(t)
  }

  /** In every run a queued task stays in the queue, as it is, until a worker takes it into execution. */
  lemma {:induction false} QueuedUntilTaken(pools: seq<Pool>, steps: seq<Step>, m: nat, n: nat, t: Task)
    requires IsRun(pools, steps) && m <= n < |pools| && t in pools[m].tasks
    ensures t in pools[n].tasks || exists k :: m <= k < n && TakenBy(pools, steps, k, t)
  {
    if m < n {
      QueuedUntilTaken(pools, steps, m, n - 1, t);
      if t in pools[n - 1].tasks {
        StaysOrIsTaken(pools, steps, n - 1, t);
      }
    }
  }

  lemma StaysOrIsTaken(pools: seq<Pool>, steps: seq<Step>, k: nat, t: Task)
    requires IsRun(pools, steps) && k < |steps| && t in pools[k].tasks
    ensures t in pools[k + 1].tasks || TakenBy(pools, steps, k, t)
  {
    var p, step := pools[k], steps[k];
    assert CanDo(p, step) && pools[k + 1] == Do(p, step);
    var i :| 0 <= i < |p.tasks| && p.tasks[i] == t;
    if step.Take? && step.index != i {
      var rest := Without(p.tasks, step.index);
      assert rest[if i < step.index then i else i - 1] == t;
    }
  }

  /** Once taken, a task is never queued again under the number it had; so no task is taken twice. */
  lemma {:induction false} TakenOnce(pools: seq<Pool>, steps: seq<Step>, m: nat, n: nat, t: Task)
    requires IsRun(pools, steps) && Init(pools[0]) && m < n < |pools| && TakenBy(pools, steps, m, t)
    ensures forall u :: u in pools[n].tasks ==> u.sequence != t.sequence
  {
    RunInv(pools, steps, m);
    RunInv(pools, steps, n - 1);
    NumbersGrow(pools, steps, m, n - 1);
    var p, step := pools[n - 1], steps[n - 1];
    assert CanDo(p, step) && pools[n] == Do(p, step);
    if m < n - 1 {
      TakenOnce(pools, steps, m, n - 1, t);
    }
  }

  lemma {:induction false} NumbersGrow(pools: seq<Pool>, steps: seq<Step>, m: nat, n: nat)
    requires IsRun(pools, steps) && m <= n < |pools|
    ensures pools[m].next <= pools[n].next
  {
    if m < n {
      NumbersGrow(pools, steps, m, n - 1);
      assert pools[n] == Do(pools[n - 1], steps[n - 1]);
    }
  }

  /** After its execution a task comes back exactly if the policy is MLFQ and its fiber is ready: the same work for
      the same threads, one level down if the configuration says so and has one, and with a new number. */
  lemma ReturnIsQueued(pools: seq<Pool>, steps: seq<Step>, n: nat, k: nat, ready: bool)
    requires IsRun(pools, steps) && n < |steps| && steps[n] == Requeue(k, ready)
    ensures k in pools[n].stages && pools[n].stages[k].Returned?
    ensures var p, next := pools[n], pools[n + 1]; var t := p.stages[k].task;
            && k in next.stages && next.stages[k] == Leaving(t)
            && if p.policy == MLFQ && ready && t.work.FiberWork?
               then
                 && next.next == p.next + 1 && |next.tasks| == |p.tasks| + 1 && next.tasks[..|p.tasks|] == p.tasks
                 && var again := next.tasks[|p.tasks|];
                    && again.work == t.work && again.thread == t.thread && again.priority == t.priority
                    && again.deadlineMs == t.deadlineMs && again.sequence == p.next
                    && again.level
                    == if p.config.demoteOnYield && t.level + 1 < p.config.levels then t.level + 1 else t.level
               else next.tasks == p.tasks && next.next == p.next
  {
    assert CanDo(pools[n], steps[n]) && pools[n + 1] == Do(pools[n], steps[n]);
  }

  /** In every run a worker takes a task that the policy puts before all others its thread may run, and the
      others stay in order. */
  lemma TakesAreFair(pools: seq<Pool>, steps: seq<Step>, n: nat, k: nat, thread: int, i: nat)
    requires IsRun(pools, steps) && Init(pools[0]) && n < |steps| && steps[n] == Take(k, thread, i)
    ensures var p, next := pools[n], pools[n + 1];
            && i < |p.tasks| && next.tasks == Without(p.tasks, i) && next.active == p.active + 1
            && IsNormal(p.config) && FairPick(p.policy, p.config, p.next, thread, p.tasks[i], next.tasks)
  {
    RunInv(pools, steps, n);
    assert CanDo(pools[n], steps[n]) && pools[n + 1] == Do(pools[n], steps[n]);
    PickIsFair(pools[n].tasks, pools[n].policy, pools[n].config, pools[n].next, thread, i);
  }

  // ----- the settings

  /** The stop flag is set exactly from the first request on. */
  lemma {:induction false} StopIsRequested(pools: seq<Pool>, steps: seq<Step>, n: nat)
    requires IsRun(pools, steps) && Init(pools[0]) && n < |pools|
    ensures pools[n].stopRequested <==> exists k :: 0 <= k < n && steps[k] == RequestStop
  {
    if n > 0 {
      StopIsRequested(pools, steps, n - 1);
      assert pools[n] == Do(pools[n - 1], steps[n - 1]);
      assert pools[n].stopRequested <==> pools[n - 1].stopRequested || steps[n - 1] == RequestStop;
    }
  }

  /** Policy and configuration are those last set, with 1 for levels or a gap of 0. */
  lemma SettingsStay(pools: seq<Pool>, steps: seq<Step>, n: nat)
    requires IsRun(pools, steps) && n < |steps|
    ensures var p, next := pools[n], pools[n + 1];
            if steps[n].Reconfigure? then
              var config := steps[n].config;
              && next.policy == steps[n].policy
              && next.config == config.(levels := if config.levels == 0 then 1 else config.levels,
                                        agingGap := if config.agingGap == 0 then 1 else config.agingGap)
              && next.tasks == p.tasks
            else next.policy == p.policy && next.config == p.config
  {
    assert CanDo(pools[n], steps[n]) && pools[n + 1] == Do(pools[n], steps[n]);
  }
}

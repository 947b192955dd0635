/** MLFQ with aging does not starve: a bound on how often a queued task is passed over, over every run
    of enqueues, requeues and picks. */
module Aging {
  import opened Sequences
  import opened Schedulers

  datatype Queue = Queue(tasks: seq<Task>, next: nat)

  /** A submission or a requeue with any level, or a pick on behalf of a thread. */
  datatype Step = Push(task: Task) | Pick(thread: int, index: nat)

  ghost predicate IsStep(config: MLFQConfig, q: Queue, step: Step, q': Queue)
    requires IsNormal(config)
  {
    match step
    case Push(t) => q' == Queue(q.tasks + [t.(sequence := q.next)], q.next + 1)
    case Pick(thread, i) =>
      IsPick(q.tasks, MLFQ, config, q.next, thread, i) && q' == q.(tasks := Without(q.tasks, i))
  }

  ghost predicate IsRun(config: MLFQConfig, queues: seq<Queue>, steps: seq<Step>)
    requires IsNormal(config)
  {
    && |queues| == |steps| + 1
    && forall i {:trigger steps[i]} :: 0 <= i < |steps| ==> IsStep(config, queues[i], steps[i], queues[i + 1])
  }

  /** How many of the steps are picks of a thread that is allowed to run `t`. */
  function Chances(steps: seq<Step>, t: Task): nat {
    if steps == [] then 0
    else
      var step := steps[|steps| - 1];
      Chances(steps[..|steps| - 1], t) + (if step.Pick? && Matches(t, step.thread) then 1 else 0)
  }

  /** Waiting brings the task to level 0, or it is there already. */
  predicate Rises(config: MLFQConfig, t: Task)
    requires IsNormal(config)
  {
    config.enableAging || Base(config, t) == 0
  }

  /** Tasks numbered from here on never beat `t`. */
  function Horizon(config: MLFQConfig, t: Task): nat
    requires IsNormal(config)
  {
    t.sequence + if Base(config, t) == 0 then 1 else Base(config, t) * config.agingGap
  }

  /** Queued tasks that could still be picked before `t`. */
  function Rivals(tasks: seq<Task>, t: Task, horizon: nat): nat {
    if tasks == [] then 0
    else
      var x := tasks[0].sequence;
      Rivals(tasks[1..], t, horizon) + (if x < horizon && x != t.sequence then 1 else 0)
  }

  lemma {:induction false} RivalsConcat(a: seq<Task>, b: seq<Task>, t: Task, horizon: nat)
    ensures Rivals(a + b, t, horizon) == Rivals(a, t, horizon) + Rivals(b, t, horizon)
  {
    if a == [] {
      assert a + b == b;
    } else {
      assert (a + b)[1..] == a[1..] + b;
      RivalsConcat(a[1..], b, t, horizon);
    }
  }

  lemma RivalsWithout(tasks: seq<Task>, i: nat, t: Task, horizon: nat)
    requires i < |tasks|
    ensures Rivals(tasks, t, horizon)
         == Rivals(Without(tasks, i), t, horizon) + Rivals([tasks[i]], t, horizon)
  {
    RivalsConcat(tasks[..i], tasks[i + 1..], t, horizon);
    RivalsConcat(tasks[..i], [tasks[i]], t, horizon);
    RivalsConcat(tasks[..i + 1], tasks[i + 1..], t, horizon);
    assert tasks[..i + 1] == tasks[..i] + [tasks[i]];
    assert tasks == tasks[..i + 1] + tasks[i + 1..];
  }

  lemma {:induction false} RivalsBound(tasks: seq<Task>, t: Task, horizon: nat)
    ensures Rivals(tasks, t, horizon) <= |tasks|
  {
    if tasks != [] {
      RivalsBound(tasks[1..], t, horizon);
    }
  }

  /** After waiting for `Base * agingGap` numbers a task counts as level 0, whatever its level was. */
  lemma FullyAged(config: MLFQConfig, next: nat, t: Task)
    requires IsNormal(config) && config.enableAging && t.sequence < next
    requires next - t.sequence >= Base(config, t) * config.agingGap
    ensures EffectiveLevel(config, next, t) == 0
  {
    DivAtLeast(next - t.sequence, config.agingGap, Base(config, t));
  }

  /** Whoever is picked before `t`, by a thread that could have taken `t`, is numbered below the horizon. */
  lemma PickedIsRival(config: MLFQConfig, q: Queue, t: Task, thread: int, i: nat)
    requires IsNormal(config) && Rises(config, t) && Increasing(q.tasks, q.next)
    requires IsPick(q.tasks, MLFQ, config, q.next, thread, i)
    requires t in q.tasks && q.tasks[i] != t && Matches(t, thread)
    ensures q.tasks[i].sequence < Horizon(config, t) && q.tasks[i].sequence != t.sequence
  {
    var j :| 0 <= j < |q.tasks| && q.tasks[j] == t;
    var x := q.tasks[i];
    assert Before(MLFQ, config, q.next, x, t);
    if Base(config, t) > 0 && q.next - t.sequence >= Base(config, t) * config.agingGap {
      FullyAged(config, q.next, t);
    }
  }

  /** Rivals in the queue, and sequence numbers below the horizon that are still to be given out. */
  function Potential(q: Queue, t: Task, horizon: nat): nat {
    Rivals(q.tasks, t, horizon) + if q.next < horizon then horizon - q.next else 0
  }

  lemma PickPotential(q: Queue, i: nat, t: Task, horizon: nat)
    requires i < |q.tasks|
    ensures Potential(q.(tasks := Without(q.tasks, i)), t, horizon) <= Potential(q, t, horizon)
    ensures q.tasks[i].sequence < horizon && q.tasks[i].sequence != t.sequence ==>
              Potential(q.(tasks := Without(q.tasks, i)), t, horizon) < Potential(q, t, horizon)
  {
    RivalsWithout(q.tasks, i, t, horizon);
  }

  lemma PushPotential(q: Queue, x: Task, t: Task, horizon: nat)
    requires x.sequence == q.next
    ensures Potential(Queue(q.tasks + [x], q.next + 1), t, horizon) <= Potential(q, t, horizon)
  {
    RivalsConcat(q.tasks, [x], t, horizon);
  }

  lemma StepPotential(config: MLFQConfig, q: Queue, step: Step, q': Queue, t: Task)
    requires IsNormal(config) && Rises(config, t) && Increasing(q.tasks, q.next)
    requires IsStep(config, q, step, q') && t in q.tasks && t in q'.tasks
    ensures Potential(q', t, Horizon(config, t)) + (if step.Pick? && Matches(t, step.thread) then 1 else 0)
         <= Potential(q, t, Horizon(config, t))
  {
    match step {
      case Push(x) => PushPotential(q, x.(sequence := q.next), t, Horizon(config, t));
      case Pick(thread, i) =>
        PickPotential(q, i, t, Horizon(config, t));
        if Matches(t, thread) {
          var k :| 0 <= k < |q'.tasks| && q'.tasks[k] == t;
          assert q'.tasks[k] == q.tasks[if k < i then k else k + 1];
          PickedIsRival(config, q, t, thread, i);
        }
    }
  }

  lemma StepIncreasing(config: MLFQConfig, q: Queue, step: Step, q': Queue)
    requires IsNormal(config) && Increasing(q.tasks, q.next) && IsStep(config, q, step, q')
    requires step.Push? ==> step.task.work != NoWork
    ensures Increasing(q'.tasks, q'.next)
  {
  }

  ghost predicate RealWork(steps: seq<Step>) {
    forall i :: 0 <= i < |steps| && steps[i].Push? ==> steps[i].task.work != NoWork
  }

  lemma {:induction false} RunPotential(config: MLFQConfig, queues: seq<Queue>, steps: seq<Step>, t: Task, n: nat)
    requires IsNormal(config) && Rises(config, t) && IsRun(config, queues, steps) && RealWork(steps)
    requires Increasing(queues[0].tasks, queues[0].next)
    requires n <= |steps| && forall i :: 0 <= i <= n ==> t in queues[i].tasks
    ensures Increasing(queues[n].tasks, queues[n].next)
    ensures Chances(steps[..n], t) + Potential(queues[n], t, Horizon(config, t))
         <= Potential(queues[0], t, Horizon(config, t))
  {
    if n > 0 {
      RunPotential(config, queues, steps, t, n - 1);
      assert steps[..n][..n - 1] == steps[..n - 1];
      var step := steps[n - 1];
      StepPotential(config, queues[n - 1], step, queues[n], t);
      StepIncreasing(config, queues[n - 1], step, queues[n]);
    }
  }

  /** What overtaking costs a task beyond those queued before it. */
  function Credit(config: MLFQConfig, t: Task): nat
    requires IsNormal(config)
  {
    if Base(config, t) == 0 then 0 else Base(config, t) * config.agingGap - 1
  }

  /** At the moment `t` is queued behind `waiting` others. */
  lemma PotentialAtEntry(config: MLFQConfig, q: Queue, t: Task, waiting: nat)
    requires IsNormal(config)
    requires |q.tasks| == waiting + 1 && q.tasks[waiting] == t && q.next == t.sequence + 1
    ensures Potential(q, t, Horizon(config, t)) <= waiting + Credit(config, t)
  {
    var horizon := Horizon(config, t);
    var others := q.tasks[..waiting];
    assert q.tasks == others + [t];
    RivalsConcat(others, [t], t, horizon);
    RivalsBound(others, t, horizon);
  }

  /** A run that starts with `t` just queued behind `waiting` others and never takes it. */
  ghost predicate Waits(config: MLFQConfig, queues: seq<Queue>, steps: seq<Step>, t: Task, waiting: nat)
    requires IsNormal(config)
  {
    && IsRun(config, queues, steps) && RealWork(steps)
    && Increasing(queues[0].tasks, queues[0].next)
    && |queues[0].tasks| == waiting + 1 && queues[0].tasks[waiting] == t && queues[0].next == t.sequence + 1
    && forall i :: 0 <= i < |queues| ==> t in queues[i].tasks
  }

  /** Bounded overtaking: a task just queued behind `waiting` others, at level `b`, is passed over by at most
      `waiting + max(0, b * gap - 1)` picks of threads allowed to run it, whatever is submitted or requeued, at
      whatever level, in between. */
  lemma BoundedOvertaking(config: MLFQConfig, queues: seq<Queue>, steps: seq<Step>, t: Task, waiting: nat)
    requires IsNormal(config) && Rises(config, t) && Waits(config, queues, steps, t, waiting)
    ensures Chances(steps, t) <= waiting + Credit(config, t)
  {
    PotentialAtEntry(config, queues[0], t, waiting);
    assert steps[..|steps|] == steps;
    RunPotential(config, queues, steps, t, |steps|);
  }

  // ----- without aging there is no bound

  /** `n` rounds of: a fresh level-0 task arrives and is picked. */
  function Passed(config: MLFQConfig, t: Task, n: nat): seq<Queue> {
    var first := Queue([t], t.sequence + 1);
    if n == 0 then [first]
    else Passed(config, t, n - 1) + [Queue([t, Fresh(t, n)], t.sequence + n + 1), Queue([t], t.sequence + n + 1)]
  }

  function Fresh(t: Task, n: nat): Task { t.(level := 0, sequence := t.sequence + n) }

  function PassingSteps(t: Task, n: nat): seq<Step> {
    if n == 0 then [] else PassingSteps(t, n - 1) + [Push(Fresh(t, n)), Pick(t.thread, 1)]
  }

  lemma {:induction false} PassedKeeps(config: MLFQConfig, t: Task, n: nat)
    requires t.work != NoWork
    ensures var queues := Passed(config, t, n);
            && |queues| == |PassingSteps(t, n)| + 1
            && queues[|queues| - 1] == Queue([t], t.sequence + n + 1)
            && (forall i :: 0 <= i < |queues| ==> t in queues[i].tasks)
    ensures RealWork(PassingSteps(t, n))
  {
    if n > 0 {
      PassedKeeps(config, t, n - 1);
    }
  }

  lemma {:induction false} PassedIsRun(config: MLFQConfig, t: Task, n: nat)
    requires IsNormal(config) && !config.enableAging && Base(config, t) > 0 && t.work != NoWork
    ensures IsRun(config, Passed(config, t, n), PassingSteps(t, n))
  {
    if n > 0 {
      PassedKeeps(config, t, n - 1);
      PassedIsRun(config, t, n - 1);
      var queues, steps := Passed(config, t, n - 1), PassingSteps(t, n - 1);
      var pushed := Queue([t, Fresh(t, n)], t.sequence + n + 1);
      OneRound(config, t, n);
      RunOfTwoMore(config, queues, steps, Push(Fresh(t, n)), pushed, Pick(t.thread, 1), Queue([t], t.sequence + n + 1));
    }
  }

  lemma {:induction false} PassedChances(t: Task, n: nat)
    ensures Chances(PassingSteps(t, n), t) == n
  {
    if n > 0 {
      PassedChances(t, n - 1);
      ChancesOfTwo(PassingSteps(t, n - 1), Push(Fresh(t, n)), Pick(t.thread, 1), t);
    }
  }

  /** With aging off, a task above level 0 can be passed over any number of times. */
  lemma StarvesWithoutAging(config: MLFQConfig, t: Task, n: nat) returns (queues: seq<Queue>, steps: seq<Step>)
    requires IsNormal(config) && !Rises(config, t) && t.work != NoWork
    ensures Waits(config, queues, steps, t, 0) && Chances(steps, t) == n
  {
    PassedKeeps(config, t, n);
    PassedIsRun(config, t, n);
    PassedChances(t, n);
    FirstPassed(config, t, n);
    queues, steps := Passed(config, t, n), PassingSteps(t, n);
  }

  ghost predicate PassedAtMost(config: MLFQConfig, t: Task, waiting: nat, bound: nat)
    requires IsNormal(config)
  {
    forall queues: seq<Queue>, steps: seq<Step> ::
      Waits(config, queues, steps, t, waiting) ==> Chances(steps, t) <= bound
  }

  /** Overtaking is bounded exactly for tasks that rise to level 0 by waiting, or are there from the start. */
  lemma BoundedExactly(config: MLFQConfig, t: Task)
    requires IsNormal(config) && t.work != NoWork
    ensures (exists bound: nat :: PassedAtMost(config, t, 0, bound)) <==> Rises(config, t)
  {
    if Rises(config, t) {
      forall queues: seq<Queue>, steps: seq<Step> | Waits(config, queues, steps, t, 0)
        ensures Chances(steps, t) <= Credit(config, t)
      {
        BoundedOvertaking(config, queues, steps, t, 0);
      }
      assert PassedAtMost(config, t, 0, Credit(config, t));
    } else {
      forall bound: nat ensures !PassedAtMost(config, t, 0, bound) {
        var queues, steps := StarvesWithoutAging(config, t, bound + 1);
      }
    }
  }

  lemma {:induction false} FirstPassed(config: MLFQConfig, t: Task, n: nat)
    ensures |Passed(config, t, n)| > 0 && Passed(config, t, n)[0] == Queue([t], t.sequence + 1)
  {
    if n > 0 {
      FirstPassed(config, t, n - 1);
    }
  }

  lemma OneRound(config: MLFQConfig, t: Task, n: nat)
    requires IsNormal(config) && !config.enableAging && Base(config, t) > 0 && n > 0
    ensures var pushed := Queue([t, Fresh(t, n)], t.sequence + n + 1);
            && IsStep(config, Queue([t], t.sequence + n), Push(Fresh(t, n)), pushed)
            && IsStep(config, pushed, Pick(t.thread, 1), Queue([t], t.sequence + n + 1))
  {
    assert Without([t, Fresh(t, n)], 1) == [t];
  }

  lemma RunOfTwoMore(config: MLFQConfig, queues: seq<Queue>, steps: seq<Step>, a: Step, mid: Queue, b: Step, end: Queue)
    requires IsNormal(config) && IsRun(config, queues, steps)
    requires IsStep(config, queues[|steps|], a, mid) && IsStep(config, mid, b, end)
    ensures IsRun(config, queues + [mid, end], steps + [a, b])
  {
    var queues', steps' := queues + [mid, end], steps + [a, b];
    forall i | 0 <= i < |steps'| ensures IsStep(config, queues'[i], steps'[i], queues'[i + 1]) {
      if i < |steps| { assert steps'[i] == steps[i]; }
    }
  }

  lemma ChancesOfTwo(steps: seq<Step>, push: Step, pick: Step, t: Task)
    requires push.Push? && pick == Pick(t.thread, 1)
    ensures Chances(steps + [push, pick], t) == Chances(steps, t) + 1
  {
    var longer := steps + [push, pick];
    assert longer[..|longer| - 1] == steps + [push];
    assert (steps + [push])[..|steps|] == steps;
  }
}

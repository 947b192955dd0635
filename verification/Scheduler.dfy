/** The task queue of the scheduler: five pick policies over one deque, numbering of tasks, MLFQ
    levels with aging, requeueing, and the count of active workers. */
module Schedulers {
  import opened Sequences

  datatype Work = NoWork | FiberWork(fiber: nat) | CallbackWork(callback: nat)

  type uint8 = n: nat | n < 256

  datatype Options = Options(thread: int, priority: int, deadlineMs: nat)

  datatype Task = Task(work: Work, thread: int, priority: int, level: uint8, deadlineMs: nat, sequence: nat)

  datatype Policy = FIFO | PRIORITY | MLFQ | EDF | HYBRID

  datatype MLFQConfig = MLFQConfig(levels: uint8, demoteOnYield: bool, enableAging: bool, agingGap: nat)

  const ANY_THREAD := -1

  function Normalize(config: MLFQConfig): (normalized: MLFQConfig)
    ensures IsNormal(normalized)
    ensures IsNormal(config) ==> normalized == config
    ensures normalized.levels == if config.levels == 0 then 1 else config.levels
    ensures normalized.agingGap == if config.agingGap == 0 then 1 else config.agingGap
    ensures normalized.demoteOnYield == config.demoteOnYield && normalized.enableAging == config.enableAging
  {
    var leveled := if config.levels == 0 then config.(levels := 1) else config;
    if leveled.agingGap == 0 then leveled.(agingGap := 1) else leveled
  }

  predicate IsNormal(config: MLFQConfig) { config.levels > 0 && config.agingGap > 0 }

  // ----- the comparators

  predicate Matches(t: Task, thread: int) { t.thread == ANY_THREAD || t.thread == thread }

  predicate BetterPriority(l: Task, r: Task) {
    if l.priority != r.priority then l.priority > r.priority else l.sequence < r.sequence
  }

  /** The level a task counts as when the next sequence number is `next`. */
  function EffectiveLevel(config: MLFQConfig, next: nat, t: Task): (level: nat)
    requires IsNormal(config)
    ensures level <= t.level && level < config.levels
  {
    var maxLevel := config.levels - 1;
    var baseLevel := if t.level > maxLevel then maxLevel else t.level;
    if !config.enableAging || baseLevel == 0 || t.sequence >= next then baseLevel
    else
      var promote := (next - t.sequence) / config.agingGap;
      if promote >= baseLevel then 0 else baseLevel - promote
  }

  predicate BetterMlfq(config: MLFQConfig, next: nat, l: Task, r: Task)
    requires IsNormal(config)
  {
    var lhs, rhs := EffectiveLevel(config, next, l), EffectiveLevel(config, next, r);
    if lhs != rhs then lhs < rhs else l.sequence < r.sequence
  }

  predicate BetterEdf(l: Task, r: Task) {
    var lhs, rhs := l.deadlineMs > 0, r.deadlineMs > 0;
    if lhs != rhs then lhs
    else if lhs && rhs && l.deadlineMs != r.deadlineMs then l.deadlineMs < r.deadlineMs
    else l.sequence < r.sequence
  }

  predicate BetterHybrid(l: Task, r: Task) {
    var lhs, rhs := l.deadlineMs > 0, r.deadlineMs > 0;
    if lhs != rhs then lhs
    else if lhs && rhs && l.deadlineMs != r.deadlineMs then l.deadlineMs < r.deadlineMs
    else BetterPriority(l, r)
  }

  /** The order of a policy; first in, first out is the order of the sequence numbers. */
  predicate Before(policy: Policy, config: MLFQConfig, next: nat, l: Task, r: Task)
    requires IsNormal(config)
  {
    match policy
    case FIFO => l.sequence < r.sequence
    case PRIORITY => BetterPriority(l, r)
    case MLFQ => BetterMlfq(config, next, l, r)
    case EDF => BetterEdf(l, r)
    case HYBRID => BetterHybrid(l, r)
  }

  /** Every policy is a strict total order on tasks with distinct sequence numbers. */
  lemma StrictTotalOrder(policy: Policy, config: MLFQConfig, next: nat, a: Task, b: Task, c: Task)
    requires IsNormal(config)
    ensures !Before(policy, config, next, a, a)
    ensures Before(policy, config, next, a, b) && Before(policy, config, next, b, c) ==>
      Before(policy, config, next, a, c)
    ensures a.sequence != b.sequence ==> (Before(policy, config, next, a, b) <==> !Before(policy, config, next, b, a))
  {
  }

  // ----- what the orders mean, said without them

  /** The task's own level, or the last one if the configuration has no such level. */
  function Base(config: MLFQConfig, t: Task): (base: nat)
    requires IsNormal(config)
    ensures base <= t.level && base < config.levels
    ensures base == t.level || base + 1 == config.levels
  {
    if t.level > config.levels - 1 then config.levels - 1 else t.level
  }

  /** The task counts as level `l` or better: it is there already, or aging is on and it has waited for as many
      gaps as it has to climb levels. */
  predicate CountsAs(config: MLFQConfig, next: nat, t: Task, l: nat)
    requires IsNormal(config)
  {
    || Base(config, t) <= l
    || (config.enableAging && t.sequence <= next && next - t.sequence >= (Base(config, t) - l) * config.agingGap)
  }

  lemma LevelAtMost(config: MLFQConfig, next: nat, t: Task, l: nat)
    requires IsNormal(config) && t.sequence < next
    ensures EffectiveLevel(config, next, t) <= l <==> CountsAs(config, next, t, l)
  {
    if l < Base(config, t) {
      DivReaches(next - t.sequence, config.agingGap, Base(config, t) - l);
    }
  }

  lemma DivReaches(wait: nat, gap: nat, b: nat)
    requires gap > 0
    ensures wait / gap >= b <==> wait >= b * gap
  {
    if wait >= b * gap {
      DivAtLeast(wait, gap, b);
    }
    if wait / gap >= b {
      MulAtMost(b, wait / gap, gap);
    }
  }

  lemma MulAtMost(x: nat, y: nat, factor: nat)
    requires x <= y
    ensures x * factor <= y * factor
  {
  }

  lemma DivAtLeast(wait: nat, gap: nat, b: nat)
    requires gap > 0 && wait >= b * gap
    ensures wait / gap >= b
  {
    var d := wait / gap;
    assert wait == d * gap + wait % gap;
    if d < b {
      MulAtMost(d + 1, b, gap);
    }
  }

  /** `picked` may be run before `other`. */
  ghost predicate Obeys(policy: Policy, config: MLFQConfig, next: nat, picked: Task, other: Task)
    requires IsNormal(config)
  {
    match policy
    case FIFO => picked.sequence < other.sequence
    case PRIORITY => Urgent(picked, other)
    case MLFQ =>
      // no higher a level, and the older task among equals
      && (forall l: nat :: CountsAs(config, next, other, l) ==> CountsAs(config, next, picked, l))
      && ((forall l: nat :: CountsAs(config, next, picked, l) ==> CountsAs(config, next, other, l)) ==>
            picked.sequence < other.sequence)
    case EDF =>
      && NoEarlierDeadline(picked, other)
      && (SameDeadline(picked, other) ==> picked.sequence < other.sequence)
    case HYBRID =>
      && NoEarlierDeadline(picked, other)
      && (SameDeadline(picked, other) ==> Urgent(picked, other))
  }

  /** At least the priority, and the older task among equals. */
  predicate Urgent(picked: Task, other: Task) {
    && picked.priority >= other.priority
    && (picked.priority == other.priority ==> picked.sequence < other.sequence)
  }

  /** A task with a deadline is met only by one with a deadline that is no later; 0 stands for none. */
  predicate NoEarlierDeadline(picked: Task, other: Task) {
    other.deadlineMs > 0 ==> 0 < picked.deadlineMs <= other.deadlineMs
  }

  predicate SameDeadline(l: Task, r: Task) { l.deadlineMs == r.deadlineMs }

  lemma BeforeObeys(policy: Policy, config: MLFQConfig, next: nat, l: Task, r: Task)
    requires IsNormal(config) && l.sequence < next && r.sequence < next
    ensures Before(policy, config, next, l, r) <==> Obeys(policy, config, next, l, r)
  {
    if policy == MLFQ {
      MlfqObeys(config, next, l, r);
    }
  }

  lemma MlfqObeys(config: MLFQConfig, next: nat, l: Task, r: Task)
    requires IsNormal(config) && l.sequence < next && r.sequence < next
    ensures BetterMlfq(config, next, l, r) <==> Obeys(MLFQ, config, next, l, r)
  {
    var lhs, rhs := EffectiveLevel(config, next, l), EffectiveLevel(config, next, r);
    forall k: nat
      ensures (lhs <= k <==> CountsAs(config, next, l, k)) && (rhs <= k <==> CountsAs(config, next, r, k))
    {
      LevelAtMost(config, next, l, k);
      LevelAtMost(config, next, r, k);
    }
    assert CountsAs(config, next, l, lhs) && CountsAs(config, next, r, rhs);
  }

  predicate MayRun(t: Task, thread: int) { t.thread == -1 || t.thread == thread }

  /** The task may be run by the thread, and before each of the others that the thread may run. */
  ghost predicate FairPick(policy: Policy, config: MLFQConfig, next: nat, thread: int, task: Task, others: seq<Task>)
    requires IsNormal(config)
  {
    MayRun(task, thread) && forall t :: t in others && MayRun(t, thread) ==> Obeys(policy, config, next, task, t)
  }

  // ----- the queue

  ghost predicate Increasing(tasks: seq<Task>, next: nat) {
    && (forall i, j :: 0 <= i < j < |tasks| ==> tasks[i].sequence < tasks[j].sequence)
    && (forall i :: 0 <= i < |tasks| ==> tasks[i].sequence < next && tasks[i].work != NoWork)
  }

  /** Position `i` holds the least of the tasks that `thread` may run. */
  ghost predicate IsPick(tasks: seq<Task>, policy: Policy, config: MLFQConfig, next: nat, thread: int, i: int)
    requires IsNormal(config)
  {
    && 0 <= i < |tasks| && Matches(tasks[i], thread)
    && forall j :: 0 <= j < |tasks| && j != i && Matches(tasks[j], thread) ==>
         Before(policy, config, next, tasks[i], tasks[j])
  }

  lemma WithoutIncreasing(tasks: seq<Task>, next: nat, i: nat)
    requires i < |tasks| && Increasing(tasks, next)
    ensures Increasing(Without(tasks, i), next)
  {
  }

  /** A pick is exactly what the policy calls for. */
  lemma PickIsFair(tasks: seq<Task>, policy: Policy, config: MLFQConfig, next: nat, thread: int, i: nat)
    requires IsNormal(config) && Increasing(tasks, next) && i < |tasks|
    ensures IsPick(tasks, policy, config, next, thread, i)
       <==> FairPick(policy, config, next, thread, tasks[i], Without(tasks, i))
  {
    if IsPick(tasks, policy, config, next, thread, i) {
      forall t | t in Without(tasks, i) && MayRun(t, thread) ensures Obeys(policy, config, next, tasks[i], t) {
        WithoutMembers(tasks, i, t);
        var j :| 0 <= j < |tasks| && j != i && tasks[j] == t;
        BeforeObeys(policy, config, next, tasks[i], tasks[j]);
      }
    }
    if FairPick(policy, config, next, thread, tasks[i], Without(tasks, i)) {
      forall j | 0 <= j < |tasks| && j != i && Matches(tasks[j], thread)
        ensures Before(policy, config, next, tasks[i], tasks[j])
      {
        WithoutMembers(tasks, i, tasks[j]);
        BeforeObeys(policy, config, next, tasks[i], tasks[j]);
      }
    }
  }

  /** The contract of the pick leaves no choice. */
  lemma PickIsUnique(tasks: seq<Task>, policy: Policy, config: MLFQConfig, next: nat, thread: int, i: int, j: int)
    requires IsNormal(config)
    requires IsPick(tasks, policy, config, next, thread, i) && IsPick(tasks, policy, config, next, thread, j)
    ensures i == j
  {
    if i != j {
      StrictTotalOrder(policy, config, next, tasks[i], tasks[j], tasks[i]);
    }
  }

  class Scheduler {
    var tasks: seq<Task>
    var policy: Policy
    var config: MLFQConfig
    var taskSequence: nat
    var activeThreadCount: nat
    var stopRequested: bool

    ghost predicate Valid()
      reads this
    {
      Increasing(tasks, taskSequence) && IsNormal(config)
    }

    constructor ()
      ensures Valid() && tasks == [] && policy == FIFO && activeThreadCount == 0 && !stopRequested
    {
      tasks, policy, config, taskSequence := [], FIFO, MLFQConfig(3, true, true, 64), 0;
      activeThreadCount, stopRequested := 0, false;
    }

    method SetPolicy(newPolicy: Policy)
      requires Valid()
      modifies this`policy
      ensures Valid() && policy == newPolicy
    {
      policy := newPolicy;
    }

    method SetMLFQConfig(newConfig: MLFQConfig)
      requires Valid()
      modifies this`config
      ensures Valid() && config == Normalize(newConfig)
    {
      config := Normalize(newConfig);
    }

    /** Enqueues the work, unless there is none; tells whether a worker must be woken. */
    method ScheduleEx(work: Work, options: Options) returns (needTickle: bool)
      requires Valid()
      modifies this`tasks, this`taskSequence
      ensures Valid()
      ensures needTickle <==> old(tasks) == []
      ensures work == NoWork ==> tasks == old(tasks) && taskSequence == old(taskSequence)
      ensures work != NoWork ==>
                && taskSequence == old(taskSequence) + 1
                && tasks
                == old(tasks) + [Task(work, options.thread, options.priority, 0, options.deadlineMs, old(taskSequence))]
    {
      needTickle := tasks == [];
      if work != NoWork {
        var task := Task(work, options.thread, options.priority, 0, options.deadlineMs, taskSequence);
        taskSequence := taskSequence + 1;
        tasks := tasks + [task];
      }
    }

    method PickNextTaskLocked(thread: int) returns (found: bool, task: Task, tickleMe: bool)
      requires Valid()
      modifies this`tasks
      ensures Valid()
      ensures found <==> exists i :: 0 <= i < |old(tasks)| && Matches(old(tasks)[i], thread)
      ensures !found ==> tasks == old(tasks)
      ensures found ==> exists i :: IsPick(old(tasks), policy, config, taskSequence, thread, i)
                                    && task == old(tasks)[i] && tasks == Without(old(tasks), i)
      ensures found ==> FairPick(policy, config, taskSequence, thread, task, tasks)
      ensures tickleMe <==> tasks != []
    {
      found, task, tickleMe := false, Task(NoWork, ANY_THREAD, 0, 0, 0, 0), false;
      if tasks == [] {
        return;
      }
      var best := |tasks|;
      if policy == FIFO {
        best, tickleMe := FirstMatch(thread);
      } else {
        best, tickleMe := LeastMatch(thread);
      }
      if best == |tasks| {
        assert !Matches(tasks[0], thread);
        return;
      }
      WithoutIncreasing(tasks, taskSequence, best);
      PickIsFair(tasks, policy, config, taskSequence, thread, best);
      found, task := true, tasks[best];
      tasks := tasks[..best] + tasks[best + 1..];
      if tasks != [] {
        tickleMe := true;
      }
    }

    /** The scan of the first-in-first-out policy. */
    method FirstMatch(thread: int) returns (it: nat, skipped: bool)
      requires Valid()
      ensures it <= |tasks|
      ensures it < |tasks| ==> IsPick(tasks, FIFO, config, taskSequence, thread, it)
      ensures it == |tasks| ==> forall j :: 0 <= j < |tasks| ==> !Matches(tasks[j], thread)
      ensures skipped <==> it > 0
    {
      it, skipped := 0, false;
      while it < |tasks|
        invariant it <= |tasks|
        invariant forall j :: 0 <= j < it ==> !Matches(tasks[j], thread)
        invariant skipped <==> it > 0
      {
        if Matches(tasks[it], thread) {
          return;
        }
        skipped := true;
        it := it + 1;
      }
    }

    /** The scan of the other policies. */
    method LeastMatch(thread: int) returns (best: nat, skipped: bool)
      requires Valid()
      ensures best <= |tasks|
      ensures best < |tasks| ==> IsPick(tasks, policy, config, taskSequence, thread, best)
      ensures best == |tasks| ==> forall j :: 0 <= j < |tasks| ==> !Matches(tasks[j], thread)
      ensures skipped <==> exists j :: 0 <= j < |tasks| && !Matches(tasks[j], thread)
    {
      best, skipped := |tasks|, false;
      var it := 0;
      while it < |tasks|
        invariant it <= |tasks|
        invariant best == |tasks| || best < it
        invariant best == |tasks| ==> forall j :: 0 <= j < it ==> !Matches(tasks[j], thread)
        invariant best < |tasks| ==> IsPick(tasks[..it], policy, config, taskSequence, thread, best)
        invariant skipped <==> exists j :: 0 <= j < it && !Matches(tasks[j], thread)
      {
        if !Matches(tasks[it], thread) {
          skipped := true;
        } else if best == |tasks| {
          best := it;
        } else {
          var better := match policy
            case FIFO => false
            case PRIORITY => BetterPriority(tasks[it], tasks[best])
            case MLFQ => BetterMlfq(config, taskSequence, tasks[it], tasks[best])
            case EDF => BetterEdf(tasks[it], tasks[best])
            case HYBRID => BetterHybrid(tasks[it], tasks[best]);
          ScanStep(tasks, policy, config, taskSequence, thread, it, best);
          if better {
            best := it;
          }
        }
        it := it + 1;
      }
      assert tasks[..it] == tasks;
    }

    // ----- the locked sections of the worker loop

    /** Takes a task and counts the worker as active under the same lock. */
    method TakeTask(thread: int) returns (found: bool, task: Task, tickleMe: bool)
      requires Valid()
      modifies this`tasks, this`activeThreadCount
      ensures Valid()
      ensures found ==> exists i :: IsPick(old(tasks), policy, config, taskSequence, thread, i)
                                    && task == old(tasks)[i] && tasks == Without(old(tasks), i)
      ensures found ==> FairPick(policy, config, taskSequence, thread, task, tasks)
      ensures !found ==> tasks == old(tasks) && forall t :: t in tasks ==> !MayRun(t, thread)
      ensures activeThreadCount == old(activeThreadCount) + (if found then 1 else 0)
      ensures tickleMe <==> tasks != []
    {
      found, task, tickleMe := PickNextTaskLocked(thread);
      if found {
        activeThreadCount := activeThreadCount + 1;
      }
    }

    /** After a fiber gave control back: under MLFQ a fiber that is still ready goes back to the queue. */
    method RequeueTask(task: Task, ready: bool) returns (requeued: bool)
      requires Valid() && task.work != NoWork
      modifies this`tasks, this`taskSequence
      ensures Valid()
      ensures requeued <==> policy == MLFQ && ready
      ensures !requeued ==> tasks == old(tasks) && taskSequence == old(taskSequence)
      ensures requeued ==>
                && taskSequence == old(taskSequence) + 1
                && tasks == old(tasks) + [task.(level := Demoted(config, task.level), sequence := old(taskSequence))]
    {
      requeued := policy == MLFQ && ready;
      if requeued {
        var maxLevel := config.levels - 1;
        var again := task;
        if config.demoteOnYield && task.level < maxLevel {
          again := again.(level := task.level + 1);
        }
        again := again.(sequence := taskSequence);
        taskSequence := taskSequence + 1;
        tasks := tasks + [again];
      }
    }

    method FinishTask()
      requires activeThreadCount > 0
      modifies this`activeThreadCount
      ensures activeThreadCount == old(activeThreadCount) - 1
    {
      activeThreadCount := activeThreadCount - 1;
    }

    method RequestStop()
      modifies this`stopRequested
      ensures stopRequested
    {
      stopRequested := true;
    }

    method Stopping() returns (stopping: bool)
      ensures stopping <==> stopRequested && tasks == [] && activeThreadCount == 0
    {
      stopping := stopRequested && tasks == [] && activeThreadCount == 0;
    }
  }

  /** One level down after a yield, never below the last level that the configuration has. */
  function Demoted(config: MLFQConfig, level: uint8): (lower: uint8)
    requires IsNormal(config)
    ensures level < config.levels ==> level <= lower < config.levels
    ensures level >= config.levels ==> lower == level
    ensures lower == level + 1 <==> config.demoteOnYield && level + 1 < config.levels
    ensures lower == level || lower == level + 1
  {
    if config.demoteOnYield && level < config.levels - 1 then level + 1 else level
  }

  /** What the primitives keep of a scheduler: a reference that its destructor cuts. */
  class SchedulerRef {
    var scheduler: Scheduler?

    constructor (s: Scheduler)
      ensures scheduler == s
    {
      scheduler := s;
    }

    method Schedule(work: Work, thread: int)
      requires scheduler != null ==> scheduler.Valid()
      modifies scheduler
      ensures scheduler != null ==> scheduler.Valid()
      ensures scheduler != null && work != NoWork ==>
                scheduler.tasks == old(scheduler.tasks) + [Task(work, thread, 0, 0, 0, old(scheduler.taskSequence))]
      ensures scheduler != null && work == NoWork ==> scheduler.tasks == old(scheduler.tasks)
    {
      if work == NoWork || scheduler == null {
        return;
      }
      var _ := scheduler.ScheduleEx(work, Options(thread, 0, 0));
    }

    method Invalidate()
      modifies this
      ensures scheduler == null
    {
      scheduler := null;
    }
  }

  /** One comparison of the scan: the winner is least among one task more. */
  lemma ScanStep(tasks: seq<Task>, policy: Policy, config: MLFQConfig, next: nat, thread: int, it: nat, best: nat)
    requires IsNormal(config) && Increasing(tasks, next) && best < it < |tasks| && Matches(tasks[it], thread)
    requires IsPick(tasks[..it], policy, config, next, thread, best)
    ensures IsPick(tasks[..it + 1], policy, config, next, thread,
                   if Before(policy, config, next, tasks[it], tasks[best]) then it else best)
  {
    forall j | 0 <= j < it
      ensures Before(policy, config, next, tasks[it], tasks[best]) ==>
                Before(policy, config, next, tasks[best], tasks[j]) ==>
                  Before(policy, config, next, tasks[it], tasks[j])
    {
      StrictTotalOrder(policy, config, next, tasks[it], tasks[best], tasks[j]);
    }
    StrictTotalOrder(policy, config, next, tasks[it], tasks[best], tasks[it]);
  }
}

/** The waiter object as the primitives handle it: shared by a queue, the fiber that made it and,
    once popped, the fiber that notifies it; its flag is written in place. */
module Waiters {
  import opened Park
  import opened Sequences
  import S = Schedulers

  /** What the current fiber is, for a waiter made on its behalf. */
  datatype Caller = Caller(waiter: Waiter, schedulerRef: S.SchedulerRef, threadId: int)

  class FiberWaiter {
    const id: Waiter
    const schedulerRef: S.SchedulerRef
    const threadId: int
    var notified: bool

    constructor (me: Caller)
      ensures id == me.waiter && schedulerRef == me.schedulerRef && threadId == me.threadId && !notified
    {
      id, schedulerRef, threadId := me.waiter, me.schedulerRef, me.threadId;
      notified := false;
    }
  }

  /** Stores the flag, then hands the fiber to its scheduler, bound to the thread it waited on; with the
      scheduler gone only the flag is stored. */
  method NotifyWaiter(waiter: FiberWaiter?)
    requires waiter != null && waiter.schedulerRef.scheduler != null ==> waiter.schedulerRef.scheduler.Valid()
    modifies waiter, if waiter == null then {} else {waiter.schedulerRef.scheduler}
    ensures waiter != null ==> waiter.notified && waiter.schedulerRef.scheduler == old(waiter.schedulerRef.scheduler)
    ensures waiter != null && waiter.schedulerRef.scheduler != null ==>
              var s := waiter.schedulerRef.scheduler;
              && s.Valid()
              && s.tasks
              == old(s.tasks) + [S.Task(S.FiberWork(waiter.id.fiber), waiter.threadId, 0, 0, 0, old(s.taskSequence))]
  {
    if waiter == null {
      return;
    }
    waiter.notified := true;
    waiter.schedulerRef.Schedule(S.FiberWork(waiter.id.fiber), waiter.threadId);
  }

  function Ids(queue: seq<FiberWaiter>): (ids: seq<Waiter>)
    ensures |ids| == |queue|
    ensures forall i :: 0 <= i < |ids| ==> ids[i] == queue[i].id
  {
    seq(|queue|, i requires 0 <= i < |queue| => queue[i].id)
  }

  lemma IdsAppend(queue: seq<FiberWaiter>, w: FiberWaiter)
    ensures Ids(queue + [w]) == Ids(queue) + [w.id]
  {
  }

  lemma IdsConcat(first: seq<FiberWaiter>, second: seq<FiberWaiter>)
    ensures Ids(first + second) == Ids(first) + Ids(second)
  {
  }

  /** The front of the queue, if any, and what remains behind it. */
  method PopWaiterFront(queue: seq<FiberWaiter>) returns (front: FiberWaiter?, rest: seq<FiberWaiter>)
    ensures queue == [] ==> front == null && rest == []
    ensures queue != [] ==> front == queue[0] && rest == queue[1..]
    ensures queue != [] ==> Ids(rest) == Ids(queue)[1..]
  {
    if queue == [] {
      return null, [];
    }
    front, rest := queue[0], queue[1..];
  }

  // ----- queues of waiters as values

  function Elements(queue: seq<Waiter>): set<Waiter> { set w | w in queue }

  lemma PopElements(queue: seq<Waiter>)
    requires Distinct(queue) && queue != []
    ensures Distinct(queue[1..]) && Elements(queue[1..]) == Elements(queue) - {queue[0]}
    ensures Elements([queue[0]]) == {queue[0]}
  {
    assert queue == [queue[0]] + queue[1..];
  }

  lemma PushElements(queue: seq<Waiter>, w: Waiter)
    requires Distinct(queue) && w !in Elements(queue)
    ensures Distinct(queue + [w]) && Elements(queue + [w]) == Elements(queue) + {w}
  {
  }
}

/** The coroutine mutex: its critical sections, updated in place and as functions on values, and the
    machine of all interleavings of `lock`, `tryLock` and `unlock` over the park / notify protocol. */
module CoMutexes {
  import opened FiberIds
  import opened Sequences
  import opened Park
  import opened Waiters

  const NO_OWNER: nat := 0xFFFF_FFFF_FFFF_FFFF

  datatype State = State(locked: bool, owner: nat, waiters: seq<Waiter>)

  // ----- critical sections on values

  /** First section of `lock`: take a free mutex, or queue up. */
  function LockSection(m: State, f: FiberId, w: Waiter): (State, bool) {
    if !m.locked then (State(true, f, m.waiters), true) else (m.(waiters := m.waiters + [w]), false)
  }

  function TryLockSection(m: State, f: FiberId): (State, bool) {
    if m.locked then (m, false) else (State(true, f, m.waiters), true)
  }

  /** `unlock`: hand the mutex to the front waiter, or free it.  Second part: the waiter popped. */
  function UnlockSection(m: State): (State, seq<Waiter>) {
    if m.waiters == [] then (State(false, NO_OWNER, []), [])
    else (m.(owner := m.waiters[0].fiber, waiters := m.waiters[1..]), [m.waiters[0]])
  }

  // ----- the same sections on the object

  class CoMutex {
    var locked: bool
    var ownerFiberId: nat
    var waiters: seq<FiberWaiter>

    function Value(): State
      reads this
    {
      State(locked, ownerFiberId, Ids(waiters))
    }

    constructor ()
      ensures Value() == State(false, NO_OWNER, [])
    {
      locked, ownerFiberId, waiters := false, NO_OWNER, [];
    }

    /** The section at the top of the loop in `lock`; a waiter is made only for the first wait of a call. */
    method LockEntry(me: Caller, made: FiberWaiter?) returns (acquired: bool, waiter: FiberWaiter?)
      requires made != null ==> made.id == me.waiter
      modifies this, made
      ensures (Value(), acquired) == LockSection(old(Value()), me.waiter.fiber, me.waiter)
      ensures acquired <==> !old(locked)
      ensures made != null ==> waiter == made
      ensures !acquired ==> waiter != null && waiter.id == me.waiter && !waiter.notified
      ensures acquired && made != null ==> made.notified == old(made.notified)
    {
      waiter := made;
      if !locked {
        locked := true;
        ownerFiberId := me.waiter.fiber;
        return true, waiter;
      }
      if waiter == null {
        waiter := new FiberWaiter(me);
      }
      waiter.notified := false;
      IdsAppend(waiters, waiter);
      waiters := waiters + [waiter];
      acquired := false;
    }

    /** The section after the suspend loop: was the mutex handed to me? */
    method Recheck(self: FiberId) returns (mine: bool)
      ensures mine <==> Value().owner == self
    {
      mine := ownerFiberId == self;
    }

    method TryLock(self: FiberId) returns (acquired: bool)
      modifies this
      ensures (Value(), acquired) == TryLockSection(old(Value()), self)
      ensures acquired <==> !old(locked)
      ensures acquired ==> locked && ownerFiberId == self
      ensures waiters == old(waiters)
    {
      if locked {
        return false;
      }
      locked := true;
      ownerFiberId := self;
      acquired := true;
    }

    method Unlock(self: FiberId) returns (next: FiberWaiter?)
      requires locked && ownerFiberId == self
      modifies this
      ensures Value() == UnlockSection(old(Value())).0
      ensures (if next == null then [] else [next.id]) == UnlockSection(old(Value())).1
      ensures next != null ==> next == old(waiters)[0]
    {
      next, waiters := PopWaiterFront(waiters);
      if next == null {
        locked := false;
        ownerFiberId := NO_OWNER;
        return;
      }
      ownerFiberId := next.id.fiber;
    }
  }

  // ----- all interleavings

  /** `inside`: fibers whose `lock` or `tryLock` succeeded and that have not called `unlock`;
      `retry`: fibers whose re-check failed and that are back at the top of the loop in `lock`. */
  datatype System = System(mutex: State, lot: Lot, inside: set<FiberId>, retry: set<FiberId>)

  datatype Action =
    | Lock(fiber: FiberId)
    | Recheck(fiber: FiberId)
    | TryLock(fiber: FiberId)
    | Unlock(fiber: FiberId)
    | Protocol(step: Park.Step)

  ghost predicate CanDo(s: System, a: Action) {
    match a
    case Lock(f) =>  // non-recursive
      CanEnter(s.lot, f) && f !in s.inside && (s.lot.locals[f].phase == Outside || f in s.retry)
    case Recheck(f) => CanEnter(s.lot, f) && s.lot.locals[f].phase == Woken && f !in s.retry
    case TryLock(f) => CanEnter(s.lot, f) && s.lot.locals[f].phase == Outside
    case Unlock(f) => CanEnter(s.lot, f) && s.lot.locals[f].phase == Outside && f in s.inside
    case Protocol(step) => Enabled(s.lot, step)
  }

  ghost function Do(s: System, a: Action): System
    requires CanDo(s, a)
  {
    match a
    case Lock(f) =>
      var (m, acquired) := LockSection(s.mutex, f, Own(s.lot, f));
      System(m, Section(s.lot, f, !acquired, []), if acquired then s.inside + {f} else s.inside, s.retry - {f})
    case Recheck(f) =>
      if s.mutex.owner == f
      then s.(lot := Section(s.lot, f, false, []), inside := s.inside + {f})
      else s.(retry := s.retry + {f})
    case TryLock(f) =>
      var (m, acquired) := TryLockSection(s.mutex, f);
      System(m, Section(s.lot, f, false, []), if acquired then s.inside + {f} else s.inside, s.retry)
    case Unlock(f) =>
      var (m, popped) := UnlockSection(s.mutex);
      System(m, Section(s.lot, f, false, popped), s.inside - {f}, s.retry)
    case Protocol(step) => s.(lot := Apply(s.lot, step))
  }

  ghost predicate Init(s: System) {
    s.mutex == State(false, NO_OWNER, []) && Park.Init(s.lot) && s.inside == {} && s.retry == {}
  }

  // ----- invariant

  /** `f` was handed the mutex: it is still inside `lock`, but its waiter is no longer queued. */
  ghost predicate Granted(s: System, f: FiberId) {
    f in s.lot.locals && s.lot.locals[f].phase != Outside && Current(s.lot, f) !in s.mutex.waiters
  }

  ghost predicate OwnerOk(s: System) {
    && (!s.mutex.locked ==> s.mutex.owner == NO_OWNER && s.mutex.waiters == [])
    && (forall f :: f in s.inside || Granted(s, f) ==> s.mutex.locked && s.mutex.owner == f)
    && (forall f :: f in s.inside ==> f in s.lot.locals && s.lot.locals[f].phase == Outside)
    && (s.mutex.locked ==> exists f: FiberId :: f in s.inside || Granted(s, f))
  }

  ghost predicate Inv(s: System) {
    && Distinct(s.mutex.waiters)
    && Park.Inv(s.lot, Elements(s.mutex.waiters))
    && OwnerOk(s)
    && s.retry == {}
  }

  lemma InitInv(s: System)
    requires Init(s)
    ensures Inv(s)
  {
    Park.InitInv(s.lot);
  }

  /** A woken waiter is always already the owner: the re-check never fails, the loop body runs once. */
  lemma WokenIsOwner(s: System, f: FiberId)
    requires Inv(s) && f in s.lot.locals && s.lot.locals[f].phase == Woken
    ensures s.mutex.locked && s.mutex.owner == f
  {
    assert Current(s.lot, f) in s.lot.notified;
    assert Current(s.lot, f) !in Elements(s.mutex.waiters);
    assert Granted(s, f);
  }

  lemma LockInv(s: System, f: FiberId)
    requires Inv(s) && CanDo(s, Lock(f))
    ensures Inv(Do(s, Lock(f)))
  {
    var w := Own(s.lot, f);
    var next := Do(s, Lock(f));
    var parked' := Elements(next.mutex.waiters);
    if s.mutex.locked {
      ResetErasesNothing(s.lot, Elements(s.mutex.waiters), f);
      PushElements(s.mutex.waiters, w);
    }
    SectionInv(s.lot, Elements(s.mutex.waiters), f, s.mutex.locked, [], parked');
    forall h | h != f ensures Granted(next, h) == Granted(s, h) {}
    var o :| !s.mutex.locked || o in s.inside || Granted(s, o);
    assert !s.mutex.locked ==> f in next.inside;
    assert s.mutex.locked ==> o in next.inside || Granted(next, o);
  }

  lemma RecheckInv(s: System, f: FiberId)
    requires Inv(s) && CanDo(s, Recheck(f))
    ensures Inv(Do(s, Recheck(f))) && f in Do(s, Recheck(f)).inside && Do(s, Recheck(f)).mutex == s.mutex
  {
    WokenIsOwner(s, f);
    SectionInv(s.lot, Elements(s.mutex.waiters), f, false, [], Elements(s.mutex.waiters));
    RecheckOwner(s, f);
  }

  lemma RecheckOwner(s: System, f: FiberId)
    requires OwnerOk(s) && CanDo(s, Recheck(f)) && s.mutex.owner == f && s.mutex.locked
    ensures OwnerOk(Do(s, Recheck(f)))
  {
    var next := Do(s, Recheck(f));
    forall h ensures Granted(next, h) <==> Granted(s, h) && h != f {}
    assert f in next.inside;
  }

  lemma TryLockInv(s: System, f: FiberId)
    requires Inv(s) && CanDo(s, TryLock(f))
    ensures Inv(Do(s, TryLock(f)))
  {
    var next := Do(s, TryLock(f));
    SectionInv(s.lot, Elements(s.mutex.waiters), f, false, [], Elements(next.mutex.waiters));
    forall h ensures Granted(next, h) == Granted(s, h) {}
    assert !s.mutex.locked ==> f in next.inside;
  }

  /** In particular the two assertions of `unlock` hold. */
  lemma UnlockInv(s: System, f: FiberId)
    requires Inv(s) && CanDo(s, Unlock(f))
    ensures s.mutex.locked && s.mutex.owner == f
    ensures Inv(Do(s, Unlock(f)))
  {
    var q := s.mutex.waiters;
    var next := Do(s, Unlock(f));
    if q == [] {
      SectionInv(s.lot, Elements(q), f, false, [], Elements(q));
      forall h ensures Granted(next, h) == Granted(s, h) {}
    } else {
      PopElements(q);
      assert q[0] in Elements(q) && q[0] !in Elements(q[1..]);
      SectionInv(s.lot, Elements(q), f, false, [q[0]], Elements(q[1..]));
      HandOver(s, f);
    }
  }

  lemma HandOver(s: System, f: FiberId)
    requires Inv(s) && CanDo(s, Unlock(f)) && s.mutex.waiters != []
    ensures OwnerOk(Do(s, Unlock(f)))
  {
    var q := s.mutex.waiters;
    var next := Do(s, Unlock(f));
    assert q[0] in Elements(q);
    assert q == [q[0]] + q[1..];
    assert Granted(next, q[0].fiber);
    forall h ensures Granted(next, h) <==> Granted(s, h) || h == q[0].fiber {}
    assert forall h :: !(h in s.inside && h != f);
  }

  lemma ProtocolInv(s: System, step: Park.Step)
    requires Inv(s) && Enabled(s.lot, step)
    ensures Inv(Do(s, Protocol(step)))
  {
    var next := Do(s, Protocol(step));
    StepInv(s.lot, Elements(s.mutex.waiters), step);
    StepFrame(s.lot, step);
    forall h ensures Granted(next, h) == Granted(s, h) {}
  }

  lemma DoInv(s: System, a: Action)
    requires Inv(s) && CanDo(s, a)
    ensures Inv(Do(s, a))
  {
    match a {
      case Lock(f) => LockInv(s, f);
      case Recheck(f) => RecheckInv(s, f);
      case TryLock(f) => TryLockInv(s, f);
      case Unlock(f) => UnlockInv(s, f);
      case Protocol(step) => ProtocolInv(s, step);
    }
  }

  // ----- whole runs

  ghost predicate IsRun(states: seq<System>, actions: seq<Action>) {
    && |states| == |actions| + 1
    && forall i {:trigger actions[i]} :: 0 <= i < |actions| ==>
         CanDo(states[i], actions[i]) && states[i + 1] == Do(states[i], actions[i])
  }

  lemma {:induction false} RunInv(states: seq<System>, actions: seq<Action>, n: nat)
    requires IsRun(states, actions) && Inv(states[0]) && n < |states|
    ensures Inv(states[n])
  {
    if n > 0 {
      RunInv(states, actions, n - 1);
      DoInv(states[n - 1], actions[n - 1]);
    }
  }

  /** In every state of every run at most one fiber is inside, it is the recorded owner, nobody ever
      fails the re-check, and an unlocked mutex has no owner and nobody queued. */
  lemma MutualExclusion(states: seq<System>, actions: seq<Action>, n: nat)
    requires IsRun(states, actions) && Init(states[0]) && n < |states|
    ensures var s := states[n];
            && (forall f, g :: f in s.inside && g in s.inside ==> f == g)
            && (forall f :: f in s.inside ==> s.mutex.locked && s.mutex.owner == f)
            && s.retry == {}
            && (!s.mutex.locked ==> s.mutex.owner == NO_OWNER && s.mutex.waiters == [])
  {
    InitInv(states[0]);
    RunInv(states, actions, n);
  }

  function Unlocks(actions: seq<Action>): nat {
    if actions == [] then 0
    else Unlocks(actions[..|actions| - 1]) + (if actions[|actions| - 1].Unlock? then 1 else 0)
  }

  ghost predicate HandedOff(queue: seq<Waiter>, firstOwner: nat, u: nat, m: State) {
    && u <= |queue|
    && queue[u..] <= m.waiters
    && m.locked
    && m.owner == if u == 0 then firstOwner else queue[u - 1].fiber
  }

  lemma HandOffStep(queue: seq<Waiter>, firstOwner: nat, u: nat, s: System, a: Action)
    requires CanDo(s, a) && HandedOff(queue, firstOwner, u, s.mutex)
    requires a.Unlock? ==> u < |queue|
    ensures HandedOff(queue, firstOwner, if a.Unlock? then u + 1 else u, Do(s, a).mutex)
  {
    if a.Unlock? {
      assert s.mutex.waiters[0] == queue[u..][0];
      assert queue[u + 1..] == queue[u..][1..];
    }
  }

  /** First come, first served, with no barging: after `u` unlocks exactly the first `u` waiters of the queue
      are gone, the rest are still queued in the same order ahead of newcomers, and the mutex belongs to the
      `u`-th of them; before the first unlock the owner keeps it. So the k-th waiter gets it at unlock k. */
  lemma {:induction false} HandOffIsFifo(states: seq<System>, actions: seq<Action>, n: nat)
    requires IsRun(states, actions) && states[0].mutex.locked && n <= |actions|
    requires Unlocks(actions[..n]) <= |states[0].mutex.waiters|
    ensures HandedOff(states[0].mutex.waiters, states[0].mutex.owner, Unlocks(actions[..n]), states[n].mutex)
  {
    if n > 0 {
      assert actions[..n][..n - 1] == actions[..n - 1];
      HandOffIsFifo(states, actions, n - 1);
      var first := states[0].mutex;
      HandOffStep(first.waiters, first.owner, Unlocks(actions[..n - 1]), states[n - 1], actions[n - 1]);
    }
  }

  lemma HeldWhenQuiet(s: System)
    requires Inv(s) && s.mutex.waiters != [] && Quiet(s.lot)
    ensures exists f :: f in s.inside && s.mutex.owner == f
  {
    var f :| f in s.inside || Granted(s, f);
    if Granted(s, f) {
      QuietMeansParked(s.lot, Elements(s.mutex.waiters), f);
    }
  }

  /** No lost wake-up: in every quiet state of every run fibers wait for this mutex only because some fiber is
      inside and has not called `unlock`. */
  lemma QuietMutexIsHeld(states: seq<System>, actions: seq<Action>, n: nat)
    requires IsRun(states, actions) && Init(states[0]) && n < |states|
    requires Quiet(states[n].lot) && states[n].mutex.waiters != []
    ensures exists f :: f in states[n].inside && states[n].mutex.owner == f
  {
    InitInv(states[0]);
    RunInv(states, actions, n);
    HeldWhenQuiet(states[n]);
  }

  // ----- what the calls answer

  /** `tryLock` succeeds exactly on a free mutex, and then the fiber is inside; it never blocks. */
  lemma TryLockAnswers(states: seq<System>, actions: seq<Action>, n: nat, f: FiberId)
    requires IsRun(states, actions) && Init(states[0]) && n < |actions| && actions[n] == TryLock(f)
    ensures var s, next := states[n], states[n + 1];
            && (f in next.inside <==> f in s.inside || !s.mutex.locked)
            && (!s.mutex.locked ==> next.inside == {f} && next.mutex.locked && next.mutex.owner == f)
            && (s.mutex.locked ==> next.mutex == s.mutex && next.inside == s.inside)
            && f in next.lot.locals && next.lot.locals[f].phase == Outside
  {
    InitInv(states[0]);
    RunInv(states, actions, n);
    RunInv(states, actions, n + 1);
    assert CanDo(states[n], actions[n]) && states[n + 1] == Do(states[n], actions[n]);
  }

  /** `lock` takes a free mutex at once; a locked one is left to its owner, and the fiber waits last in the queue. */
  lemma LockAnswers(states: seq<System>, actions: seq<Action>, n: nat, f: FiberId)
    requires IsRun(states, actions) && Init(states[0]) && n < |actions| && actions[n] == Lock(f)
    ensures var s, next := states[n], states[n + 1];
            && f in next.lot.locals
            && (!s.mutex.locked ==>
                  && next.inside == {f} && next.mutex.locked && next.mutex.owner == f && next.mutex.waiters == []
                  && next.lot.locals[f].phase == Outside)
            && (s.mutex.locked ==>
                  && next.inside == s.inside && next.mutex.locked && next.mutex.owner == s.mutex.owner
                  && next.mutex.waiters == s.mutex.waiters + [Current(next.lot, f)]
                  && next.lot.locals[f].phase == Checking && Current(next.lot, f) !in next.lot.notified)
  {
    InitInv(states[0]);
    RunInv(states, actions, n);
    RunInv(states, actions, n + 1);
    assert CanDo(states[n], actions[n]) && states[n + 1] == Do(states[n], actions[n]);
  }

  /** `unlock` leaves the fiber outside; it owes the flag to the front waiter, if there is one, and to nobody else. */
  lemma UnlockAnswers(states: seq<System>, actions: seq<Action>, n: nat, f: FiberId)
    requires IsRun(states, actions) && Init(states[0]) && n < |actions| && actions[n] == Unlock(f)
    ensures var s, next := states[n], states[n + 1]; var q := s.mutex.waiters;
            && f !in next.inside && f in next.lot.locals && next.lot.locals[f].phase == Outside
            && (next.mutex.locked <==> q != [])
            && (q != [] ==> next.mutex.owner == q[0].fiber && next.mutex.waiters == q[1..])
            && next.lot.locals[f].todo == if q == [] then [] else [q[0]]
  {
    InitInv(states[0]);
    RunInv(states, actions, n);
    assert CanDo(states[n], actions[n]) && states[n + 1] == Do(states[n], actions[n]);
  }
}

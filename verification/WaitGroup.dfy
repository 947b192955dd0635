/** The wait group: its critical sections in place and on values, and the machine of all interleavings
    of `add`, `done` and `wait`, over any number of rounds. */
module WaitGroups {
  import opened FiberIds
  import opened Sequences
  import opened Park
  import opened Waiters

  datatype State = State(count: int, waiters: seq<Waiter>)

  // ----- critical sections on values

  /** `add`: the waiters popped are those to wake, in order. */
  function AddSection(g: State, delta: int): (State, seq<Waiter>) {
    if g.count + delta == 0 then (State(0, []), g.waiters) else (g.(count := g.count + delta), [])
  }

  /** One turn of the loop in `wait`; the second part tells whether the call returns. */
  function WaitSection(g: State, w: Waiter): (State, bool) {
    if g.count == 0 then (g, true) else (g.(waiters := g.waiters + [w]), false)
  }

  // ----- the same sections on the object

  class WaitGroup {
    var count: int
    var waiters: seq<FiberWaiter>

    function Value(): State
      reads this
    {
      State(count, Ids(waiters))
    }

    constructor ()
      ensures Value() == State(0, [])
    {
      count, waiters := 0, [];
    }

    /** The section of `add`; the balanced use the source asserts is its precondition. */
    method AddEntry(delta: int) returns (toWake: seq<FiberWaiter>)
      requires count + delta >= 0
      modifies this
      ensures (Value(), Ids(toWake)) == AddSection(old(Value()), delta)
      ensures count == old(count) + delta
      ensures toWake == if count == 0 then old(waiters) else []
    {
      toWake := [];
      count := count + delta;
      if count == 0 {
        while waiters != []
          invariant toWake + waiters == old(waiters)
          invariant count == old(count) + delta
          decreases |waiters|
        {
          var front;
          front, waiters := PopWaiterFront(waiters);
          toWake := toWake + [front];
        }
        assert toWake == old(waiters);
      }
    }

    method WaitEntry(me: Caller, made: FiberWaiter?) returns (done: bool, waiter: FiberWaiter?)
      requires made != null ==> made.id == me.waiter
      modifies this, made
      ensures (Value(), done) == WaitSection(old(Value()), me.waiter)
      ensures done <==> old(count) == 0
      ensures count == old(count)
      ensures made != null ==> waiter == made
      ensures !done ==> waiter != null && waiter.id == me.waiter && !waiter.notified
      ensures done && made != null ==> made.notified == old(made.notified)
    {
      waiter := made;
      if count == 0 {
        return true, waiter;
      }
      if waiter == null {
        waiter := new FiberWaiter(me);
      }
      waiter.notified := false;
      IdsAppend(waiters, waiter);
      waiters := waiters + [waiter];
      done := false;
    }
  }

  // ----- all interleavings

  datatype System = System(group: State, lot: Lot)

  datatype Action =
    | Add(fiber: FiberId, delta: int)
    | Wait(fiber: FiberId)
    | Protocol(step: Park.Step)

  ghost predicate CanDo(s: System, a: Action) {
    match a
    case Add(f, delta) => CanEnter(s.lot, f) && s.lot.locals[f].phase == Outside && s.group.count + delta >= 0
    case Wait(f) => CanEnter(s.lot, f)
    case Protocol(step) => Enabled(s.lot, step)
  }

  ghost function Do(s: System, a: Action): System
    requires CanDo(s, a)
  {
    match a
    case Add(f, delta) =>
      var (g, popped) := AddSection(s.group, delta);
      System(g, Section(s.lot, f, false, popped))
    case Wait(f) =>
      var (g, done) := WaitSection(s.group, Own(s.lot, f));
      System(g, Section(s.lot, f, !done, []))
    case Protocol(step) => s.(lot := Apply(s.lot, step))
  }

  ghost predicate Init(s: System) {
    s.group == State(0, []) && Park.Init(s.lot)
  }

  ghost predicate Inv(s: System) {
    && s.group.count >= 0
    && (s.group.count == 0 ==> s.group.waiters == [])
    && Distinct(s.group.waiters)
    && Park.Inv(s.lot, Elements(s.group.waiters))
  }

  lemma AddInv(s: System, f: FiberId, delta: int)
    requires Inv(s) && CanDo(s, Add(f, delta))
    ensures Inv(Do(s, Add(f, delta)))
  {
    var next := Do(s, Add(f, delta));
    SectionInv(s.lot, Elements(s.group.waiters), f, false, AddSection(s.group, delta).1, Elements(next.group.waiters));
  }

  lemma WaitInv(s: System, f: FiberId)
    requires Inv(s) && CanDo(s, Wait(f))
    ensures Inv(Do(s, Wait(f)))
  {
    var next := Do(s, Wait(f));
    if s.group.count != 0 {
      ResetErasesNothing(s.lot, Elements(s.group.waiters), f);
      PushElements(s.group.waiters, Own(s.lot, f));
    }
    SectionInv(s.lot, Elements(s.group.waiters), f, s.group.count != 0, [], Elements(next.group.waiters));
  }

  lemma DoInv(s: System, a: Action)
    requires Inv(s) && CanDo(s, a)
    ensures Inv(Do(s, a))
  {
    match a {
      case Add(f, delta) => AddInv(s, f, delta);
      case Wait(f) => WaitInv(s, f);
      case Protocol(step) => StepInv(s.lot, Elements(s.group.waiters), step);
    }
  }

  // ----- whole runs

  ghost predicate IsRun(states: seq<System>, actions: seq<Action>) {
    && |states| == |actions| + 1
    && forall i {:trigger actions[i]} :: 0 <= i < |actions| ==>
         CanDo(states[i], actions[i]) && states[i + 1] == Do(states[i], actions[i])
  }

  lemma {:induction false} RunInv(states: seq<System>, actions: seq<Action>, n: nat)
    requires IsRun(states, actions) && Init(states[0]) && n < |states|
    ensures Inv(states[n])
  {
    if n == 0 {
      Park.InitInv(states[0].lot);
    } else {
      RunInv(states, actions, n - 1);
      DoInv(states[n - 1], actions[n - 1]);
    }
  }

  /** In every state of every run: the count is not negative, count zero means nobody is queued, and every
      waiter was notified exactly once per time it was queued, except for the last time while it is still
      queued or still in the list of the fiber that brought the count to zero. */
  lemma CountAndNotifications(states: seq<System>, actions: seq<Action>, n: nat, w: Waiter)
    requires IsRun(states, actions) && Init(states[0]) && n < |states|
    ensures var s := states[n];
            && s.group.count >= 0
            && (s.group.count == 0 ==> s.group.waiters == [])
            && s.lot.pushes[w] == s.lot.stores[w] + (if w in s.group.waiters || Owed(s.lot, w) then 1 else 0)
            && !(w in s.group.waiters && Owed(s.lot, w))
  {
    RunInv(states, actions, n);
    assert w in Elements(states[n].group.waiters) <==> w in states[n].group.waiters;
  }

  /** The `add` that reaches zero takes over the whole queue, in order and without repetition. */
  lemma ZeroWakesEverybody(s: System, f: FiberId, delta: int)
    requires Inv(s) && CanDo(s, Add(f, delta)) && s.group.count + delta == 0
    ensures Do(s, Add(f, delta)).lot.locals[f].todo == s.group.waiters
    ensures forall w :: w in s.group.waiters ==> Owed(Do(s, Add(f, delta)).lot, w)
    ensures Do(s, Add(f, delta)).group.waiters == []
  {
    SectionOwed(s.lot, f, false, s.group.waiters);
  }

  /** What the `add` and `done` calls sum up to. */
  function Balance(actions: seq<Action>): int {
    if actions == [] then 0
    else
      var last := actions[|actions| - 1];
      Balance(actions[..|actions| - 1]) + (if last.Add? then last.delta else 0)
  }

  /** In every state of every run the count is what was added so far. */
  lemma {:induction false} CountIsBalance(states: seq<System>, actions: seq<Action>, n: nat)
    requires IsRun(states, actions) && Init(states[0]) && n <= |actions|
    ensures states[n].group.count == Balance(actions[..n]) >= 0
  {
    RunInv(states, actions, n);
    if n > 0 {
      CountIsBalance(states, actions, n - 1);
      assert actions[..n][..n - 1] == actions[..n - 1];
      assert states[n] == Do(states[n - 1], actions[n - 1]);
    }
  }

  /** `wait` returns from its section exactly when everything added was done; otherwise the fiber waits last in
      the queue. */
  lemma WaitAnswers(states: seq<System>, actions: seq<Action>, n: nat, f: FiberId)
    requires IsRun(states, actions) && Init(states[0]) && n < |actions| && actions[n] == Wait(f)
    ensures var s, next := states[n], states[n + 1];
            && f in next.lot.locals && next.group.count == s.group.count
            && (next.lot.locals[f].phase == Outside <==> Balance(actions[..n]) == 0)
            && (Balance(actions[..n]) == 0 ==> next.group == s.group)
            && (Balance(actions[..n]) != 0 ==>
                  && next.group.waiters == s.group.waiters + [Current(next.lot, f)]
                  && next.lot.locals[f].phase == Checking && Current(next.lot, f) !in next.lot.notified)
  {
    CountIsBalance(states, actions, n);
    assert CanDo(states[n], actions[n]) && states[n + 1] == Do(states[n], actions[n]);
  }

  /** `add` wakes the whole queue, in order, exactly when it makes the balance zero, and nobody otherwise. */
  lemma AddAnswers(states: seq<System>, actions: seq<Action>, n: nat, f: FiberId, delta: int)
    requires IsRun(states, actions) && Init(states[0]) && n < |actions| && actions[n] == Add(f, delta)
    ensures var s, next := states[n], states[n + 1];
            && f in next.lot.locals && next.lot.locals[f].phase == Outside
            && if Balance(actions[..n]) + delta == 0
               then next.lot.locals[f].todo == s.group.waiters && next.group.waiters == []
               else next.lot.locals[f].todo == [] && next.group.waiters == s.group.waiters
  {
    CountIsBalance(states, actions, n);
    assert CanDo(states[n], actions[n]) && states[n + 1] == Do(states[n], actions[n]);
  }

  /** No lost wake-up: in every quiet state of every run a fiber is still inside `wait` only if more was added
      than done, and then it is queued. */
  lemma QuietWaitersAreOwedWork(states: seq<System>, actions: seq<Action>, n: nat, f: FiberId)
    requires IsRun(states, actions) && Init(states[0]) && n < |states| && Quiet(states[n].lot)
    requires f in states[n].lot.locals && states[n].lot.locals[f].phase != Outside
    ensures n <= |actions| && Balance(actions[..n]) > 0
    ensures Current(states[n].lot, f) in states[n].group.waiters
  {
    RunInv(states, actions, n);
    CountIsBalance(states, actions, n);
    QuietMeansParked(states[n].lot, Elements(states[n].group.waiters), f);
  }
}

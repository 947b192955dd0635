/** The park / notify protocol that CoMutex, WaitGroup and Channel are built on, together with
    the part of the scheduler that carries its wake-ups.

    One `Lot` is the state of every fiber with respect to one primitive.  A step is one lock
    section or one atomic access, so every interleaving of the source is a sequence of steps:

      * `Section`  a critical section of the primitive: it may push the running fiber's own waiter
                   (its flag reset under the same lock) and pop waiters of others;
      * `Store`    the notifier stores `true` into the flag of the next popped waiter;
      * `Schedule` the notifier hands that waiter's fiber to the scheduler (a resume token);
      * `Check`    the parked fiber loads its flag; `Yield` it switches out;
      * `Pick`, `Resume`, `PutDown`  a worker takes a token, gets the fiber's mutex and resumes it,
                   and is done with it again.

    The queues of the primitive are known here only as the set `parked` of the waiters in them. */
module Park {

  import opened FiberIds

  /** A waiter object: the fiber it belongs to and the number of the blocking call that made it. */
  datatype Waiter = Waiter(fiber: FiberId, call: nat)

  datatype Phase =
    | Outside    // not blocked in a call
    | Checking   // in the suspend loop, about to load its flag
    | Yielding   // loaded `false`, about to switch out
    | Suspended  // switched out
    | Woken      // loaded `true`, about to take the primitive's lock again

  /** `todo`: waiters this fiber popped and still has to notify before it goes on in `phase`;
      `stored`: the flag of the first of them is stored, its fiber is not scheduled yet. */
  datatype Local = Local(phase: Phase, call: nat, todo: seq<Waiter>, stored: bool)

  datatype Hand =
    | Free
    | Picked(fiber: FiberId)   // took a token, waits for the fiber's mutex
    | Running(fiber: FiberId)  // holds the fiber's mutex, the fiber executes
    | Done(fiber: FiberId)     // the fiber switched out, the mutex is free again

  /** `pushes` and `stores` count, per waiter, how often it was queued and how often its flag was stored. */
  datatype Lot = Lot(
    locals: map<FiberId, Local>,
    notified: set<Waiter>,
    terminated: set<FiberId>,
    tokens: multiset<FiberId>,
    hands: map<nat, Hand>,
    pushes: multiset<Waiter>,
    stores: multiset<Waiter>)

  datatype Step =
    | Store(notifier: FiberId)
    | Schedule(notifier: FiberId)
    | Check(fiber: FiberId)
    | Yield(worker: nat)       // from the suspend loop
    | Leave(worker: nat)       // a yield outside any blocking call
    | Finish(worker: nat)      // the fiber's body ends
    | Foreign(fiber: FiberId)  // somebody else schedules the fiber: first submission or a stray token
    | Pick(worker: nat, fiber: FiberId)
    | Resume(worker: nat)
    | PutDown(worker: nat, requeue: bool)

  // ----- vocabulary

  ghost predicate Runs(lot: Lot, f: FiberId) {
    exists k :: k in lot.hands && lot.hands[k] == Running(f)
  }

  ghost predicate Waiting(lot: Lot, f: FiberId) {
    f in lot.locals && lot.locals[f].phase in {Checking, Yielding, Suspended}
  }

  function Current(lot: Lot, f: FiberId): Waiter
    requires f in lot.locals
  {
    Waiter(f, lot.locals[f].call)
  }

  /** The waiter a section of `f` would queue: a retry reuses the waiter of the call, a new call makes one. */
  function Own(lot: Lot, f: FiberId): Waiter
    requires f in lot.locals
  {
    if lot.locals[f].phase == Woken then Current(lot, f) else Waiter(f, lot.locals[f].call + 1)
  }

  /** Entry `i` of `g`'s list is popped, but its flag is not stored yet. */
  ghost predicate Owes(lot: Lot, g: FiberId, i: int) {
    g in lot.locals && 0 <= i < |lot.locals[g].todo| && (i > 0 || !lot.locals[g].stored)
  }

  ghost predicate Owed(lot: Lot, w: Waiter) {
    exists g, i :: Owes(lot, g, i) && lot.locals[g].todo[i] == w
  }

  /** `g` has stored the flag of a waiter of `f` and is about to schedule `f`. */
  ghost predicate Scheduling(lot: Lot, g: FiberId, f: FiberId) {
    g in lot.locals && lot.locals[g].stored && |lot.locals[g].todo| > 0 && lot.locals[g].todo[0].fiber == f
  }

  ghost predicate HasToken(lot: Lot, f: FiberId) {
    || (exists g :: Scheduling(lot, g, f))
    || lot.tokens[f] > 0
    || (exists k :: k in lot.hands && lot.hands[k] == Picked(f))
  }

  // ----- steps

  /** `f` is executing code of the primitive's caller and may enter a critical section. */
  ghost predicate CanEnter(lot: Lot, f: FiberId) {
    && f in lot.locals
    && Runs(lot, f)
    && lot.locals[f].todo == []
    && lot.locals[f].phase in {Outside, Woken}
  }

  /** The effect of a critical section of `f` on the protocol state. */
  function Section(lot: Lot, f: FiberId, push: bool, popped: seq<Waiter>): Lot
    requires f in lot.locals
  {
    var w := Own(lot, f);
    if push then
      lot.(locals := lot.locals[f := Local(Checking, w.call, popped, false)],
           notified := lot.notified - {w},
           pushes := lot.pushes + multiset{w})
    else
      lot.(locals := lot.locals[f := lot.locals[f].(phase := Outside, todo := popped, stored := false)])
  }

  ghost predicate Enabled(lot: Lot, step: Step) {
    match step
    case Store(g) =>
      g in lot.locals && Runs(lot, g) && lot.locals[g].todo != [] && !lot.locals[g].stored
    case Schedule(g) =>
      g in lot.locals && Runs(lot, g) && lot.locals[g].todo != [] && lot.locals[g].stored
    case Check(f) =>
      f in lot.locals && Runs(lot, f) && lot.locals[f].todo == [] && lot.locals[f].phase == Checking
    case Yield(k) =>
      && k in lot.hands && lot.hands[k].Running? && lot.hands[k].fiber in lot.locals
      && lot.locals[lot.hands[k].fiber].phase == Yielding
    case Leave(k) =>
      && k in lot.hands && lot.hands[k].Running? && lot.hands[k].fiber in lot.locals
      && lot.locals[lot.hands[k].fiber].phase == Outside && lot.locals[lot.hands[k].fiber].todo == []
    case Finish(k) =>
      && k in lot.hands && lot.hands[k].Running? && lot.hands[k].fiber in lot.locals
      && lot.locals[lot.hands[k].fiber].phase == Outside && lot.locals[lot.hands[k].fiber].todo == []
    case Foreign(f) => f in lot.locals
    case Pick(k, f) => k in lot.hands && lot.hands[k] == Free && lot.tokens[f] > 0
    case Resume(k) =>
      // the fiber's mutex is free
      k in lot.hands && lot.hands[k].Picked? && lot.hands[k].fiber in lot.locals && !Runs(lot, lot.hands[k].fiber)
    case PutDown(k, _) => k in lot.hands && lot.hands[k].Done?
  }

  ghost function Apply(lot: Lot, step: Step): Lot
    requires Enabled(lot, step)
  {
    match step
    case Store(g) =>
      var w := lot.locals[g].todo[0];
      lot.(locals := lot.locals[g := lot.locals[g].(stored := true)],
           notified := lot.notified + {w},
           stores := lot.stores + multiset{w})
    case Schedule(g) =>
      lot.(locals := lot.locals[g := lot.locals[g].(todo := lot.locals[g].todo[1..], stored := false)],
           tokens := lot.tokens + multiset{lot.locals[g].todo[0].fiber})
    case Check(f) =>
      var next := if Current(lot, f) in lot.notified then Woken else Yielding;
      lot.(locals := lot.locals[f := lot.locals[f].(phase := next)])
    case Yield(k) =>
      var f := lot.hands[k].fiber;
      lot.(locals := lot.locals[f := lot.locals[f].(phase := Suspended)], hands := lot.hands[k := Done(f)])
    case Leave(k) =>
      lot.(hands := lot.hands[k := Done(lot.hands[k].fiber)])
    case Finish(k) =>
      var f := lot.hands[k].fiber;
      lot.(terminated := lot.terminated + {f}, hands := lot.hands[k := Done(f)])
    case Foreign(f) => lot.(tokens := lot.tokens + multiset{f})
    case Pick(k, f) => lot.(tokens := lot.tokens - multiset{f}, hands := lot.hands[k := Picked(f)])
    case Resume(k) =>
      var f := lot.hands[k].fiber;
      if f in lot.terminated then
        lot.(hands := lot.hands[k := Done(f)])
      else if lot.locals[f].phase == Suspended then
        lot.(locals := lot.locals[f := lot.locals[f].(phase := Checking)], hands := lot.hands[k := Running(f)])
      else
        lot.(hands := lot.hands[k := Running(f)])
    case PutDown(k, requeue) =>
      var f := lot.hands[k].fiber;
      lot.(hands := lot.hands[k := Free],
           tokens := if requeue then lot.tokens + multiset{f} else lot.tokens)
  }

  // ----- invariant

  /** A fiber executes on at most one worker; code runs only there; a resumable fiber is never executing. */
  ghost predicate RunningOk(lot: Lot) {
    && (forall k, l | k in lot.hands && l in lot.hands && lot.hands[k].Running? && lot.hands[l].Running?
          :: lot.hands[k].fiber == lot.hands[l].fiber ==> k == l)
    && (forall f :: f in lot.locals && lot.locals[f].stored ==> lot.locals[f].todo != [])
    && (forall f :: f in lot.locals && lot.locals[f].phase in {Yielding, Suspended, Woken} ==> lot.locals[f].todo == [])
    && (forall f :: f in lot.locals && Runs(lot, f) ==> lot.locals[f].phase != Suspended && f !in lot.terminated)
    && (forall f :: f in lot.locals && !Runs(lot, f) ==>
          lot.locals[f].phase in {Outside, Suspended} && lot.locals[f].todo == [])
    && (forall f :: f in lot.locals && f in lot.terminated ==> lot.locals[f].phase == Outside)
  }

  ghost predicate Undelivered(lot: Lot, w: Waiter) {
    w.fiber in lot.locals && Waiting(lot, w.fiber) && w == Current(lot, w.fiber) && w !in lot.notified
  }

  /** A queued or popped waiter belongs to a fiber that really waits, with its flag still false. */
  ghost predicate PlacesOk(lot: Lot, parked: set<Waiter>) {
    && (forall w :: w in parked ==> Undelivered(lot, w))
    && (forall g, i :: Owes(lot, g, i) ==> Undelivered(lot, lot.locals[g].todo[i]) && lot.locals[g].todo[i] !in parked)
  }

  /** No waiter is twice in the notifiers' lists. */
  ghost predicate OwedOnce(lot: Lot) {
    forall g, i, h, j :: Owes(lot, g, i) && Owes(lot, h, j) && lot.locals[g].todo[i] == lot.locals[h].todo[j]
      ==> g == h && i == j
  }

  /** A waiting fiber whose flag is false has its waiter in a queue or in a notifier's list; a woken one saw `true`. */
  ghost predicate NothingErased(lot: Lot, parked: set<Waiter>) {
    && (forall f :: Waiting(lot, f) && Current(lot, f) !in lot.notified
          ==> Current(lot, f) in parked || Owed(lot, Current(lot, f)))
    && (forall f :: f in lot.locals && lot.locals[f].phase == Woken ==> Current(lot, f) in lot.notified)
  }

  ghost predicate OnePlace(lot: Lot, parked: set<Waiter>) {
    PlacesOk(lot, parked) && OwedOnce(lot) && NothingErased(lot, parked)
  }

  /** The wake-token invariant: a fiber that has decided to sleep, or sleeps, with its flag already true
      will be resumed, because some token for it is still on its way. */
  ghost predicate TokensOk(lot: Lot) {
    forall f :: f in lot.locals && lot.locals[f].phase in {Yielding, Suspended} && Current(lot, f) in lot.notified
      ==> HasToken(lot, f)
  }

  /** Every time a waiter is queued it is notified exactly once, unless it is still in its one place. */
  ghost predicate BooksOk(lot: Lot, parked: set<Waiter>) {
    forall w :: lot.pushes[w] == lot.stores[w] + (if w in parked || Owed(lot, w) then 1 else 0)
  }

  ghost predicate Inv(lot: Lot, parked: set<Waiter>) {
    RunningOk(lot) && OnePlace(lot, parked) && TokensOk(lot) && BooksOk(lot, parked)
  }

  ghost predicate Init(lot: Lot) {
    && (forall f :: f in lot.locals ==> lot.locals[f] == Local(Outside, 0, [], false))
    && (forall k :: k in lot.hands ==> lot.hands[k] == Free)
    && lot.terminated == {}
    && lot.pushes == lot.stores == multiset{}
  }

  lemma InitInv(lot: Lot)
    requires Init(lot)
    ensures Inv(lot, {})
  {
  }

  // ----- what a step does to the set of owed waiters

  ghost predicate SameOwed(lot: Lot, next: Lot) {
    && (forall h, i :: Owes(next, h, i) <==> Owes(lot, h, i))
    && (forall h, i :: Owes(next, h, i) ==> next.locals[h].todo[i] == lot.locals[h].todo[i])
  }

  lemma SameOwedWaiters(lot: Lot, next: Lot)
    requires SameOwed(lot, next)
    ensures forall v :: Owed(next, v) == Owed(lot, v)
  {
    forall v ensures Owed(next, v) == Owed(lot, v) {
      if h, i :| Owes(lot, h, i) && lot.locals[h].todo[i] == v { assert Owes(next, h, i); }
      if h, i :| Owes(next, h, i) && next.locals[h].todo[i] == v { assert Owes(lot, h, i); }
    }
  }

  lemma StoreOwed(lot: Lot, g: FiberId)
    requires Enabled(lot, Store(g)) && RunningOk(lot) && OwedOnce(lot)
    ensures var next := Apply(lot, Store(g)); var w := lot.locals[g].todo[0];
            && (forall h, i :: Owes(next, h, i) <==> Owes(lot, h, i) && !(h == g && i == 0))
            && Owed(lot, w) && (forall v :: Owed(next, v) <==> Owed(lot, v) && v != w)
  {
    var next := Apply(lot, Store(g));
    var w := lot.locals[g].todo[0];
    assert Owes(lot, g, 0);
    forall v ensures Owed(next, v) <==> Owed(lot, v) && v != w {
      if h, i :| Owes(lot, h, i) && lot.locals[h].todo[i] == v && v != w { assert Owes(next, h, i); }
      if h, i :| Owes(next, h, i) && next.locals[h].todo[i] == v { assert Owes(lot, h, i); }
    }
  }

  lemma ScheduleOwed(lot: Lot, g: FiberId)
    requires Enabled(lot, Schedule(g))
    ensures var next := Apply(lot, Schedule(g));
            && (forall h, i :: Owes(next, h, i) <==> Owes(lot, h, if h == g then i + 1 else i) && i >= 0)
            && (forall v :: Owed(next, v) == Owed(lot, v))
  {
    var next := Apply(lot, Schedule(g));
    forall v ensures Owed(next, v) == Owed(lot, v) {
      if h, i :| Owes(lot, h, i) && lot.locals[h].todo[i] == v { assert Owes(next, h, if h == g then i - 1 else i); }
      if h, i :| Owes(next, h, i) && next.locals[h].todo[i] == v { assert Owes(lot, h, if h == g then i + 1 else i); }
    }
  }

  lemma SectionOwed(lot: Lot, f: FiberId, push: bool, popped: seq<Waiter>)
    requires CanEnter(lot, f)
    ensures var next := Section(lot, f, push, popped);
            && (forall h, i :: Owes(next, h, i) <==> if h == f then 0 <= i < |popped| else Owes(lot, h, i))
            && (forall i :: !Owes(lot, f, i))
            && (forall v :: Owed(next, v) <==> Owed(lot, v) || v in popped)
  {
    var next := Section(lot, f, push, popped);
    forall v ensures Owed(next, v) <==> Owed(lot, v) || v in popped {
      if h, i :| Owes(lot, h, i) && lot.locals[h].todo[i] == v { assert Owes(next, h, i); }
      if i :| 0 <= i < |popped| && popped[i] == v { assert Owes(next, f, i); }
      if h, i :| Owes(next, h, i) && next.locals[h].todo[i] == v { if h != f { assert Owes(lot, h, i); } }
    }
  }

  // ----- a waiter is in one place

  lemma StoreOnePlace(lot: Lot, parked: set<Waiter>, g: FiberId)
    requires Enabled(lot, Store(g)) && RunningOk(lot) && OnePlace(lot, parked)
    ensures OnePlace(Apply(lot, Store(g)), parked)
  {
    StorePlaces(lot, parked, g);
    StoreNothingErased(lot, parked, g);
  }

  lemma StorePlaces(lot: Lot, parked: set<Waiter>, g: FiberId)
    requires Enabled(lot, Store(g)) && RunningOk(lot) && PlacesOk(lot, parked) && OwedOnce(lot)
    ensures PlacesOk(Apply(lot, Store(g)), parked) && OwedOnce(Apply(lot, Store(g)))
  {
    var next := Apply(lot, Store(g));
    StoreOwed(lot, g);
    var w := lot.locals[g].todo[0];
    assert Owes(lot, g, 0);
    forall v | Undelivered(lot, v) && v != w ensures Undelivered(next, v) {}
    forall h, i | Owes(next, h, i) ensures Owes(lot, h, i) && next.locals[h].todo[i] == lot.locals[h].todo[i] != w {}
  }

  lemma StoreNothingErased(lot: Lot, parked: set<Waiter>, g: FiberId)
    requires Enabled(lot, Store(g)) && RunningOk(lot) && OwedOnce(lot) && NothingErased(lot, parked)
    ensures NothingErased(Apply(lot, Store(g)), parked)
  {
    var next := Apply(lot, Store(g));
    StoreOwed(lot, g);
    forall f | Waiting(next, f) && Current(next, f) !in next.notified
      ensures Current(next, f) in parked || Owed(next, Current(next, f))
    {
      assert Waiting(lot, f);
    }
  }

  lemma ScheduleOnePlace(lot: Lot, parked: set<Waiter>, g: FiberId)
    requires Enabled(lot, Schedule(g)) && OnePlace(lot, parked)
    ensures OnePlace(Apply(lot, Schedule(g)), parked)
  {
    var next := Apply(lot, Schedule(g));
    ScheduleOwed(lot, g);
    forall h, i | Owes(next, h, i)
      ensures Owes(lot, h, if h == g then i + 1 else i)
      ensures next.locals[h].todo[i] == lot.locals[h].todo[if h == g then i + 1 else i]
      ensures Undelivered(next, next.locals[h].todo[i]) && next.locals[h].todo[i] !in parked
    {}
    assert PlacesOk(next, parked);
    assert OwedOnce(next);
    forall f | Waiting(next, f) && Current(next, f) !in next.notified
      ensures Current(next, f) in parked || Owed(next, Current(next, f))
    {
      assert Waiting(lot, f);
    }
  }

  /** Moving a waiting fiber to another phase of the suspend loop. */
  ghost predicate PhaseMove(lot: Lot, next: Lot, f: FiberId) {
    && Waiting(lot, f)
    && next.notified == lot.notified
    && f in next.locals && next.locals == lot.locals[f := lot.locals[f].(phase := next.locals[f].phase)]
    && (Waiting(next, f) || (next.locals[f].phase == Woken && Current(lot, f) in lot.notified))
  }

  lemma PhaseMoveOnePlace(lot: Lot, next: Lot, parked: set<Waiter>, f: FiberId)
    requires OnePlace(lot, parked) && PhaseMove(lot, next, f)
    ensures SameOwed(lot, next) && OnePlace(next, parked)
  {
    SameOwedWaiters(lot, next);
    forall w | Undelivered(lot, w) ensures Undelivered(next, w) {}
    assert PlacesOk(next, parked);
    assert OwedOnce(next);
    forall h | Waiting(next, h) && Current(next, h) !in next.notified
      ensures Current(next, h) in parked || Owed(next, Current(next, h))
    {
      assert Waiting(lot, h);
    }
  }

  lemma SectionPlaces(lot: Lot, parked: set<Waiter>, f: FiberId, push: bool, popped: seq<Waiter>, parked': set<Waiter>)
    requires RunningOk(lot) && OnePlace(lot, parked) && CanEnter(lot, f)
    requires forall i :: 0 <= i < |popped| ==> popped[i] in parked
    requires forall i, j :: 0 <= i < j < |popped| ==> popped[i] != popped[j]
    requires parked' == parked - (set w | w in popped) + (if push then {Own(lot, f)} else {})
    ensures Own(lot, f) !in parked && !Owed(lot, Own(lot, f))
    ensures PlacesOk(Section(lot, f, push, popped), parked') && OwedOnce(Section(lot, f, push, popped))
  {
    var next := Section(lot, f, push, popped);
    SectionOwed(lot, f, push, popped);
    forall w | Undelivered(lot, w) ensures w.fiber != f && Undelivered(next, w) {}
    assert Own(lot, f).fiber == f;
    assert push ==> Undelivered(next, Own(lot, f));
    forall h, i | Owes(next, h, i)
      ensures Undelivered(next, next.locals[h].todo[i]) && next.locals[h].todo[i] !in parked'
      ensures h != f ==> Owes(lot, h, i) && next.locals[h].todo[i] == lot.locals[h].todo[i]
    {}
  }

  lemma SectionNothingErased(
      lot: Lot, parked: set<Waiter>, f: FiberId, push: bool, popped: seq<Waiter>, parked': set<Waiter>)
    requires RunningOk(lot) && NothingErased(lot, parked) && CanEnter(lot, f)
    requires parked' == parked - (set w | w in popped) + (if push then {Own(lot, f)} else {})
    ensures NothingErased(Section(lot, f, push, popped), parked')
  {
    var next := Section(lot, f, push, popped);
    SectionOwed(lot, f, push, popped);
    forall h | Waiting(next, h) && Current(next, h) !in next.notified
      ensures Current(next, h) in parked' || Owed(next, Current(next, h))
    {
      assert h != f ==> Waiting(lot, h);
    }
  }

  // ----- execution and tokens

  lemma SameRunning(lot: Lot, next: Lot)
    requires next.hands == lot.hands
    ensures forall f :: Runs(next, f) == Runs(lot, f)
  {
    forall f ensures Runs(next, f) == Runs(lot, f) {}
  }

  lemma StepRunning(lot: Lot, step: Step)
    requires Enabled(lot, step) && RunningOk(lot)
    ensures RunningOk(Apply(lot, step))
  {
    match step {
      case Store(_) => FiberStepRunning(lot, step);
      case Schedule(_) => FiberStepRunning(lot, step);
      case Check(_) => FiberStepRunning(lot, step);
      case Foreign(_) => FiberStepRunning(lot, step);
      case Yield(_) => SwitchOutRunning(lot, step);
      case Leave(_) => SwitchOutRunning(lot, step);
      case Finish(_) => SwitchOutRunning(lot, step);
      case Resume(k) => ResumeRunning(lot, k);
      case _ => WorkerStepRunning(lot, step);
    }
  }

  lemma FiberStepRunning(lot: Lot, step: Step)
    requires step.Store? || step.Schedule? || step.Check? || step.Foreign?
    requires Enabled(lot, step) && RunningOk(lot)
    ensures RunningOk(Apply(lot, step))
  {
    SameRunning(lot, Apply(lot, step));
  }

  lemma SwitchOutRunning(lot: Lot, step: Step)
    requires step.Yield? || step.Leave? || step.Finish?
    requires Enabled(lot, step) && RunningOk(lot)
    ensures RunningOk(Apply(lot, step))
  {
    SwitchedOut(lot, Apply(lot, step), step.worker);
  }

  lemma WorkerStepRunning(lot: Lot, step: Step)
    requires step.Pick? || step.PutDown?
    requires Enabled(lot, step) && RunningOk(lot)
    ensures RunningOk(Apply(lot, step))
  {
    HandMoved(lot, Apply(lot, step), step.worker);
  }

  lemma ResumeRunning(lot: Lot, k: nat)
    requires Enabled(lot, Resume(k)) && RunningOk(lot)
    ensures RunningOk(Apply(lot, Resume(k)))
  {
    if lot.hands[k].fiber in lot.terminated {
      HandMoved(lot, Apply(lot, Resume(k)), k);
    } else {
      SwitchedIn(lot, Apply(lot, Resume(k)), k);
    }
  }

  lemma SwitchedIn(lot: Lot, next: Lot, k: nat)
    requires k in lot.hands && lot.hands[k].Picked? && next.hands == lot.hands[k := Running(lot.hands[k].fiber)]
    ensures forall f :: Runs(next, f) <==> Runs(lot, f) || f == lot.hands[k].fiber
  {
    assert next.hands[k] == Running(lot.hands[k].fiber);
    forall f ensures Runs(next, f) <==> Runs(lot, f) || f == lot.hands[k].fiber {
      if l :| l in lot.hands && lot.hands[l] == Running(f) { assert next.hands[l] == Running(f); }
    }
  }

  lemma SwitchedOut(lot: Lot, next: Lot, k: nat)
    requires RunningOk(lot) && k in lot.hands && lot.hands[k].Running?
    requires next.hands == lot.hands[k := Done(lot.hands[k].fiber)]
    ensures forall f :: Runs(next, f) <==> Runs(lot, f) && f != lot.hands[k].fiber
  {
    forall f ensures Runs(next, f) <==> Runs(lot, f) && f != lot.hands[k].fiber {
      if l :| l in lot.hands && lot.hands[l] == Running(f) && l != k { assert next.hands[l] == Running(f); }
    }
  }

  lemma HandMoved(lot: Lot, next: Lot, k: nat)
    requires k in lot.hands && !lot.hands[k].Running? && k in next.hands && !next.hands[k].Running?
    requires next.hands == lot.hands[k := next.hands[k]]
    ensures forall f :: Runs(next, f) == Runs(lot, f)
  {
    forall f ensures Runs(next, f) == Runs(lot, f) {
      if l :| l in lot.hands && lot.hands[l] == Running(f) { assert next.hands[l] == Running(f); }
    }
  }

  lemma SectionRunning(lot: Lot, f: FiberId, push: bool, popped: seq<Waiter>)
    requires RunningOk(lot) && CanEnter(lot, f)
    ensures RunningOk(Section(lot, f, push, popped))
  {
    SameRunning(lot, Section(lot, f, push, popped));
  }

  /** A step uses up a token of `f` only by resuming `f`, which makes it load its flag again. */
  lemma TokenKept(lot: Lot, step: Step, f: FiberId)
    requires Enabled(lot, step) && RunningOk(lot) && HasToken(lot, f)
    ensures HasToken(Apply(lot, step), f)
         || (step.Resume? && lot.hands[step.worker] == Picked(f))
  {
    var next := Apply(lot, step);
    if g :| Scheduling(lot, g, f) {
      SchedulingKept(lot, step, f, g);
    } else if lot.tokens[f] > 0 {
      if step.Pick? && step.fiber == f {
        assert next.hands[step.worker] == Picked(f);
      } else {
        TokenInQueueKept(lot, step, f);
      }
    } else {
      var k :| k in lot.hands && lot.hands[k] == Picked(f);
      if step != Resume(k) { PickedKept(lot, step, f, k); }
    }
  }

  lemma SchedulingKept(lot: Lot, step: Step, f: FiberId, g: FiberId)
    requires Enabled(lot, step) && Scheduling(lot, g, f)
    ensures if step == Schedule(g) then Apply(lot, step).tokens[f] > 0 else Scheduling(Apply(lot, step), g, f)
  {
  }

  lemma TokenInQueueKept(lot: Lot, step: Step, f: FiberId)
    requires Enabled(lot, step) && lot.tokens[f] > 0
    requires !(step.Pick? && step.fiber == f)
    ensures Apply(lot, step).tokens[f] > 0
  {
  }

  lemma PickedKept(lot: Lot, step: Step, f: FiberId, k: nat)
    requires Enabled(lot, step) && k in lot.hands && lot.hands[k] == Picked(f) && step != Resume(k)
    ensures k in Apply(lot, step).hands && Apply(lot, step).hands[k] == Picked(f)
  {
  }

  lemma StepTokens(lot: Lot, step: Step)
    requires Enabled(lot, step) && RunningOk(lot) && TokensOk(lot)
    ensures TokensOk(Apply(lot, step))
  {
    var next := Apply(lot, step);
    forall f | f in next.locals && next.locals[f].phase in {Yielding, Suspended} && Current(next, f) in next.notified
      ensures HasToken(next, f)
    {
      StepToken(lot, step, f);
    }
  }

  /** Only the store itself can make a sleeping fiber's flag true; nobody falls asleep on a true flag. */
  lemma SleptBefore(lot: Lot, step: Step, f: FiberId)
    requires f in lot.locals && Enabled(lot, step) && RunningOk(lot)
    requires !(step.Store? && lot.locals[step.notifier].todo[0] == Waiter(f, lot.locals[f].call))
    requires Apply(lot, step).locals[f].phase in {Yielding, Suspended}
    requires Waiter(f, lot.locals[f].call) in Apply(lot, step).notified
    ensures lot.locals[f].phase in {Yielding, Suspended} && Current(lot, f) in lot.notified
  {
  }

  lemma StepToken(lot: Lot, step: Step, f: FiberId)
    requires Enabled(lot, step) && RunningOk(lot) && TokensOk(lot)
    requires f in Apply(lot, step).locals && Apply(lot, step).locals[f].phase in {Yielding, Suspended}
    requires Current(Apply(lot, step), f) in Apply(lot, step).notified
    ensures HasToken(Apply(lot, step), f)
  {
    if step.Store? && lot.locals[step.notifier].todo[0] == Current(lot, f) {
      assert Scheduling(Apply(lot, step), step.notifier, f);
    } else {
      SleptBefore(lot, step, f);
      TokenKept(lot, step, f);
    }
  }

  lemma SectionTokens(lot: Lot, f: FiberId, push: bool, popped: seq<Waiter>)
    requires CanEnter(lot, f) && TokensOk(lot)
    ensures TokensOk(Section(lot, f, push, popped))
  {
    var next := Section(lot, f, push, popped);
    forall h | h in next.locals && next.locals[h].phase in {Yielding, Suspended} && Current(next, h) in next.notified
      ensures HasToken(next, h)
    {
      assert h != f && HasToken(lot, h);
      if g :| Scheduling(lot, g, h) { assert Scheduling(next, g, h); }
    }
  }

  // ----- the invariant is inductive

  lemma SameBooks(lot: Lot, next: Lot, parked: set<Waiter>)
    requires BooksOk(lot, parked) && SameOwed(lot, next) && next.pushes == lot.pushes && next.stores == lot.stores
    ensures BooksOk(next, parked)
  {
    SameOwedWaiters(lot, next);
  }

  lemma SamePlaces(lot: Lot, next: Lot, parked: set<Waiter>)
    requires OnePlace(lot, parked) && next.locals == lot.locals && next.notified == lot.notified
    ensures SameOwed(lot, next) && OnePlace(next, parked)
  {
    SameOwedWaiters(lot, next);
    forall w ensures Undelivered(next, w) == Undelivered(lot, w) {}
    forall f | Waiting(next, f) && Current(next, f) !in next.notified
      ensures Current(next, f) in parked || Owed(next, Current(next, f))
    {
      assert Waiting(lot, f);
    }
  }

  lemma StepPlaces(lot: Lot, parked: set<Waiter>, step: Step)
    requires Enabled(lot, step) && RunningOk(lot) && OnePlace(lot, parked)
    ensures OnePlace(Apply(lot, step), parked)
    ensures step.Store? || step.Schedule? || SameOwed(lot, Apply(lot, step))
  {
    var next := Apply(lot, step);
    match step {
      case Store(g) => StoreOnePlace(lot, parked, g);
      case Schedule(g) => ScheduleOnePlace(lot, parked, g);
      case Check(f) => PhaseMoveOnePlace(lot, next, parked, f);
      case Yield(k) => PhaseMoveOnePlace(lot, next, parked, lot.hands[k].fiber);
      case Resume(k) =>
        if next.locals == lot.locals { SamePlaces(lot, next, parked); }
        else { PhaseMoveOnePlace(lot, next, parked, lot.hands[k].fiber); }
      case _ => SamePlaces(lot, next, parked);
    }
  }

  lemma StepBooks(lot: Lot, parked: set<Waiter>, step: Step)
    requires Enabled(lot, step) && RunningOk(lot) && OnePlace(lot, parked) && BooksOk(lot, parked)
    ensures BooksOk(Apply(lot, step), parked)
  {
    match step {
      case Store(g) => StoreOwed(lot, g); assert Owes(lot, g, 0);
      case Schedule(g) => ScheduleOwed(lot, g);
      case _ => StepPlaces(lot, parked, step); SameBooks(lot, Apply(lot, step), parked);
    }
  }

  /** Every step outside the critical sections keeps the invariant. */
  lemma StepInv(lot: Lot, parked: set<Waiter>, step: Step)
    requires Inv(lot, parked) && Enabled(lot, step)
    ensures Inv(Apply(lot, step), parked)
  {
    StepRunning(lot, step);
    StepPlaces(lot, parked, step);
    StepTokens(lot, step);
    StepBooks(lot, parked, step);
  }

  /** A critical section that pops distinct queued waiters, and possibly queues its own, keeps it. */
  lemma SectionInv(lot: Lot, parked: set<Waiter>, f: FiberId, push: bool, popped: seq<Waiter>, parked': set<Waiter>)
    requires Inv(lot, parked) && CanEnter(lot, f)
    requires forall i :: 0 <= i < |popped| ==> popped[i] in parked
    requires forall i, j :: 0 <= i < j < |popped| ==> popped[i] != popped[j]
    requires parked' == parked - (set w | w in popped) + (if push then {Own(lot, f)} else {})
    ensures Own(lot, f) !in parked
    ensures Inv(Section(lot, f, push, popped), parked')
  {
    SectionRunning(lot, f, push, popped);
    SectionPlaces(lot, parked, f, push, popped, parked');
    SectionNothingErased(lot, parked, f, push, popped, parked');
    SectionTokens(lot, f, push, popped);
    SectionOwed(lot, f, push, popped);
  }

  /** Outside the critical sections nobody starts or ends a blocking call. */
  lemma StepFrame(lot: Lot, step: Step)
    requires Enabled(lot, step)
    ensures Apply(lot, step).locals.Keys == lot.locals.Keys
    ensures forall f :: f in lot.locals ==> Current(Apply(lot, step), f) == Current(lot, f)
    ensures forall f :: f in lot.locals ==>
      (Apply(lot, step).locals[f].phase == Outside <==> lot.locals[f].phase == Outside)
  {
    var next := Apply(lot, step);
    forall f | f in lot.locals
      ensures Current(next, f) == Current(lot, f)
      ensures next.locals[f].phase == Outside <==> lot.locals[f].phase == Outside
    {
      StepFrameAt(lot, step, f);
    }
  }

  lemma StepFrameAt(lot: Lot, step: Step, f: FiberId)
    requires Enabled(lot, step) && f in lot.locals
    ensures f in Apply(lot, step).locals && Apply(lot, step).locals[f].call == lot.locals[f].call
    ensures Apply(lot, step).locals[f].phase == Outside <==> lot.locals[f].phase == Outside
  {
    match step {
      case Store(_) =>
      case Schedule(_) =>
      case Check(_) =>
      case Yield(_) =>
      case Resume(_) =>
      case _ =>
    }
  }

  // ----- what it means

  /** The reset of a flag, under the lock, never erases a notification that is still to be delivered:
      at that moment the waiter is nowhere, and it was notified as often as it was queued. */
  lemma ResetErasesNothing(lot: Lot, parked: set<Waiter>, f: FiberId)
    requires Inv(lot, parked) && CanEnter(lot, f)
    ensures Own(lot, f) !in parked && !Owed(lot, Own(lot, f))
    ensures lot.pushes[Own(lot, f)] == lot.stores[Own(lot, f)]
  {
    SectionPlaces(lot, parked, f, false, [], parked);
  }

  /** No token is queued and every worker is idle. */
  ghost predicate Quiet(lot: Lot) {
    lot.tokens == multiset{} && forall k :: k in lot.hands ==> lot.hands[k] == Free
  }

  /** In a quiet state every fiber still blocked in the primitive sleeps,
      its flag is false and its waiter sits in one of the primitive's queues: no wake-up was lost. */
  lemma QuietMeansParked(lot: Lot, parked: set<Waiter>, f: FiberId)
    requires Inv(lot, parked)
    requires Quiet(lot)
    requires f in lot.locals && lot.locals[f].phase != Outside
    ensures lot.locals[f].phase == Suspended && Current(lot, f) !in lot.notified && Current(lot, f) in parked
  {
    assert forall g :: !Runs(lot, g);
    assert forall g, i :: !Owes(lot, g, i);
    assert forall g :: !Scheduling(lot, g, f);
  }

  // ----- tokens and termination, counted

  /** Where the queued tokens of a fiber come from and go to: one more for a hand-over, a submission or a requeue,
      one less for a worker that takes one, and nothing else. */
  lemma TokensCounted(lot: Lot, step: Step, f: FiberId)
    requires Enabled(lot, step)
    ensures var next := Apply(lot, step);
            match step
            case Schedule(g) => next.tokens[f] == lot.tokens[f] + (if lot.locals[g].todo[0].fiber == f then 1 else 0)
            case Foreign(h) => next.tokens[f] == lot.tokens[f] + (if h == f then 1 else 0)
            case PutDown(k, requeue) =>
              next.tokens[f] == lot.tokens[f] + (if requeue && lot.hands[k] == Done(f) then 1 else 0)
            case Pick(_, h) => next.tokens[f] == lot.tokens[f] - (if h == f then 1 else 0)
            case _ => next.tokens == lot.tokens
  {
  }

  /** A fiber whose body ends never executes again, whatever tokens there are; nobody else terminates. */
  lemma TerminatedForGood(lot: Lot, step: Step, f: FiberId)
    requires Enabled(lot, step) && RunningOk(lot) && f in lot.locals
    ensures f in Apply(lot, step).terminated <==>
      f in lot.terminated || (step.Finish? && lot.hands[step.worker] == Running(f))
    ensures f in Apply(lot, step).terminated ==> !Runs(Apply(lot, step), f)
  {
    StepRunning(lot, step);
    assert f in Apply(lot, step).locals;
  }
}

/** Why a shared fiber may not call a shared fiber: what would happen, and a run that gets there. */
module SharedNesting {
  import opened FiberIds
  import opened Stacks
  import opened Fibers
  import opened FiberRuns

  /** The refusal of shared in shared is needed: preparing from a shared fiber takes the slot away from it. */
  lemma RefusalIsNeeded(t: Thread, f: FiberId, slot: nat)
    requires Wf(t) && CanPrepare(t, f, slot) && Bound(t, f) && t.fibers[f].slot == t.fibers[t.current].slot
    ensures SlotOf(t, t.current).owner == Some(t.current)
    ensures var next := Prepare(t, f, slot);
            Bound(next, t.current) && SlotOf(next, t.current).owner != Some(t.current)
  {
    PrepareOk(t, f, slot);
    assert SameControl(t.fibers[f], Prepare(t, f, slot).fibers[f]);
    assert SameControl(t.fibers[t.current], Prepare(t, f, slot).fibers[t.current]);
  }

  /** The same slot, state and link. */
  predicate SameStanding(f: Fiber, f': Fiber) { SameControl(f, f') && f'.slot == f.slot }

  predicate SameSizes(t: Thread, t': Thread) {
    && t'.threadFiber == t.threadFiber && t'.schedulerFiber == t.schedulerFiber && |t'.slots| == |t.slots|
    && forall i :: 0 <= i < |t.slots| ==>
         t'.slots[i].pooled == t.slots[i].pooled && |t'.slots[i].stack| == |t.slots[i].stack|
  }

  lemma PrepareBinds(t: Thread, f: FiberId, slot: nat)
    requires CanPrepare(t, f, slot) && t.fibers[f].slot.None? && f < t.nextId
    ensures var next := Prepare(t, f, slot);
            && SameSizes(t, next) && next.fibers.Keys == t.fibers.Keys && next.fibers[f].slot == Some(slot)
            && SameControl(t.fibers[f], next.fibers[f])
            && forall g :: g in t.fibers && g != f ==> SameStanding(t.fibers[g], next.fibers[g])
  {
    PrepareOk(t, f, slot);
    StartedOk(t, f, slot);
    StartedBinds(t, f, slot);
    TakeOverBindsNobody(Started(t, f, slot), f);
    var next := Prepare(t, f, slot);
    forall i | 0 <= i < |t.slots|
      ensures next.slots[i].pooled == t.slots[i].pooled && |next.slots[i].stack| == |t.slots[i].stack|
    {
      assert SameShape(t.slots[i], next.slots[i]);
    }
  }

  lemma ResumeBinds(t: Thread, f: FiberId, slot: nat)
    requires Wf(t) && Enabled(t, Resume(f, slot)) && t.fibers[f].shared && t.fibers[f].slot.None? && NoLink(t, f)
    ensures var next := Apply(t, Resume(f, slot));
            && SameSizes(t, next) && next.current == f && f in next.fibers
            && next.fibers[f].shared && next.fibers[f].inScheduler == t.fibers[f].inScheduler && NoLink(next, f)
            && next.fibers[f].slot == Some(slot)
            && forall g :: g in t.fibers && g != f ==> g in next.fibers && SameStanding(t.fibers[g], next.fibers[g])
  {
    PrepareBinds(t, f, slot);
    var t1 := PrepareIfShared(t, f, slot);
    EnteringBindsNobody(t1, f, Home(t, f));
    var next := SwitchTo(WithFiber(t1, f, t1.fibers[f].(state := RUNNING)), Home(t, f), f);
    forall g | g in t.fibers && g != f ensures SameStanding(t.fibers[g], next.fibers[g]) {
      assert SameStanding(t.fibers[g], t1.fibers[g]) && SameStanding(t1.fibers[g], next.fibers[g]);
    }
  }

  lemma EnteringBindsNobody(t: Thread, f: FiberId, home: FiberId)
    requires f in t.fibers && home in t.fibers && f != home
    ensures var next := SwitchTo(WithFiber(t, f, t.fibers[f].(state := RUNNING)), home, f);
            && SameSizes(t, next) && next.current == f && next.fibers.Keys == t.fibers.Keys
            && next.fibers[f] == t.fibers[f].(state := RUNNING)
            && forall g :: g in t.fibers && g != f ==> SameStanding(t.fibers[g], next.fibers[g])
  {
  }

  lemma YieldBindsNobody(t: Thread)
    requires Wf(t) && t.current != t.threadFiber && NoLink(t, t.current)
    ensures var next := Apply(t, Yield(false));
            && SameSizes(t, next) && next.current == Home(t, t.current)
            && t.current in next.fibers && next.fibers[t.current].state == READY
            && next.fibers[t.current].slot == t.fibers[t.current].slot
            && forall g :: g in t.fibers && g != t.current ==>
                 g in next.fibers && SameStanding(t.fibers[g], next.fibers[g])
  {
  }

  lemma LongerRun(states: seq<Thread>, actions: seq<Action>, a: Action)
      returns (states': seq<Thread>, actions': seq<Action>)
    requires IsRun(states, actions) && Enabled(states[|actions|], a)
    ensures Wf(states[|actions|]) && |actions'| == |actions| + 1 && IsRun(states', actions')
    ensures states'[|actions'|] == Apply(states[|actions|], a)
  {
    RunWf(states, actions, |actions|);
    actions' := actions + [a];
    states' := states + [Apply(states[|actions|], a)];
    forall i | 0 <= i <= |actions'| ensures RunAt(states', actions', i) {
      if i <= |actions| {
        assert RunAt(states, actions, i);
      }
    }
  }

  // ----- a run in which one slot serves two fibers

  const MEMORY: seq<byte> := ZEROS + ZEROS

  /** Only the scheduler runs, and shared fibers may be there that have never been entered. */
  predicate AtHome(t: Thread) { t.current == t.threadFiber == t.schedulerFiber == 0 }

  predicate Unused(t: Thread, f: FiberId) {
    f in t.fibers && t.fibers[f] == Fiber(true, true, 16, READY, 0, false, NO_THREAD, None, [], None, false)
  }

  /** A shared fiber without a caller, in slot 1 if it has one. */
  predicate Plain(t: Thread, f: FiberId) {
    && f in t.fibers && t.fibers[f].shared && t.fibers[f].inScheduler && t.fibers[f].size == 16
    && t.fibers[f].parent.None? && !t.fibers[f].returnToParent
  }

  predicate OneSlot(t: Thread) { |t.slots| == 2 && t.slots[1].pooled && |t.slots[1].stack| == 16 }

  lemma NewThread(t: Thread)
    requires IsStart(t)
    ensures IsRun([t], [])
  {
    assert RunAt([t], [], 0);
  }

  lemma FirstState() returns (t: Thread)
    ensures IsStart(t) && AtHome(t) && t.nextId == 1 && |t.slots| == 1 && 0 in t.fibers
  {
    EntryIsAligned(0, 16);
    t := Start(1, 0, MEMORY);
    StartIsStart(t, 1, 0, MEMORY);
  }

  lemma CreateUnused(t: Thread, f: FiberId, memory: seq<byte>)
    requires 0 <= EntryOffset(0, |memory|)
    ensures ApplyCreate(t, f, true, true, 0, memory)
         == t.(nextId := f + 1,
               fibers := t.fibers[f := Fiber(true, true, |memory|, READY, 0, false, NO_THREAD, None, [], None, false)])
  {
  }

  lemma TwoCreated() returns (states: seq<Thread>, actions: seq<Action>)
    ensures IsRun(states, actions) && |actions| == 2
    ensures AtHome(states[2]) && Unused(states[2], 1) && Unused(states[2], 2) && |states[2].slots| == 1
  {
    var t := FirstState();
    EntryIsAligned(0, 16);
    NewThread(t);
    states, actions := [t], [];
    RunWf(states, actions, 0);
    CreateUnused(t, 1, MEMORY);
    states, actions := LongerRun(states, actions, Create(1, true, true, 0, MEMORY));
    RunWf(states, actions, 1);
    CreateUnused(states[1], 2, MEMORY);
    states, actions := LongerRun(states, actions, Create(2, true, true, 0, MEMORY));
  }

  lemma SlotAdded() returns (states: seq<Thread>, actions: seq<Action>)
    ensures IsRun(states, actions) && |actions| == 3
    ensures AtHome(states[3]) && Unused(states[3], 1) && Unused(states[3], 2) && OneSlot(states[3])
  {
    states, actions := TwoCreated();
    EntryIsAligned(0, 16);
    RunWf(states, actions, 2);
    states, actions := LongerRun(states, actions, GrowPool(0, MEMORY));
  }

  lemma FirstEntered() returns (states: seq<Thread>, actions: seq<Action>)
    ensures IsRun(states, actions) && |actions| == 4
    ensures states[4].current == 1 && states[4].threadFiber == states[4].schedulerFiber == 0 && OneSlot(states[4])
    ensures Plain(states[4], 1) && states[4].fibers[1].slot == Some(1)
    ensures Plain(states[4], 2) && states[4].fibers[2].slot == None && states[4].fibers[2].state == READY
  {
    states, actions := SlotAdded();
    RunWf(states, actions, 3);
    ResumeBinds(states[3], 1, 1);
    states, actions := LongerRun(states, actions, Resume(1, 1));
  }

  lemma FirstYielded() returns (states: seq<Thread>, actions: seq<Action>)
    ensures IsRun(states, actions) && |actions| == 5
    ensures AtHome(states[5]) && OneSlot(states[5])
    ensures Plain(states[5], 1) && states[5].fibers[1].slot == Some(1) && states[5].fibers[1].state == READY
    ensures Plain(states[5], 2) && states[5].fibers[2].slot == None && states[5].fibers[2].state == READY
  {
    states, actions := FirstEntered();
    RunWf(states, actions, 4);
    YieldBindsNobody(states[4]);
    states, actions := LongerRun(states, actions, Yield(false));
  }

  /** There is something to refuse: while one shared fiber executes, another one is ready in the same slot. */
  lemma RefusalIsReachable() returns (states: seq<Thread>, actions: seq<Action>)
    ensures IsRun(states, actions) && |actions| == 6 && Wf(states[6])
    ensures var t := states[6];
            && t.current == 2 && t.fibers[2].shared
            && 1 in t.fibers && t.fibers[1].shared && t.fibers[1].state == READY
            && t.fibers[1].slot == Some(1) == t.fibers[2].slot
            && CallCode(t, 1) == CALL_ERR_SHARED_NESTED_UNSUPPORTED && CanPrepare(t, 1, 1) && Bound(t, 1)
  {
    states, actions := FirstYielded();
    RunWf(states, actions, 5);
    ResumeBinds(states[5], 2, 1);
    states, actions := LongerRun(states, actions, Resume(2, 1));
    RunWf(states, actions, 6);
    assert BindingOk(states[6], 1);
  }
}

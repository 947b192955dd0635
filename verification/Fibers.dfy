/** Fibers of one thread: resume, nested call, yield, termination, reset and destruction over time-shared
    stacks, and the simple machine they simulate: every fiber has a stack of its own, and whoever yields
    returns to the one that entered it. */
module Fibers {
  import opened FiberIds
  import opened Stacks

  // ----- the runtime

  const CALL_OK := 0
  const CALL_ERR_NOT_READY := 1
  const CALL_ERR_SELF_CALL := 3
  const CALL_ERR_SHARED_NESTED_UNSUPPORTED := 4

  /** `slot`: the pool slot a shared fiber gets if it has none yet. `Exec` is a piece of the current fiber's
      own code: it leaves `frame` live, and anything in the rest of the buffer below. */
  datatype Action =
    | Create(f: FiberId, shared: bool, inScheduler: bool, base: nat, memory: seq<byte>)
    | GrowPool(base: nat, memory: seq<byte>)
    | SetScheduler(f: FiberId)
    | Resume(f: FiberId, slot: nat)
    | Call(f: FiberId, slot: nat)
    | Yield(terminated: bool)
    | Reset(f: FiberId)
    | Destroy(f: FiberId)
    | Exec(below: seq<byte>, frame: seq<byte>)

  /** The fiber that resumes `f`, and to which `f` returns if nobody called it. */
  function Home(t: Thread, f: FiberId): FiberId
    requires f in t.fibers
  {
    if t.fibers[f].inScheduler then t.schedulerFiber else t.threadFiber
  }

  function CallCode(t: Thread, f: FiberId): int
    requires f in t.fibers && t.current in t.fibers
  {
    if t.fibers[f].state != READY then CALL_ERR_NOT_READY
    else if f == t.current then CALL_ERR_SELF_CALL
    else if t.fibers[f].shared && t.fibers[t.current].shared then CALL_ERR_SHARED_NESTED_UNSUPPORTED
    else CALL_OK
  }

  function WithFiber(t: Thread, f: FiberId, fiber: Fiber): Thread { t.(fibers := t.fibers[f := fiber]) }

  function SwitchTo(t: Thread, from: FiberId, to: FiberId): Thread
    requires from in t.fibers && to in t.fibers
  {
    t.(fibers := t.fibers[from := t.fibers[from].(sp := t.sp)], sp := t.fibers[to].sp, current := to)
  }

  function PrepareIfShared(t: Thread, f: FiberId, slot: nat): Thread
    requires f in t.fibers && (t.fibers[f].shared ==> CanPrepare(t, f, slot))
  {
    if t.fibers[f].shared then Prepare(t, f, slot) else t
  }

  /** What every reachable state keeps, besides the chain of callers. */
  ghost predicate Wf(t: Thread) {
    && MemoryOk(t)
    && t.current in t.fibers && t.fibers[t.current].state == RUNNING
    && t.fibers[t.current].initialized && Bound(t, t.current) && Owns(t, t.current)
    && t.threadFiber in t.fibers && !t.fibers[t.threadFiber].shared
    && t.schedulerFiber in t.fibers && !t.fibers[t.schedulerFiber].shared
    && (t.schedulerFiber != t.threadFiber ==> !t.fibers[t.schedulerFiber].inScheduler)
    && forall f :: f in t.fibers ==> f < t.nextId && LinkOk(t, f)
  }

  ghost predicate LinkOk(t: Thread, f: FiberId)
    requires f in t.fibers
  {
    var p := t.fibers[f].parent;
    p.Some? ==> p.value != f && p.value < t.nextId
                && (p.value in t.fibers && t.fibers[p.value].shared ==> t.fibers[p.value].slot.Some?)
  }

  /** What the runtime asserts of its callers, and resume only from the fiber that `f` will return to. */
  ghost predicate Enabled(t: Thread, a: Action) {
    && t.current in t.fibers
    && match a
       case Create(f, shared, inScheduler, base, memory) => t.nextId <= f && 0 <= EntryOffset(base, |memory|)
       case GrowPool(base, memory) => 0 <= EntryOffset(base, |memory|)
       case SetScheduler(f) =>
         t.current == t.threadFiber && f in t.fibers && !t.fibers[f].shared
         && (f != t.threadFiber ==> !t.fibers[f].inScheduler)
       case Resume(f, slot) =>
         f in t.fibers && t.fibers[f].state == READY && Home(t, f) == t.current && CanBind(t, f, slot)
       case Call(f, slot) => f in t.fibers && CanBind(t, f, slot)
       case Yield(_) => t.current != t.threadFiber
       case Reset(f) => f in t.fibers && t.fibers[f].state == TERM
       case Destroy(f) =>
         f in t.fibers && t.fibers[f].state != RUNNING && f != t.threadFiber && f != t.schedulerFiber
       case Exec(below, frame) =>
         && Bound(t, t.current) && |below| + |frame| + |SlotOf(t, t.current).pad| == |SlotOf(t, t.current).stack|
         && |frame| >= 8 && frame[|frame| - 8..] == ZEROS
  }

  function ApplyCreate(t: Thread, f: FiberId, shared: bool, inScheduler: bool, base: nat, memory: seq<byte>): Thread
    requires 0 <= EntryOffset(base, |memory|)
  {
    var fiber := Fiber(shared, inScheduler, |memory|, READY, 0, false, NO_THREAD, None, [], None, false);
    var t1 := t.(nextId := f + 1);
    if shared then WithFiber(t1, f, fiber)
    else
      var s := WriteEntry(NewSlot(base, memory, false, Some(f)));
      WithFiber(t1, f, fiber.(sp := Entry(s), initialized := true, slot := Some(|t.slots|))).(slots := t.slots + [s])
  }

  function ApplyResume(t: Thread, f: FiberId, slot: nat): Thread
    requires Wf(t) && Enabled(t, Resume(f, slot))
  {
    var t1 := PrepareIfShared(t, f, slot);
    PreparedIfShared(t, f, slot);
    SwitchTo(WithFiber(t1, f, t1.fibers[f].(state := RUNNING)), Home(t1, f), f)
  }

  function ApplyCall(t: Thread, f: FiberId, slot: nat): Thread
    requires Wf(t) && Enabled(t, Call(f, slot))
  {
    if CallCode(t, f) != CALL_OK then t
    else
      var t1 := PrepareIfShared(t, f, slot);
      PreparedIfShared(t, f, slot);
      SwitchTo(WithFiber(t1, f, t1.fibers[f].(parent := Some(t.current), returnToParent := true, state := RUNNING)),
               t.current, f)
  }

  function Yielding(t: Thread, terminated: bool): Fiber
    requires Wf(t)
  {
    t.fibers[t.current].(state := if terminated then TERM else READY)
  }

  predicate ReturnsToParent(t: Thread)
    requires Wf(t)
  {
    var f := t.fibers[t.current];
    f.returnToParent && f.parent.Some? && f.parent.value in t.fibers
  }

  /** The caller clears the link of the fiber it called once more when it goes on; that changes nothing. */
  function Back(t: Thread, terminated: bool): Thread
    requires Wf(t) && ReturnsToParent(t)
  {
    var p := t.fibers[t.current].parent.value;
    var fiber := Yielding(t, terminated).(parent := None, returnToParent := false);
    assert LinkOk(t, t.current) && BindingOk(t, p);
    LeaveOk(t, fiber, p, 0);
    SwitchTo(PrepareIfShared(WithFiber(t, t.current, fiber), p, 0), t.current, p)
  }

  function GoHome(t: Thread, terminated: bool): Thread
    requires Wf(t)
  {
    SwitchTo(WithFiber(t, t.current, Yielding(t, terminated)), t.current, Home(t, t.current))
  }

  function ApplyYield(t: Thread, terminated: bool): Thread
    requires Wf(t)
  {
    if ReturnsToParent(t) then Back(t, terminated) else GoHome(t, terminated)
  }

  function Cleared(t: Thread, f: FiberId): Thread
    requires f in t.fibers
  {
    WithFiber(t, f, t.fibers[f].(state := READY, snapshot := [], parent := None, returnToParent := false))
  }

  function ApplyReset(t: Thread, f: FiberId): Thread
    requires MemoryOk(t) && f in t.fibers
  {
    var t1 := Cleared(t, f);
    assert BindingOk(t, f);
    if t.fibers[f].slot.Some? then
      assert OwnerOk(t, t.fibers[f].slot.value);
      InitContext(t1, f)
    else WithFiber(t1, f, t1.fibers[f].(initialized := false))
  }

  function ApplyExec(t: Thread, below: seq<byte>, frame: seq<byte>): Thread
    requires Wf(t) && Enabled(t, Exec(below, frame))
  {
    var i := t.fibers[t.current].slot.value;
    t.(slots := t.slots[i := t.slots[i].(stack := below + frame + t.slots[i].pad)], sp := |below|)
  }

  function Apply(t: Thread, a: Action): Thread
    requires Wf(t) && Enabled(t, a)
  {
    match a
    case Create(f, shared, inScheduler, base, memory) => ApplyCreate(t, f, shared, inScheduler, base, memory)
    case GrowPool(base, memory) => t.(slots := t.slots + [NewSlot(base, memory, true, None)])
    case SetScheduler(f) => t.(schedulerFiber := f)
    case Resume(f, slot) => ApplyResume(t, f, slot)
    case Call(f, slot) => ApplyCall(t, f, slot)
    case Yield(terminated) => ApplyYield(t, terminated)
    case Reset(f) => ApplyReset(t, f)
    case Destroy(f) => t.(fibers := t.fibers - {f})
    case Exec(below, frame) => ApplyExec(t, below, frame)
  }

  // ----- steps that keep every frame

  /** State and parent link have nothing to do with memory. */
  lemma ControlKeepsFrames(t: Thread, f: FiberId, fiber: Fiber)
    requires MemoryOk(t) && f in t.fibers
    requires fiber == t.fibers[f].(state := fiber.state, parent := fiber.parent, returnToParent := fiber.returnToParent)
    ensures MemoryOk(WithFiber(t, f, fiber)) && SameFrames(t, WithFiber(t, f, fiber))
  {
    var next := WithFiber(t, f, fiber);
    forall g | g in t.fibers ensures FrameOk(next, g) && BindingOk(next, g) && SameFrame(t, next, g) {
      assert FrameOk(t, g) && BindingOk(t, g);
    }
    forall i | 0 <= i < |t.slots| ensures OwnerOk(next, i) {
      assert OwnerOk(t, i);
    }
  }

  /** A switch saves the register of the one and loads that of the other. */
  lemma SwitchKeepsFrames(t: Thread, to: FiberId)
    requires MemoryOk(t) && t.current in t.fibers && to in t.fibers && to != t.current
    ensures MemoryOk(SwitchTo(t, t.current, to)) && SameFrames(t, SwitchTo(t, t.current, to))
  {
    var next := SwitchTo(t, t.current, to);
    forall g | g in t.fibers ensures FrameOk(next, g) && BindingOk(next, g) && SameFrame(t, next, g) {
      assert FrameOk(t, g) && BindingOk(t, g);
      assert SpOf(next, g) == SpOf(t, g);
    }
    forall i | 0 <= i < |t.slots| ensures OwnerOk(next, i) {
      assert OwnerOk(t, i);
    }
  }

  lemma PreparedIfShared(t: Thread, f: FiberId, slot: nat)
    requires MemoryOk(t) && f in t.fibers && f != t.current && CanBind(t, f, slot) && f < t.nextId
    ensures var next := PrepareIfShared(t, f, slot);
            && MemoryOk(next) && SameFrames(t, next) && Untouched(t, next)
            && Bound(next, f) && Owns(next, f) && next.fibers[f].initialized
            && SameControl(t.fibers[f], next.fibers[f])
  {
    if t.fibers[f].shared {
      PrepareOk(t, f, slot);
    } else {
      assert BindingOk(t, f);
    }
  }

  // ----- entering a fiber and leaving one

  /** Bytes may have moved, but every fiber keeps its frame and its binding. */
  ghost predicate Moved(t: Thread, t': Thread) {
    MemoryOk(t) && MemoryOk(t') && SameFrames(t, t') && SameBindings(t, t') && SlotsKept(t, t')
  }

  ghost predicate SlotsKept(t: Thread, t': Thread) {
    |t.slots| <= |t'.slots| && forall i :: 0 <= i < |t.slots| ==> SameShape(t.slots[i], t'.slots[i])
  }

  ghost predicate SameBindings(t: Thread, t': Thread) {
    && t'.fibers.Keys == t.fibers.Keys
    && t'.tid == t.tid && t'.nextId == t.nextId
    && t'.threadFiber == t.threadFiber && t'.schedulerFiber == t.schedulerFiber
    && forall g :: g in t.fibers ==> SameBinding(t.fibers[g], t'.fibers[g])
  }

  predicate SameBinding(f: Fiber, f': Fiber) {
    && f'.shared == f.shared && f'.inScheduler == f.inScheduler && f'.size == f.size
    && (f.slot.Some? ==> f'.slot == f.slot) && (f.ownerThread != NO_THREAD ==> f'.ownerThread == f.ownerThread)
  }

  predicate SameLink(f: Fiber, f': Fiber) {
    f'.state == f.state && f'.parent == f.parent && f'.returnToParent == f.returnToParent
  }

  /** All states and parent links but that of `f` are the same. */
  ghost predicate SameLinks(t: Thread, t': Thread, f: FiberId) {
    && t'.fibers.Keys == t.fibers.Keys
    && forall g :: g in t.fibers && g != f ==> SameLink(t.fibers[g], t'.fibers[g])
  }

  /** `f` is ready to run: its frame is in its buffer. */
  ghost predicate Installed(t: Thread, f: FiberId) {
    Bound(t, f) && Owns(t, f) && t.fibers[f].initialized
  }

  lemma MovedTwice(t: Thread, t': Thread, t'': Thread)
    requires Moved(t, t') && Moved(t', t'')
    ensures Moved(t, t'')
  {
    forall i | 0 <= i < |t.slots| ensures SameShape(t.slots[i], t''.slots[i]) {
      assert SameShape(t.slots[i], t'.slots[i]) && SameShape(t'.slots[i], t''.slots[i]);
    }
    forall g | g in t.fibers ensures SameFrame(t, t'', g) && SameBinding(t.fibers[g], t''.fibers[g]) {
      assert SameFrame(t, t', g) && SameFrame(t', t'', g);
      assert SameBinding(t.fibers[g], t'.fibers[g]) && SameBinding(t'.fibers[g], t''.fibers[g]);
    }
  }

  lemma PrepareMoves(t: Thread, f: FiberId, slot: nat)
    requires MemoryOk(t) && f in t.fibers && f != t.current && CanBind(t, f, slot) && f < t.nextId
    ensures var next := PrepareIfShared(t, f, slot);
            && Moved(t, next) && Installed(next, f) && next.current == t.current
            && forall g :: g in t.fibers ==> SameLink(t.fibers[g], next.fibers[g])
  {
    PreparedIfShared(t, f, slot);
    var next := PrepareIfShared(t, f, slot);
    forall g | g in t.fibers ensures SameBinding(t.fibers[g], next.fibers[g]) && SameLink(t.fibers[g], next.fibers[g]) {
      assert SameControl(t.fibers[g], next.fibers[g]);
    }
  }

  lemma ControlMoves(t: Thread, f: FiberId, fiber: Fiber)
    requires MemoryOk(t) && f in t.fibers
    requires fiber == t.fibers[f].(state := fiber.state, parent := fiber.parent, returnToParent := fiber.returnToParent)
    ensures Moved(t, WithFiber(t, f, fiber)) && SameLinks(t, WithFiber(t, f, fiber), f)
  {
    ControlKeepsFrames(t, f, fiber);
  }

  lemma SwitchMoves(t: Thread, f: FiberId)
    requires MemoryOk(t) && t.current in t.fibers && f != t.current && Installed(t, f)
    ensures var next := SwitchTo(t, t.current, f);
            && Moved(t, next) && Installed(next, f)
            && forall g :: g in t.fibers ==> SameLink(t.fibers[g], next.fibers[g])
  {
    SwitchKeepsFrames(t, f);
  }

  lemma LinksThrough(t: Thread, t1: Thread, t2: Thread, t3: Thread, f: FiberId)
    requires SameLinks(t, t1, f) && f in t1.fibers
    requires t2.fibers.Keys == t1.fibers.Keys && forall g :: g in t1.fibers ==> SameLink(t1.fibers[g], t2.fibers[g])
    requires t3.fibers.Keys == t2.fibers.Keys && forall g :: g in t2.fibers ==> SameLink(t2.fibers[g], t3.fibers[g])
    ensures SameLinks(t, t3, f) && SameLink(t1.fibers[f], t3.fibers[f])
  {
    assert SameLink(t1.fibers[f], t2.fibers[f]) && SameLink(t2.fibers[f], t3.fibers[f]);
    forall g | g in t.fibers && g != f ensures SameLink(t.fibers[g], t3.fibers[g]) {
      assert SameLink(t.fibers[g], t1.fibers[g]) && SameLink(t1.fibers[g], t2.fibers[g]);
      assert SameLink(t2.fibers[g], t3.fibers[g]);
    }
  }

  lemma EnterOk(t: Thread, f: FiberId, slot: nat, parent: Option<FiberId>, returnToParent: bool)
    requires Wf(t) && f in t.fibers && f != t.current && CanBind(t, f, slot)
    ensures MemoryOk(PrepareIfShared(t, f, slot)) && f in PrepareIfShared(t, f, slot).fibers
    ensures t.current in PrepareIfShared(t, f, slot).fibers
    ensures var t1 := PrepareIfShared(t, f, slot);
            var fiber := t1.fibers[f].(state := RUNNING, parent := parent, returnToParent := returnToParent);
            var next := SwitchTo(WithFiber(t1, f, fiber), t.current, f);
            && Moved(t, next) && Installed(next, f) && SameLinks(t, next, f)
            && SameLink(fiber, next.fibers[f])
  {
    PrepareMoves(t, f, slot);
    var t1 := PrepareIfShared(t, f, slot);
    var fiber := t1.fibers[f].(state := RUNNING, parent := parent, returnToParent := returnToParent);
    var t2 := WithFiber(t1, f, fiber);
    ControlMoves(t1, f, fiber);
    SwitchMoves(t2, f);
    var next := SwitchTo(t2, t.current, f);
    MovedTwice(t, t1, t2);
    MovedTwice(t, t2, next);
    forall g | g in t.fibers && g != f ensures SameLink(t.fibers[g], next.fibers[g]) {
      assert SameLink(t.fibers[g], t1.fibers[g]) && SameLink(t1.fibers[g], t2.fibers[g]);
      assert SameLink(t2.fibers[g], next.fibers[g]);
    }
  }

  lemma LeaveOk(t: Thread, fiber: Fiber, p: FiberId, slot: nat)
    requires Wf(t) && p in t.fibers && p != t.current && CanBind(t, p, slot)
    requires fiber
          == t.fibers[t.current].(state := fiber.state, parent := fiber.parent, returnToParent := fiber.returnToParent)
    ensures MemoryOk(WithFiber(t, t.current, fiber))
    ensures t.current in PrepareIfShared(WithFiber(t, t.current, fiber), p, slot).fibers
    ensures p in PrepareIfShared(WithFiber(t, t.current, fiber), p, slot).fibers
    ensures var next := SwitchTo(PrepareIfShared(WithFiber(t, t.current, fiber), p, slot), t.current, p);
            && Moved(t, next) && Installed(next, p) && SameLinks(t, next, t.current)
            && SameLink(fiber, next.fibers[t.current])
  {
    var f := t.current;
    var t1 := WithFiber(t, f, fiber);
    ControlMoves(t, f, fiber);
    PrepareMoves(t1, p, slot);
    var t2 := PrepareIfShared(t1, p, slot);
    SwitchMoves(t2, p);
    var next := SwitchTo(t2, f, p);
    MovedTwice(t, t1, t2);
    MovedTwice(t, t2, next);
    LinksThrough(t, t1, t2, next, f);
  }

  ghost predicate NoLink(t: Thread, f: FiberId)
    requires f in t.fibers
  {
    t.fibers[f].parent.None? && !t.fibers[f].returnToParent
  }

  /** `p` is current again, and the fiber that yielded has no caller any more. */
  ghost predicate Left(t: Thread, next: Thread, p: FiberId, terminated: bool)
    requires t.current in t.fibers
  {
    && Moved(t, next) && Installed(next, p) && SameLinks(t, next, t.current) && next.current == p
    && NoLink(next, t.current) && next.fibers[t.current].state == if terminated then TERM else READY
  }

  lemma BackLeaves(t: Thread, terminated: bool)
    requires Wf(t) && ReturnsToParent(t)
    ensures Left(t, Back(t, terminated), t.fibers[t.current].parent.value, terminated)
  {
    var p := t.fibers[t.current].parent.value;
    assert LinkOk(t, t.current) && BindingOk(t, p);
    LeaveOk(t, Yielding(t, terminated).(parent := None, returnToParent := false), p, 0);
  }

  lemma GoHomeLeaves(t: Thread, terminated: bool)
    requires Wf(t) && NoLink(t, t.current) && Home(t, t.current) != t.current
    ensures Left(t, GoHome(t, terminated), Home(t, t.current), terminated)
  {
    assert BindingOk(t, Home(t, t.current));
    LeaveOk(t, Yielding(t, terminated), Home(t, t.current), 0);
  }

  // ----- new buffers

  lemma GrownWf(t: Thread, added: seq<Slot>)
    requires Wf(t) && Unowned(added)
    ensures Wf(Grown(t, added))
  {
    GrownOk(t, added);
    forall f | f in t.fibers ensures LinkOk(Grown(t, added), f) {
      assert LinkOk(t, f);
    }
  }

  /** The common end of resume and call, once the slot of `f` is ready. */
  function EnterFrom(t: Thread, f: FiberId, parent: Option<FiberId>, returnToParent: bool): Thread
    requires f in t.fibers && t.current in t.fibers
  {
    var fiber := t.fibers[f].(state := RUNNING, parent := parent, returnToParent := returnToParent);
    SwitchTo(WithFiber(t, f, fiber), t.current, f)
  }

  lemma ResumeEnters(t: Thread, added: seq<Slot>, f: FiberId, slot: nat)
    requires Wf(t) && Unowned(added) && f in t.fibers && t.fibers[f].state == READY && Home(t, f) == t.current
    requires CanBind(Grown(t, added), f, slot)
    ensures Wf(Grown(t, added)) && Enabled(Grown(t, added), Resume(f, slot))
    ensures var t1 := PrepareIfShared(Grown(t, added), f, slot);
            && f in t1.fibers && t1.current in t1.fibers && t1.current == t.current
            && Apply(Grown(t, added), Resume(f, slot))
            == EnterFrom(t1, f, t1.fibers[f].parent, t1.fibers[f].returnToParent)
  {
    GrownWf(t, added);
    PreparedIfShared(Grown(t, added), f, slot);
  }

  lemma CallEnters(t: Thread, added: seq<Slot>, f: FiberId, slot: nat)
    requires Wf(t) && Unowned(added) && f in t.fibers && CallCode(t, f) == CALL_OK
    requires CanBind(Grown(t, added), f, slot)
    ensures Wf(Grown(t, added)) && Enabled(Grown(t, added), Call(f, slot))
    ensures var t1 := PrepareIfShared(Grown(t, added), f, slot);
            && f in t1.fibers && t1.current in t1.fibers && t1.current == t.current
            && Apply(Grown(t, added), Call(f, slot)) == EnterFrom(t1, f, Some(t.current), true)
  {
    GrownWf(t, added);
    PreparedIfShared(Grown(t, added), f, slot);
  }

  lemma BeforeBack(t: Thread, terminated: bool)
    requires Wf(t) && ReturnsToParent(t)
    ensures var p := t.fibers[t.current].parent.value;
            var t1 := WithFiber(t, t.current, Yielding(t, terminated).(parent := None, returnToParent := false));
            && MemoryOk(t1) && p in t1.fibers && p != t.current && t1.fibers[p].slot.Some? && Bound(t1, p)
            && CanBind(t1, p, 0)
            && t.current in PrepareIfShared(t1, p, 0).fibers && p in PrepareIfShared(t1, p, 0).fibers
            && Back(t, terminated) == SwitchTo(PrepareIfShared(t1, p, 0), t.current, p)
  {
    var f, p := t.current, t.fibers[t.current].parent.value;
    assert LinkOk(t, f) && BindingOk(t, p);
    var fiber := Yielding(t, terminated).(parent := None, returnToParent := false);
    ControlKeepsFrames(t, f, fiber);
    PreparedIfShared(WithFiber(t, f, fiber), p, 0);
  }

  // ----- what the operations decide

  /** A fiber that nobody called goes back to the scheduler fiber if it runs in the scheduler, else to the thread
      fiber, and is ready unless it terminated. */
  lemma YieldGoesHome(t: Thread, terminated: bool)
    requires Wf(t) && NoLink(t, t.current) && Home(t, t.current) != t.current
    ensures var next, f := ApplyYield(t, terminated), t.fibers[t.current];
            && next.current == (if f.inScheduler then t.schedulerFiber else t.threadFiber)
            && t.current in next.fibers
            && next.fibers[t.current].state == if terminated then TERM else READY
  {
    GoHomeLeaves(t, terminated);
  }

  lemma SetSchedulerAnswers(t: Thread, f: FiberId)
    requires Wf(t) && Enabled(t, SetScheduler(f))
    ensures Apply(t, SetScheduler(f)).schedulerFiber == f && Apply(t, SetScheduler(f)).fibers == t.fibers
  {
  }

  /** A new fiber is ready, as it was asked for, without a caller; a private one has a buffer of its own. */
  lemma CreateAnswers(t: Thread, f: FiberId, shared: bool, inScheduler: bool, base: nat, memory: seq<byte>)
    requires 0 <= EntryOffset(base, |memory|)
    ensures var next := ApplyCreate(t, f, shared, inScheduler, base, memory);
            && f in next.fibers && f < next.nextId && next.current == t.current
            && var fiber := next.fibers[f];
               && fiber.shared == shared && fiber.inScheduler == inScheduler && fiber.size == |memory|
               && fiber.state == READY && NoLink(next, f) && fiber.snapshot == []
               && (shared ==> fiber.slot.None? && next.slots == t.slots)
               && (!shared ==>
                     && fiber.slot == Some(|t.slots|) && |next.slots| == |t.slots| + 1
                     && next.slots[..|t.slots|] == t.slots && !next.slots[|t.slots|].pooled
                     && next.slots[|t.slots|].owner == Some(f) && |next.slots[|t.slots|].stack| == |memory|)
  {
  }
}

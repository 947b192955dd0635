/** Stack memory of one thread: the buffers fibers run on, and the snapshots through which several fibers
    time-share one of them. A private stack is a buffer with a single fiber. */
module Stacks {
  import opened FiberIds

  newtype byte = b: int | 0 <= b < 256

  datatype Option<T> = None | Some(value: T)

  datatype FiberState = READY | RUNNING | TERM

  const NO_THREAD := -1

  /** `sp`: the stack pointer in the saved context, as an offset into the fiber's buffer; `ownerThread`: the
      only thread that a shared fiber may run on, once it has run. */
  datatype Fiber = Fiber(
    shared: bool,
    inScheduler: bool,
    size: nat,
    state: FiberState,
    sp: int,
    initialized: bool,
    ownerThread: int,
    slot: Option<nat>,
    snapshot: seq<byte>,
    parent: Option<FiberId>,
    returnToParent: bool)

  /** `base`: the buffer's address; `pad`: its bytes above the entry word, which nobody writes;
      `pooled`: a slot of the shared-stack pool. */
  datatype Slot = Slot(stack: seq<byte>, base: nat, pad: seq<byte>, pooled: bool, owner: Option<FiberId>)

  /** `fibers`: those alive; `sp`: the stack pointer register, an offset into the current fiber's buffer. */
  datatype Thread = Thread(
    tid: nat,
    fibers: map<FiberId, Fiber>,
    slots: seq<Slot>,
    current: FiberId,
    threadFiber: FiberId,
    schedulerFiber: FiberId,
    sp: int,
    nextId: nat)

  // ----- the entry of a fiber

  const ALIGNMENT: nat := 16
  const ENTRY_ADJUST: nat := 8
  const ZEROS: seq<byte> := [0, 0, 0, 0, 0, 0, 0, 0]

  function AlignDown(value: nat, alignment: nat): nat
    requires alignment > 0
  {
    value - value % alignment
  }

  /** Offset of the entry stack pointer in a buffer; negative if the buffer is too small. */
  function EntryOffset(base: nat, size: nat): int { AlignDown(base + size, ALIGNMENT) - ENTRY_ADJUST - base }

  /** At the entry the stack is aligned as after a call instruction (section 3.2.2 of the System V AMD64
      psABI); the entry word lies inside an aligned buffer exactly if that has at least 16 bytes. */
  lemma EntryIsAligned(base: nat, size: nat)
    ensures (base + EntryOffset(base, size) + ENTRY_ADJUST) % ALIGNMENT == 0
    ensures EntryOffset(base, size) + ENTRY_ADJUST <= size < EntryOffset(base, size) + ENTRY_ADJUST + ALIGNMENT
    ensures base % ALIGNMENT == 0 ==> (EntryOffset(base, size) >= 0 <==> size >= ALIGNMENT)
  {
    var top := base + size;
    assert (top - top % ALIGNMENT) % ALIGNMENT == 0;
    if base % ALIGNMENT == 0 {
      assert top % ALIGNMENT == size % ALIGNMENT;
    }
  }

  function Entry(s: Slot): int { EntryOffset(s.base, |s.stack|) }

  ghost predicate SlotOk(s: Slot) {
    0 <= Entry(s) && Entry(s) + 8 + |s.pad| == |s.stack| && s.stack[Entry(s) + 8..] == s.pad
  }

  function Tail(s: Slot): seq<byte> { ZEROS + s.pad }

  /** A buffer as the allocator returns it. */
  function NewSlot(base: nat, memory: seq<byte>, pooled: bool, owner: Option<FiberId>): (s: Slot)
    requires 0 <= EntryOffset(base, |memory|)
    ensures SlotOk(s)
  {
    EntryIsAligned(base, |memory|);
    Slot(memory, base, memory[EntryOffset(base, |memory|) + 8..], pooled, owner)
  }

  /** Initialising a context writes the entry word. */
  function WriteEntry(s: Slot): (s': Slot)
    requires SlotOk(s)
    ensures |s'.stack| == |s.stack| && SlotOk(s') && s'.stack[Entry(s')..] == Tail(s')
  {
    var s' := s.(stack := s.stack[..Entry(s)] + ZEROS + s.stack[Entry(s) + 8..]);
    assert s'.stack[Entry(s)..] == Tail(s');
    assert s'.stack[Entry(s) + 8..] == s.pad;
    s'
  }

  /** Writing the entry word into a slot that is in use changes nothing: the word is zero already. */
  lemma InitIsHarmless(s: Slot)
    requires SlotOk(s) && s.stack[Entry(s)..] == Tail(s)
    ensures WriteEntry(s) == s
  {
    var e := Entry(s);
    assert s.stack[e..][..8] == ZEROS;
    assert s.stack == s.stack[..e] + s.stack[e..][..8] + s.stack[e + 8..];
  }

  // ----- the frame of one fiber in one slot

  /** The fiber's bytes are where they belong: in the buffer while it owns the slot, else in its snapshot. A
      fiber that has not run yet may have no snapshot: its frame is the entry word every fiber of the slot has. */
  ghost predicate Fits(f: Fiber, s: Slot, sp: int, owns: bool) {
    && SlotOk(s)
    && 0 <= sp <= Entry(s)
    && s.stack[Entry(s)..] == Tail(s)
    && (owns || SnapshotOk(f, s, sp))
  }

  ghost predicate SnapshotOk(f: Fiber, s: Slot, sp: int)
    requires SlotOk(s) && 0 <= sp <= Entry(s)
  {
    if f.snapshot == [] then sp == Entry(s)
    else |f.snapshot| == |s.stack| - sp && f.snapshot[Entry(s) - sp..] == Tail(s)
  }

  /** The live bytes, from the stack pointer up to and including the entry word. */
  ghost function FrameAt(f: Fiber, s: Slot, sp: int, owns: bool): (frame: seq<byte>)
    requires Fits(f, s, sp, owns)
    ensures |frame| == Entry(s) + 8 - sp
  {
    if owns then s.stack[sp..Entry(s) + 8]
    else if f.snapshot == [] then ZEROS
    else f.snapshot[..|f.snapshot| - |s.pad|]
  }

  /** A snapshot of the slot is as good as the slot. */
  lemma Snapshot(f: Fiber, s: Slot, sp: int)
    requires Fits(f, s, sp, true)
    ensures var saved := f.(snapshot := s.stack[sp..]);
            && Fits(saved, s, sp, false) && Fits(saved, s, sp, true)
            && FrameAt(saved, s, sp, false) == FrameAt(f, s, sp, true) == FrameAt(saved, s, sp, true)
  {
    var e := Entry(s);
    assert s.stack[sp..][e - sp..] == s.stack[e..];
    assert s.stack[sp..][..e + 8 - sp] == s.stack[sp..e + 8];
  }

  function Restored(s: Slot, snapshot: seq<byte>): Slot
    requires |snapshot| <= |s.stack|
  {
    s.(stack := s.stack[..|s.stack| - |snapshot|] + snapshot)
  }

  /** Copying the snapshot back gives the fiber the bytes it had. */
  lemma RestoreReturns(f: Fiber, s: Slot, sp: int)
    requires Fits(f, s, sp, false)
    ensures |f.snapshot| <= |s.stack| && SameTop(s, Restored(s, f.snapshot))
    ensures Fits(f, Restored(s, f.snapshot), sp, true)
    ensures FrameAt(f, Restored(s, f.snapshot), sp, true) == FrameAt(f, s, sp, false)
  {
    var e := Entry(s);
    var s' := Restored(s, f.snapshot);
    if f.snapshot == [] {
      assert s'.stack == s.stack;
      assert s.stack[e..e + 8] == s.stack[e..][..8];
    } else {
      assert s'.stack[sp..] == f.snapshot;
      assert s'.stack[e..] == s'.stack[sp..][e - sp..];
      assert s'.stack[sp..e + 8] == s'.stack[sp..][..e + 8 - sp];
      assert s'.stack[e + 8..] == s'.stack[e..][8..];
    }
  }

  /** Two contents of a buffer that agree from the entry word on. */
  ghost predicate SameTop(s: Slot, s': Slot) {
    && SlotOk(s) && SlotOk(s')
    && |s'.stack| == |s.stack| && s'.base == s.base && s'.pad == s.pad && s'.pooled == s.pooled
    && s'.stack[Entry(s)..] == s.stack[Entry(s)..]
  }

  /** Whoever does not own the slot does not notice what is written below the entry word. */
  lemma OthersUnaffected(f: Fiber, s: Slot, s': Slot, sp: int)
    requires Fits(f, s, sp, false) && SameTop(s, s')
    ensures Fits(f, s', sp, false) && FrameAt(f, s', sp, false) == FrameAt(f, s, sp, false)
  {
  }

  // ----- the thread's memory

  ghost predicate Bound(t: Thread, f: FiberId) {
    f in t.fibers && t.fibers[f].slot.Some? && t.fibers[f].slot.value < |t.slots|
  }

  function SlotOf(t: Thread, f: FiberId): Slot
    requires Bound(t, f)
  {
    t.slots[t.fibers[f].slot.value]
  }

  /** The stack pointer of a fiber: in the register while it is the current one. */
  function SpOf(t: Thread, f: FiberId): int
    requires f in t.fibers
  {
    if f == t.current then t.sp else t.fibers[f].sp
  }

  ghost predicate Owns(t: Thread, f: FiberId)
    requires Bound(t, f)
  {
    SlotOf(t, f).owner == Some(f)
  }

  ghost predicate FrameOk(t: Thread, f: FiberId)
    requires f in t.fibers
  {
    t.fibers[f].initialized ==> Bound(t, f) && Fits(t.fibers[f], SlotOf(t, f), SpOf(t, f), Owns(t, f))
  }

  /** What the fiber would have on a stack of its own. */
  ghost function FrameOf(t: Thread, f: FiberId): seq<byte>
    requires f in t.fibers && FrameOk(t, f)
  {
    if t.fibers[f].initialized then FrameAt(t.fibers[f], SlotOf(t, f), SpOf(t, f), Owns(t, f)) else ZEROS
  }

  /** A private fiber always owns its buffer; a shared one is bound to a pool slot once it has been entered. */
  ghost predicate BindingOk(t: Thread, f: FiberId)
    requires f in t.fibers
  {
    && (t.fibers[f].slot.Some? ==> Bound(t, f) && SlotOf(t, f).pooled == t.fibers[f].shared)
    && (!t.fibers[f].shared ==> t.fibers[f].initialized && Bound(t, f) && Owns(t, f))
    && (!t.fibers[f].initialized ==> t.fibers[f].snapshot == [])
    && (t.fibers[f].shared ==>
          t.fibers[f].ownerThread == if t.fibers[f].slot.Some? then t.tid else NO_THREAD)
  }

  /** The fiber that occupies the slot, if it is still alive. */
  function LiveOwner(t: Thread, i: nat): Option<FiberId>
    requires i < |t.slots|
  {
    if t.slots[i].owner.Some? && t.slots[i].owner.value in t.fibers then t.slots[i].owner else None
  }

  ghost predicate OwnerOk(t: Thread, i: nat)
    requires i < |t.slots|
  {
    && SlotOk(t.slots[i])
    && (t.slots[i].owner.Some? ==> t.slots[i].owner.value < t.nextId)
    && var o := LiveOwner(t, i);
       o.Some? ==> t.fibers[o.value].initialized && t.fibers[o.value].slot == Some(i)
  }

  ghost predicate MemoryOk(t: Thread) {
    && (forall i :: 0 <= i < |t.slots| ==> OwnerOk(t, i))
    && (forall f {:trigger FrameOk(t, f)} {:trigger BindingOk(t, f)} :: f in t.fibers ==>
          FrameOk(t, f) && BindingOk(t, f))
  }

  ghost predicate SameFrame(t: Thread, t': Thread, f: FiberId)
    requires f in t.fibers && FrameOk(t, f)
  {
    f in t'.fibers && FrameOk(t', f) && FrameOf(t', f) == FrameOf(t, f)
  }

  ghost predicate SameFrames(t: Thread, t': Thread)
    requires forall f :: f in t.fibers ==> FrameOk(t, f)
  {
    forall f :: f in t.fibers ==> SameFrame(t, t', f)
  }

  // ----- making a slot ready for a fiber

  /** The first time a shared fiber is prepared it is bound to the thread. */
  function ClaimThread(t: Thread, f: FiberId): Thread
    requires f in t.fibers
  {
    if t.fibers[f].ownerThread == NO_THREAD then t.(fibers := t.fibers[f := t.fibers[f].(ownerThread := t.tid)]) else t
  }

  function WithSlot(t: Thread, f: FiberId, pick: nat): Thread
    requires f in t.fibers
  {
    if t.fibers[f].slot.None? then t.(fibers := t.fibers[f := t.fibers[f].(slot := Some(pick))]) else t
  }

  /** Binds the fiber to the thread and to a pool slot of its size. */
  function Bind(t: Thread, f: FiberId, pick: nat): Thread
    requires f in t.fibers
  {
    WithSlot(ClaimThread(t, f), f, pick)
  }

  function InitContext(t: Thread, f: FiberId): Thread
    requires Bound(t, f) && SlotOk(SlotOf(t, f))
  {
    var i := t.fibers[f].slot.value;
    t.(fibers := t.fibers[f := t.fibers[f].(sp := Entry(t.slots[i]), initialized := true)],
       slots := t.slots[i := WriteEntry(t.slots[i])])
  }

  /** Of a fiber that is running the register counts, of any other the saved context. */
  function Save(t: Thread, o: FiberId): Thread
    requires Bound(t, o) && 0 <= SpOf(t, o) <= |SlotOf(t, o).stack|
  {
    t.(fibers := t.fibers[o := t.fibers[o].(snapshot := SlotOf(t, o).stack[SpOf(t, o)..])])
  }

  function Restore(t: Thread, f: FiberId): Thread
    requires Bound(t, f) && |t.fibers[f].snapshot| <= |SlotOf(t, f).stack|
  {
    t.(slots := t.slots[t.fibers[f].slot.value := Restored(SlotOf(t, f), t.fibers[f].snapshot).(owner := Some(f))])
  }

  ghost predicate CanBind(t: Thread, f: FiberId, pick: nat)
    requires f in t.fibers
  {
    t.fibers[f].slot.None? ==> pick < |t.slots| && t.slots[pick].pooled && |t.slots[pick].stack| == t.fibers[f].size
  }

  ghost predicate CanPrepare(t: Thread, f: FiberId, pick: nat) {
    MemoryOk(t) && f in t.fibers && t.fibers[f].shared && f != t.current && CanBind(t, f, pick)
  }

  function Started(t: Thread, f: FiberId, pick: nat): Thread
    requires CanPrepare(t, f, pick)
  {
    assert BindingOk(t, f) && FrameOk(t, f);
    var t1 := Bind(t, f, pick);
    assert OwnerOk(t, t1.fibers[f].slot.value);
    if t1.fibers[f].initialized then t1 else InitContext(t1, f)
  }

  /** Takes the slot over: the live owner, if it is somebody else, is saved first. */
  function TakeOver(t: Thread, f: FiberId): Thread
    requires MemoryOk(t) && f in t.fibers && t.fibers[f].initialized
  {
    assert FrameOk(t, f);
    var i := t.fibers[f].slot.value;
    assert OwnerOk(t, i);
    var owner := LiveOwner(t, i);
    assert owner.Some? ==> FrameOk(t, owner.value);
    if owner == Some(f) then t
    else
      var saved := if owner.Some? then Save(t, owner.value) else t;
      Restore(saved, f)
  }

  function Prepare(t: Thread, f: FiberId, pick: nat): Thread
    requires CanPrepare(t, f, pick)
  {
    StartedOk(t, f, pick);
    TakeOver(Started(t, f, pick), f)
  }

  // ----- what it keeps

  lemma BindOk(t: Thread, f: FiberId, pick: nat)
    requires CanPrepare(t, f, pick)
    ensures MemoryOk(Bind(t, f, pick)) && SameFrames(t, Bind(t, f, pick))
  {
    var next := Bind(t, f, pick);
    assert FrameOk(t, f) && BindingOk(t, f);
    forall g | g in t.fibers ensures FrameOk(next, g) && BindingOk(next, g) && SameFrame(t, next, g) {
      assert FrameOk(t, g) && BindingOk(t, g);
    }
    forall i | 0 <= i < |t.slots| ensures OwnerOk(next, i) {
      assert OwnerOk(t, i);
    }
  }

  /** Initialising the context of a fiber without a frame, in a slot that others may be using. */
  lemma InitContextOk(t: Thread, f: FiberId)
    requires MemoryOk(t) && Bound(t, f) && SlotOk(SlotOf(t, f)) && f != t.current && t.fibers[f].snapshot == []
    ensures MemoryOk(InitContext(t, f)) && FrameOf(InitContext(t, f), f) == ZEROS
    ensures forall g :: g in t.fibers && g != f ==> SameFrame(t, InitContext(t, f), g)
  {
    var next := InitContext(t, f);
    forall g | g in t.fibers ensures FrameOk(next, g) && BindingOk(next, g) && (g != f ==> SameFrame(t, next, g)) {
      assert FrameOk(t, g) && BindingOk(t, g);
      InitOne(t, f, g);
    }
    forall k | 0 <= k < |t.slots| ensures OwnerOk(next, k) {
      assert OwnerOk(t, k);
    }
    InitOne(t, f, f);
  }

  lemma InitOne(t: Thread, f: FiberId, g: FiberId)
    requires Bound(t, f) && SlotOk(SlotOf(t, f)) && f != t.current && t.fibers[f].snapshot == []
    requires g in t.fibers && BindingOk(t, g) && (g != f ==> FrameOk(t, g))
    ensures var next := InitContext(t, f);
            && FrameOk(next, g) && BindingOk(next, g)
            && if g == f then FrameOf(next, g) == ZEROS else FrameOf(next, g) == FrameOf(t, g)
  {
    var next := InitContext(t, f);
    var i := t.fibers[f].slot.value;
    var s, s' := t.slots[i], next.slots[i];
    if g == f {
      assert s'.stack[Entry(s)..Entry(s) + 8] == s'.stack[Entry(s)..][..8] == ZEROS;
    } else if t.fibers[g].initialized && t.fibers[g].slot.value == i {
      InitIsHarmless(s);
    }
  }

  lemma StartedOk(t: Thread, f: FiberId, pick: nat)
    requires CanPrepare(t, f, pick)
    ensures var next := Started(t, f, pick);
            && MemoryOk(next) && SameFrames(t, next)
            && f in next.fibers && next.fibers[f].initialized && next.nextId == t.nextId
            && next.current == t.current && next.fibers.Keys == t.fibers.Keys
  {
    BindOk(t, f, pick);
    var t1 := Bind(t, f, pick);
    assert BindingOk(t1, f) && FrameOk(t1, f) && SameFrame(t, t1, f);
    assert OwnerOk(t1, t1.fibers[f].slot.value);
    if !t1.fibers[f].initialized {
      assert BindingOk(t1, f) && FrameOk(t1, f) && SameFrame(t, t1, f);
      InitContextOk(t1, f);
      var next := InitContext(t1, f);
      forall g | g in t.fibers ensures SameFrame(t, next, g) {
        assert SameFrame(t, t1, g);
        if g != f {
          assert SameFrame(t1, next, g);
        }
      }
    }
  }

  lemma SaveOk(t: Thread, o: FiberId)
    requires MemoryOk(t) && o in t.fibers && FrameOk(t, o) && t.fibers[o].initialized && Owns(t, o)
    ensures MemoryOk(Save(t, o)) && SameFrames(t, Save(t, o))
    ensures var next := Save(t, o);
            && Fits(next.fibers[o], SlotOf(next, o), SpOf(next, o), false)
            && FrameAt(next.fibers[o], SlotOf(next, o), SpOf(next, o), false) == FrameOf(t, o)
  {
    var next := Save(t, o);
    Snapshot(t.fibers[o], SlotOf(t, o), SpOf(t, o));
    forall g | g in t.fibers ensures FrameOk(next, g) && BindingOk(next, g) && SameFrame(t, next, g) {
      assert FrameOk(t, g) && BindingOk(t, g);
    }
    forall i | 0 <= i < |t.slots| ensures OwnerOk(next, i) {
      assert OwnerOk(t, i);
    }
  }

  lemma TakeOverOk(t: Thread, f: FiberId)
    requires MemoryOk(t) && f in t.fibers && t.fibers[f].initialized && t.fibers[f].shared && f < t.nextId
    ensures var next := TakeOver(t, f);
            && MemoryOk(next) && SameFrames(t, next) && next.fibers.Keys == t.fibers.Keys
            && Bound(next, f) && Owns(next, f) && next.fibers[f].initialized
  {
    assert FrameOk(t, f) && BindingOk(t, f);
    var i := t.fibers[f].slot.value;
    assert OwnerOk(t, i);
    var owner := LiveOwner(t, i);
    if owner.Some? && owner != Some(f) {
      EvictOk(t, f, owner.value);
    } else if owner.None? {
      RestoreOk(t, f);
    }
  }

  lemma EvictOk(t: Thread, f: FiberId, o: FiberId)
    requires MemoryOk(t) && f in t.fibers && t.fibers[f].initialized && t.fibers[f].shared && f < t.nextId
    requires o != f && FrameOk(t, f) && LiveOwner(t, t.fibers[f].slot.value) == Some(o)
    ensures var next := TakeOver(t, f);
            && MemoryOk(next) && SameFrames(t, next) && next.fibers.Keys == t.fibers.Keys
            && Bound(next, f) && Owns(next, f) && next.fibers[f].initialized
  {
    assert BindingOk(t, f) && OwnerOk(t, t.fibers[f].slot.value) && FrameOk(t, o);
    SaveOk(t, o);
    var saved := Save(t, o);
    RestoreOk(saved, f);
    forall g | g in t.fibers ensures SameFrame(t, Restore(saved, f), g) {
      assert SameFrame(t, saved, g) && SameFrame(saved, Restore(saved, f), g);
    }
  }

  /** The live owner of the slot can do without it. */
  ghost predicate Evictable(t: Thread, i: nat)
    requires i < |t.slots|
  {
    var o := LiveOwner(t, i);
    o.Some? ==> FrameOk(t, o.value) && t.fibers[o.value].initialized && t.fibers[o.value].slot == Some(i)
                && Fits(t.fibers[o.value], t.slots[i], SpOf(t, o.value), false)
                && FrameAt(t.fibers[o.value], t.slots[i], SpOf(t, o.value), false) == FrameOf(t, o.value)
  }

  lemma RestoreOne(t: Thread, f: FiberId, g: FiberId)
    requires f in t.fibers && t.fibers[f].initialized && FrameOk(t, f) && !Owns(t, f)
    requires Evictable(t, t.fibers[f].slot.value) && SlotOf(t, f).pooled
    requires g in t.fibers && FrameOk(t, g) && BindingOk(t, g)
    requires |t.fibers[f].snapshot| <= |SlotOf(t, f).stack|
    ensures BindingOk(Restore(t, f), g) && SameFrame(t, Restore(t, f), g)
  {
    var next := Restore(t, f);
    var i := t.fibers[f].slot.value;
    var s := t.slots[i];
    RestoreReturns(t.fibers[f], s, SpOf(t, f));
    if t.fibers[g].initialized && t.fibers[g].slot.value == i && g != f {
      OthersUnaffected(t.fibers[g], s, next.slots[i], SpOf(t, g));
    }
  }

  lemma RestoreOk(t: Thread, f: FiberId)
    requires MemoryOk(t) && f in t.fibers && FrameOk(t, f) && t.fibers[f].initialized && !Owns(t, f)
    requires Evictable(t, t.fibers[f].slot.value) && SlotOf(t, f).pooled && f < t.nextId
    ensures |t.fibers[f].snapshot| <= |SlotOf(t, f).stack|
    ensures MemoryOk(Restore(t, f)) && SameFrames(t, Restore(t, f)) && Owns(Restore(t, f), f)
  {
    assert FrameOk(t, f);
    RestoreReturns(t.fibers[f], SlotOf(t, f), SpOf(t, f));
    var next := Restore(t, f);
    forall g | g in t.fibers ensures FrameOk(next, g) && BindingOk(next, g) && SameFrame(t, next, g) {
      assert FrameOk(t, g) && BindingOk(t, g);
      RestoreOne(t, f, g);
    }
    forall i | 0 <= i < |t.slots| ensures OwnerOk(next, i) {
      assert OwnerOk(t, i);
    }
  }

  // ----- new buffers

  ghost predicate Unowned(added: seq<Slot>) {
    forall s :: s in added ==> SlotOk(s) && s.owner.None? && s.pooled
  }

  function Grown(t: Thread, added: seq<Slot>): Thread { t.(slots := t.slots + added) }

  lemma GrownOk(t: Thread, added: seq<Slot>)
    requires MemoryOk(t) && Unowned(added)
    ensures MemoryOk(Grown(t, added)) && SameFrames(t, Grown(t, added))
  {
    var next := Grown(t, added);
    forall g | g in t.fibers ensures FrameOk(next, g) && BindingOk(next, g) && SameFrame(t, next, g) {
      assert FrameOk(t, g) && BindingOk(t, g);
    }
    forall i | 0 <= i < |next.slots| ensures OwnerOk(next, i) {
      if i < |t.slots| {
        assert OwnerOk(t, i);
      } else {
        assert next.slots[i] in added;
      }
    }
  }

  // ----- what each step of preparing may rely on

  function InitIfNeeded(t: Thread, f: FiberId): Thread
    requires Bound(t, f) && SlotOk(SlotOf(t, f))
  {
    if t.fibers[f].initialized then t else InitContext(t, f)
  }

  lemma BeforeStart(t: Thread, added: seq<Slot>, f: FiberId, pick: nat)
    requires MemoryOk(t) && Unowned(added) && f in t.fibers && t.fibers[f].shared && f != t.current
    requires CanBind(Grown(t, added), f, pick)
    ensures CanPrepare(Grown(t, added), f, pick)
    ensures var t1 := Bind(Grown(t, added), f, pick);
            && Bound(t1, f) && SlotOk(SlotOf(t1, f))
            && BeforeTakeOver(InitIfNeeded(t1, f), f)
            && Prepare(Grown(t, added), f, pick) == TakeOver(InitIfNeeded(t1, f), f)
  {
    GrownOk(t, added);
    var t0 := Grown(t, added);
    BindOk(t0, f, pick);
    StartedOk(t0, f, pick);
    assert BindingOk(Bind(t0, f, pick), f);
    assert OwnerOk(t0, Bind(t0, f, pick).fibers[f].slot.value);
    assert BindingOk(Started(t0, f, pick), f) && FrameOk(Started(t0, f, pick), f);
  }

  ghost predicate BeforeTakeOver(t: Thread, f: FiberId) {
    MemoryOk(t) && Bound(t, f) && t.fibers[f].initialized && t.fibers[f].shared
  }

  lemma BeforeSave(t: Thread, f: FiberId, o: FiberId)
    requires MemoryOk(t) && Bound(t, f) && SlotOf(t, f).owner == Some(o) && o in t.fibers
    ensures t.fibers[o].slot == t.fibers[f].slot && 0 <= SpOf(t, o) <= |SlotOf(t, o).stack|
  {
    assert OwnerOk(t, t.fibers[f].slot.value);
    assert FrameOk(t, o);
  }

  lemma BeforeRestore(t: Thread, f: FiberId)
    requires MemoryOk(t) && Bound(t, f) && t.fibers[f].initialized && SlotOf(t, f).owner != Some(f)
    ensures |t.fibers[f].snapshot| <= |SlotOf(t, f).stack|
  {
    assert FrameOk(t, f);
  }

  // ----- the theorem about preparing

  /** Nothing but the slot and the two fibers' bookkeeping changes. */
  ghost predicate OnlySlots(t: Thread, t': Thread) {
    && t'.current == t.current && t'.threadFiber == t.threadFiber && t'.schedulerFiber == t.schedulerFiber
    && t'.tid == t.tid && t'.sp == t.sp && t'.nextId == t.nextId && |t'.slots| == |t.slots|
    && t'.fibers.Keys == t.fibers.Keys
    && forall g :: g in t.fibers ==> SameControl(t.fibers[g], t'.fibers[g])
  }

  /** Buffers stay where they are, of the size they have. */
  ghost predicate SameShape(s: Slot, s': Slot) {
    |s'.stack| == |s.stack| && s'.base == s.base && s'.pad == s.pad && s'.pooled == s.pooled
  }

  predicate SameControl(f: Fiber, f': Fiber) {
    && f'.shared == f.shared && f'.inScheduler == f.inScheduler && f'.size == f.size && f'.state == f.state
    && f'.parent == f.parent && f'.returnToParent == f.returnToParent
    && (f.slot.Some? ==> f'.slot == f.slot) && (f.ownerThread != NO_THREAD ==> f'.ownerThread == f.ownerThread)
  }

  ghost predicate Untouched(t: Thread, t': Thread) {
    && OnlySlots(t, t')
    && (forall i :: 0 <= i < |t.slots| ==> SameShape(t.slots[i], t'.slots[i]))
    && (forall i :: 0 <= i < |t.slots| && !t.slots[i].pooled ==> t'.slots[i] == t.slots[i])
  }

  lemma StartedTouches(t: Thread, f: FiberId, pick: nat)
    requires CanPrepare(t, f, pick)
    ensures Untouched(t, Started(t, f, pick))
  {
    assert BindingOk(t, f);
  }

  lemma TakeOverTouches(t: Thread, f: FiberId)
    requires MemoryOk(t) && f in t.fibers && t.fibers[f].initialized && t.fibers[f].shared
    ensures Untouched(t, TakeOver(t, f))
  {
    assert BindingOk(t, f) && FrameOk(t, f);
    assert OwnerOk(t, t.fibers[f].slot.value);
    var owner := LiveOwner(t, t.fibers[f].slot.value);
    if owner.Some? {
      assert FrameOk(t, owner.value);
    }
  }

  lemma StartedBinds(t: Thread, f: FiberId, pick: nat)
    requires CanPrepare(t, f, pick) && t.fibers[f].slot.None?
    ensures var next := Started(t, f, pick);
            && next.fibers.Keys == t.fibers.Keys && next.fibers[f].slot == Some(pick)
            && forall g :: g in t.fibers && g != f ==> next.fibers[g].slot == t.fibers[g].slot
  {
  }

  lemma TakeOverBindsNobody(t: Thread, f: FiberId)
    requires MemoryOk(t) && f in t.fibers && t.fibers[f].initialized
    ensures var next := TakeOver(t, f);
            && next.fibers.Keys == t.fibers.Keys
            && forall g :: g in t.fibers ==> next.fibers[g].slot == t.fibers[g].slot
  {
    assert FrameOk(t, f);
    assert OwnerOk(t, t.fibers[f].slot.value);
    var owner := LiveOwner(t, t.fibers[f].slot.value);
    if owner.Some? {
      assert FrameOk(t, owner.value);
    }
  }

  lemma UntouchedTwice(t: Thread, t': Thread, t'': Thread)
    requires Untouched(t, t') && Untouched(t', t'')
    ensures Untouched(t, t'')
  {
    forall i | 0 <= i < |t.slots| ensures SameShape(t.slots[i], t''.slots[i]) {
      assert SameShape(t.slots[i], t'.slots[i]) && SameShape(t'.slots[i], t''.slots[i]);
    }
    forall g | g in t.fibers ensures SameControl(t.fibers[g], t''.fibers[g]) {
      assert SameControl(t.fibers[g], t'.fibers[g]) && SameControl(t'.fibers[g], t''.fibers[g]);
    }
  }

  /** Preparing a fiber moves bytes about, yet every fiber keeps its frame; the fiber owns its slot then, and
      has its frame in the buffer. Buffers that do not belong to the pool are not touched. */
  lemma PrepareOk(t: Thread, f: FiberId, pick: nat)
    requires CanPrepare(t, f, pick) && f < t.nextId
    ensures var next := Prepare(t, f, pick);
            && MemoryOk(next) && SameFrames(t, next) && Untouched(t, next)
            && Bound(next, f) && Owns(next, f) && next.fibers[f].initialized
    ensures t.fibers[f].ownerThread == NO_THREAD || t.fibers[f].ownerThread == t.tid
    ensures Prepare(t, f, pick).fibers[f].ownerThread == t.tid
  {
    StartedOk(t, f, pick);
    StartedTouches(t, f, pick);
    var t2 := Started(t, f, pick);
    assert SameControl(t.fibers[f], t2.fibers[f]);
    TakeOverOk(t2, f);
    TakeOverTouches(t2, f);
    var next := TakeOver(t2, f);
    UntouchedTwice(t, t2, next);
    forall g | g in t.fibers ensures SameFrame(t, next, g) {
      assert SameFrame(t, t2, g) && SameFrame(t2, next, g);
    }
    assert SameFrame(t2, next, f);
    assert SameControl(t2.fibers[f], next.fibers[f]);
  }
}

/** The fibers of one thread as objects. Every operation does what its counterpart on values does; a context
    is its stack pointer. */
module FiberRuntime {
  import opened FiberIds
  import opened Stacks
  import opened Fibers
  import opened SharedStacks
  import FiberRuns

  class FiberRecord {
    const shared: bool
    const inScheduler: bool
    const size: nat
    var state: FiberState
    var sp: int
    var initialized: bool
    var ownerThread: int
    var slot: Option<nat>
    var snapshot: seq<byte>
    var parent: Option<FiberId>
    var returnToParent: bool

    function Value(): Fiber
      reads this
    {
      Fiber(shared, inScheduler, size, state, sp, initialized, ownerThread, slot, snapshot, parent, returnToParent)
    }

    constructor (shared: bool, inScheduler: bool, size: nat)
      ensures Value() == Fiber(shared, inScheduler, size, READY, 0, false, NO_THREAD, None, [], None, false)
    {
      this.shared, this.inScheduler, this.size := shared, inScheduler, size;
      state, sp, initialized, ownerThread := READY, 0, false, NO_THREAD;
      slot, snapshot, parent, returnToParent := None, [], None, false;
    }
  }

  function Records(fibers: map<FiberId, FiberRecord>): (values: map<FiberId, Fiber>)
    reads fibers.Values
  {
    map f | f in fibers :: fibers[f].Value()
  }

  ghost function Buffers(slots: seq<SharedStackSlot>): (values: seq<Slot>)
    reads slots, set s | s in slots :: s.stack
    ensures |values| == |slots| && forall i :: 0 <= i < |slots| ==> values[i] == slots[i].Value()
  {
    seq(|slots|, i requires 0 <= i < |slots| reads slots, set s | s in slots :: s.stack => slots[i].Value())
  }

  lemma OneRecord(fibers: map<FiberId, FiberRecord>, f: FiberId, was: map<FiberId, Fiber>)
    requires f in fibers && was.Keys == fibers.Keys
    requires forall g :: g in fibers && g != f ==> fibers[g].Value() == was[g]
    ensures Records(fibers) == was[f := fibers[f].Value()]
  {
  }

  lemma OneRecordMore(fibers: map<FiberId, FiberRecord>, f: FiberId, fiber: FiberRecord)
    requires f !in fibers
    ensures Records(fibers[f := fiber]) == Records(fibers)[f := fiber.Value()]
  {
  }

  ghost function Anything(size: nat): (memory: seq<byte>)
    ensures |memory| == size
  {
    seq(size, _ => 0)
  }

  lemma OneBuffer(slots: seq<SharedStackSlot>, i: nat, was: seq<Slot>)
    requires i < |slots| == |was| && forall k :: 0 <= k < |slots| && k != i ==> slots[k].Value() == was[k]
    ensures Buffers(slots) == was[i := slots[i].Value()]
  {
  }

  ghost predicate NewBuffer(slot: SharedStackSlot)
    reads slot, slot.stack
  {
    SlotOk(slot.Value()) && slot.owner.None? && slot.pooled
  }

  lemma Suffix(slots: seq<SharedStackSlot>, was: seq<Slot>) returns (added: seq<Slot>)
    requires |was| <= |slots| && forall k :: 0 <= k < |was| ==> slots[k].Value() == was[k]
    requires forall k :: |was| <= k < |slots| ==> NewBuffer(slots[k])
    ensures Unowned(added) && Buffers(slots) == was + added
  {
    added := Buffers(slots)[|was|..];
  }

  /** A pool per size of stack. */
  ghost predicate PoolOk(slots: seq<SharedStackSlot>, size: nat, pool: SharedStackPool) {
    && pool.count > 0 && pool.first + pool.count <= |slots|
    && forall i :: pool.first <= i < pool.first + pool.count ==> slots[i].pooled && slots[i].stack.Length == size
  }

  ghost predicate Unaliased(
      fibers: map<FiberId, FiberRecord>, slots: seq<SharedStackSlot>, pools: map<nat, SharedStackPool>)
  {
    && (forall f, g :: f in fibers && g in fibers && f != g ==> fibers[f] != fibers[g])
    && (forall i, j :: 0 <= i < j < |slots| ==> slots[i] != slots[j] && slots[i].stack != slots[j].stack)
    && (forall size :: size in pools ==> PoolOk(slots, size, pools[size]))
  }

  lemma OnlyOne(fiber: FiberRecord, slot: SharedStackSlot)
    ensures Records(map[0 := fiber]) == map[0 := fiber.Value()] && Buffers([slot]) == [slot.Value()]
    ensures Unaliased(map[0 := fiber], [slot], map[])
  {
  }

  /** A stack that belongs to one fiber, with its entry word. */
  method PrivateStack(f: FiberId, base: nat, size: nat) returns (slot: SharedStackSlot, ghost memory: seq<byte>)
    requires 0 <= EntryOffset(base, size)
    ensures fresh(slot) && fresh(slot.stack) && |memory| == size
    ensures slot.Value() == WriteEntry(NewSlot(base, memory, false, Some(f)))
  {
    slot := new SharedStackSlot(base, size, false);
    memory := slot.stack[..];
    slot.WriteEntryWord();
    slot.owner := Some(f);
  }

  /** The fiber that stands for the thread itself. */
  method MainFiber(size: nat) returns (fiber: FiberRecord)
    ensures fresh(fiber)
    ensures fiber.Value() == Fiber(false, true, size, RUNNING, 0, true, NO_THREAD, Some(0), [], None, false)
  {
    fiber := new FiberRecord(false, true, size);
    fiber.state, fiber.initialized, fiber.slot := RUNNING, true, Some(0);
  }

  class Runtime {
    const tid: nat
    var fibers: map<FiberId, FiberRecord>
    var slots: seq<SharedStackSlot>
    var pools: map<nat, SharedStackPool>
    var current: FiberId
    var threadFiber: FiberId
    var schedulerFiber: FiberId
    var sp: int
    var nextId: nat

    ghost function Value(): Thread
      reads this, fibers.Values, slots, set s | s in slots :: s.stack
    {
      Thread(tid, Records(fibers), Buffers(slots), current, threadFiber, schedulerFiber, sp, nextId)
    }

    /** Objects are not aliased. What the values keep is in `Stacks` and `Fibers`. */
    ghost predicate Valid()
      reads this
    {
      Unaliased(fibers, slots, pools)
    }

    /** The thread on its own stack: the thread fiber is the current one and the scheduler fiber. */
    constructor (tid: nat, base: nat, size: nat)
      requires 0 <= EntryOffset(base, size)
      ensures Valid() && FiberRuns.IsStart(Value())
      ensures fibers.Keys == {0} && fresh(fibers[0]) && |slots| == 1 && fresh(slots[0]) && fresh(slots[0].stack)
    {
      var slot, memory := PrivateStack(0, base, size);
      var fiber := MainFiber(size);
      this.tid := tid;
      fibers, slots, pools := map[0 := fiber], [slot], map[];
      current, threadFiber, schedulerFiber, sp, nextId := 0, 0, 0, EntryOffset(base, size), 1;
      new;
      OnlyOne(fiber, slot);
      FiberRuns.StartIsStart(Value(), tid, base, memory);
    }

    /** A private fiber gets a stack, a shared one only when it is entered. */
    method Create(f: FiberId, shared: bool, inScheduler: bool, base: nat, size: nat) returns (ghost memory: seq<byte>)
      requires Valid() && nextId <= f && f !in fibers && 0 <= EntryOffset(base, size)
      modifies this
      ensures Valid() && |memory| == size
      ensures Value() == ApplyCreate(old(Value()), f, shared, inScheduler, base, memory)
      ensures f in fibers && fresh(fibers[f])
      ensures forall k :: |old(slots)| <= k < |slots| ==> fresh(slots[k]) && fresh(slots[k].stack)
    {
      var fiber;
      if shared {
        fiber := new FiberRecord(true, inScheduler, size);
        memory := Anything(size);
      } else {
        fiber, memory := PrivateFiber(f, inScheduler, base, size);
      }
      AddRecord(f, fiber);
    }

    method PrivateFiber(f: FiberId, inScheduler: bool, base: nat, size: nat)
        returns (fiber: FiberRecord, ghost memory: seq<byte>)
      requires Valid() && 0 <= EntryOffset(base, size)
      modifies this`slots
      ensures Valid() && fresh(fiber) && |memory| == size
      ensures |slots| == |old(slots)| + 1 && slots[..|old(slots)|] == old(slots)
      ensures fresh(slots[|old(slots)|]) && fresh(slots[|old(slots)|].stack)
      ensures Buffers(slots) == old(Buffers(slots)) + [WriteEntry(NewSlot(base, memory, false, Some(f)))]
      ensures fiber.Value()
           == Fiber(false, inScheduler, size, READY, EntryOffset(base, size), true, NO_THREAD, Some(|old(slots)|),
                    [], None, false)
    {
      fiber := new FiberRecord(false, inScheduler, size);
      fiber.sp, fiber.initialized, fiber.slot := EntryOffset(base, size), true, Some(|slots|);
      memory := AddPrivateStack(f, base, size);
    }

    method AddRecord(f: FiberId, fiber: FiberRecord)
      requires Valid() && f !in fibers && fiber !in fibers.Values
      modifies this`fibers, this`nextId
      ensures Valid() && fibers == old(fibers)[f := fiber]
      ensures Value() == WithFiber(old(Value()).(nextId := f + 1), f, fiber.Value())
    {
      fibers, nextId := fibers[f := fiber], f + 1;
      OneRecordMore(old(fibers), f, fiber);
    }

    method AddPrivateStack(f: FiberId, base: nat, size: nat) returns (ghost memory: seq<byte>)
      requires Valid() && 0 <= EntryOffset(base, size)
      modifies this`slots
      ensures Valid() && |memory| == size && |slots| == |old(slots)| + 1 && slots[..|old(slots)|] == old(slots)
      ensures Buffers(slots) == old(Buffers(slots)) + [WriteEntry(NewSlot(base, memory, false, Some(f)))]
      ensures fresh(slots[|old(slots)|]) && fresh(slots[|old(slots)|].stack)
    {
      var slot;
      slot, memory := PrivateStack(f, base, size);
      slots := slots + [slot];
    }

    method InitFiberContext(f: FiberId)
      requires Valid() && Bound(Value(), f) && SlotOk(SlotOf(Value(), f))
      modifies fibers[f], slots[fibers[f].slot.value].stack
      ensures fibers == old(fibers) && slots == old(slots)
      ensures Valid() && Value() == InitContext(old(Value()), f)
    {
      var fiber := fibers[f];
      var slot := slots[fiber.slot.value];
      slot.WriteEntryWord();
      fiber.sp := EntryOffset(slot.base, slot.stack.Length);
      fiber.initialized := true;
      OneRecord(fibers, f, old(Records(fibers)));
      OneBuffer(slots, fiber.slot.value, old(Buffers(slots)));
    }

    method SaveSharedStackSnapshot(o: FiberId)
      requires Valid() && Bound(Value(), o) && 0 <= SpOf(Value(), o) <= |SlotOf(Value(), o).stack|
      modifies fibers[o]
      ensures fibers == old(fibers) && slots == old(slots)
      ensures Valid() && Value() == Save(old(Value()), o)
    {
      var fiber := fibers[o];
      var bytes := slots[fiber.slot.value].CopyOut(if o == current then sp else fiber.sp);
      fiber.snapshot := bytes;
      OneRecord(fibers, o, old(Records(fibers)));
      assert Buffers(slots) == old(Buffers(slots));
    }

    method RestoreSharedStackSnapshot(f: FiberId)
      requires Valid() && Bound(Value(), f) && |fibers[f].snapshot| <= |SlotOf(Value(), f).stack|
      modifies slots[fibers[f].slot.value], slots[fibers[f].slot.value].stack
      ensures fibers == old(fibers) && slots == old(slots)
      ensures Valid() && Value() == Restore(old(Value()), f)
    {
      var slot := slots[fibers[f].slot.value];
      ghost var was := slot.Value();
      if fibers[f].snapshot != [] {
        slot.CopyIn(fibers[f].snapshot);
      } else {
        assert Restored(was, []).stack == was.stack;
      }
      assert slot.Value() == Restored(was, fibers[f].snapshot);
      slot.owner := Some(f);
      OneBuffer(slots, fibers[f].slot.value, old(Buffers(slots)));
    }

    /** The next slot of the pool for this size; the first time, the pool is made, with as many slots as there
        are addresses for. */
    method AcquireSlot(size: nat, bases: seq<nat>) returns (slot: nat, ghost added: seq<Slot>)
      requires Valid() && bases != [] && forall k :: 0 <= k < |bases| ==> 0 <= EntryOffset(bases[k], size)
      modifies this`slots, this`pools, pools.Values
      ensures Valid() && |old(slots)| <= |slots| && slots[..|old(slots)|] == old(slots)
      ensures slot < |slots| && slots[slot].pooled && slots[slot].stack.Length == size
      ensures size in pools
      ensures size !in old(pools) ==> pools == old(pools)[size := pools[size]] && fresh(pools[size])
      ensures size !in old(pools) ==> pools[size].first == |old(slots)| == |slots| - |bases|
      ensures size !in old(pools) ==> pools[size].count == |bases|
      ensures size !in old(pools) ==> slot == |old(slots)| && pools[size].next == 1
      ensures size in old(pools) ==> pools == old(pools) && slots == old(slots)
      ensures size in old(pools) ==> slot == Turn(pools[size].first, pools[size].count, old(pools[size].next))
      ensures size in old(pools) ==> pools[size].next == old(pools[size].next) + 1
      ensures Unowned(added) && Buffers(slots) == old(Buffers(slots)) + added
      ensures forall k :: |old(slots)| <= k < |slots| ==> fresh(slots[k]) && fresh(slots[k].stack)
    {
      added := [];
      assert Buffers(slots) + [] == Buffers(slots);
      if size !in pools {
        added := MakePool(size, bases);
      }
      slot := pools[size].AcquireSlot();
    }

    method MakePool(size: nat, bases: seq<nat>) returns (ghost added: seq<Slot>)
      requires Valid() && bases != [] && forall k :: 0 <= k < |bases| ==> 0 <= EntryOffset(bases[k], size)
      requires size !in pools
      modifies this`slots, this`pools
      ensures Valid() && |slots| == |old(slots)| + |bases| && slots[..|old(slots)|] == old(slots)
      ensures size in pools && pools == old(pools)[size := pools[size]] && fresh(pools[size])
      ensures pools[size].first == |old(slots)| && pools[size].count == |bases| && pools[size].next == 0
      ensures Unowned(added) && Buffers(slots) == old(Buffers(slots)) + added
      ensures forall k :: |old(slots)| <= k < |slots| ==> fresh(slots[k]) && fresh(slots[k].stack)
    {
      var first := |slots|;
      added := GrowPool(size, bases);
      var pool := new SharedStackPool(first, |bases|);
      pools := pools[size := pool];
    }

    method GrowPool(size: nat, bases: seq<nat>) returns (ghost added: seq<Slot>)
      requires Valid() && forall k :: 0 <= k < |bases| ==> 0 <= EntryOffset(bases[k], size)
      modifies this`slots
      ensures Valid() && |slots| == |old(slots)| + |bases| && slots[..|old(slots)|] == old(slots)
      ensures forall k :: |old(slots)| <= k < |slots| ==> fresh(slots[k]) && fresh(slots[k].stack)
      ensures forall k :: |old(slots)| <= k < |slots| ==> slots[k].pooled && slots[k].stack.Length == size
      ensures Unowned(added) && Buffers(slots) == old(Buffers(slots)) + added
    {
      AllocateSlots(size, bases);
      added := Suffix(slots, old(Buffers(slots)));
    }

    method AllocateSlots(size: nat, bases: seq<nat>)
      requires Valid() && forall k :: 0 <= k < |bases| ==> 0 <= EntryOffset(bases[k], size)
      modifies this`slots
      ensures Valid() && |slots| == |old(slots)| + |bases| && slots[..|old(slots)|] == old(slots)
      ensures forall k :: |old(slots)| <= k < |slots| ==>
        fresh(slots[k]) && fresh(slots[k].stack) && slots[k].stack.Length == size && NewBuffer(slots[k])
    {
      for n := 0 to |bases|
        invariant Valid() && |slots| == |old(slots)| + n && slots[..|old(slots)|] == old(slots)
        invariant forall k :: |old(slots)| <= k < |slots| ==>
          fresh(slots[k]) && fresh(slots[k].stack) && slots[k].stack.Length == size && NewBuffer(slots[k])
      {
        var slot := new SharedStackSlot(bases[n], size, true);
        slots := slots + [slot];
      }
    }

    method BindSlot(f: FiberId, bases: seq<nat>) returns (pick: nat, ghost added: seq<Slot>)
      requires Valid() && f in fibers && bases != []
      requires forall k :: 0 <= k < |bases| ==> 0 <= EntryOffset(bases[k], fibers[f].size)
      modifies this`slots, this`pools, pools.Values, fibers[f]
      ensures Valid() && fibers == old(fibers)
      ensures |old(slots)| <= |slots| && slots[..|old(slots)|] == old(slots)
      ensures forall k :: |old(slots)| <= k < |slots| ==> fresh(slots[k]) && fresh(slots[k].stack)
      ensures Unowned(added) && CanBind(Grown(old(Value()), added), f, pick)
      ensures old(fibers[f].slot).Some? ==> added == []
      ensures Value() == WithSlot(Grown(old(Value()), added), f, pick)
    {
      if fibers[f].slot.None? {
        pick, added := BindNewSlot(f, bases);
      } else {
        pick, added := 0, [];
        assert Buffers(slots) + [] == Buffers(slots);
      }
    }

    method BindFiber(f: FiberId, bases: seq<nat>) returns (pick: nat, ghost added: seq<Slot>)
      requires Valid() && f in fibers && fibers[f].shared && BindingOk(Value(), f) && bases != []
      requires forall k :: 0 <= k < |bases| ==> 0 <= EntryOffset(bases[k], fibers[f].size)
      modifies this`slots, this`pools, pools.Values, fibers[f]
      ensures Valid() && fibers == old(fibers)
      ensures |old(slots)| <= |slots| && slots[..|old(slots)|] == old(slots)
      ensures forall k :: |old(slots)| <= k < |slots| ==> fresh(slots[k]) && fresh(slots[k].stack)
      ensures Unowned(added) && CanBind(Grown(old(Value()), added), f, pick)
      ensures old(fibers[f].slot).Some? ==> added == []
      ensures Value() == Bind(Grown(old(Value()), added), f, pick)
      ensures Bound(Value(), f)
      ensures var slot := slots[fibers[f].slot.value];
              slot in old(slots) || (fresh(slot) && fresh(slot.stack))
    {
      BindThread(f);
      pick, added := BindSlot(f, bases);
    }

    /** The thread assertion holds: nobody else ever bound the fiber. */
    method BindThread(f: FiberId)
      requires Valid() && f in fibers && fibers[f].shared && BindingOk(Value(), f)
      modifies fibers[f]
      ensures fibers == old(fibers) && slots == old(slots)
      ensures Valid() && Value() == ClaimThread(old(Value()), f)
    {
      if fibers[f].ownerThread == NO_THREAD {
        fibers[f].ownerThread := tid;
      } else {
        assert fibers[f].ownerThread == tid;
      }
      OneRecord(fibers, f, old(Records(fibers)));
      assert Buffers(slots) == old(Buffers(slots));
    }

    method BindNewSlot(f: FiberId, bases: seq<nat>) returns (pick: nat, ghost added: seq<Slot>)
      requires Valid() && f in fibers && fibers[f].slot.None? && bases != []
      requires forall k :: 0 <= k < |bases| ==> 0 <= EntryOffset(bases[k], fibers[f].size)
      modifies this`slots, this`pools, pools.Values, fibers[f]
      ensures Valid() && fibers == old(fibers)
      ensures |old(slots)| <= |slots| && slots[..|old(slots)|] == old(slots)
      ensures forall k :: |old(slots)| <= k < |slots| ==> fresh(slots[k]) && fresh(slots[k].stack)
      ensures Unowned(added) && CanBind(Grown(old(Value()), added), f, pick)
      ensures Value() == WithSlot(Grown(old(Value()), added), f, pick)
    {
      pick, added := AcquireSlot(fibers[f].size, bases);
      assert Value() == Grown(old(Value()), added);
      SetSlot(f, pick);
    }

    method SetSlot(f: FiberId, pick: nat)
      requires Valid() && f in fibers && fibers[f].slot.None?
      modifies fibers[f]
      ensures fibers == old(fibers) && slots == old(slots)
      ensures Valid() && Value() == WithSlot(old(Value()), f, pick)
    {
      fibers[f].slot := Some(pick);
      OneRecord(fibers, f, old(Records(fibers)));
      assert Buffers(slots) == old(Buffers(slots));
    }

    /** Makes the slot of `f` ready for it: `pick` is the slot it gets, `added` the buffers of a new pool. */
    method PrepareSharedStack(f: FiberId, bases: seq<nat>) returns (ghost pick: nat, ghost added: seq<Slot>)
      requires Valid() && MemoryOk(Value()) && f in fibers && fibers[f].shared && f != current && f < nextId
      requires bases != [] && forall k :: 0 <= k < |bases| ==> 0 <= EntryOffset(bases[k], fibers[f].size)
      modifies this`slots, this`pools, pools.Values, fibers.Values, slots, set s | s in slots :: s.stack
      ensures Valid() && fibers == old(fibers)
      ensures Unowned(added) && CanPrepare(Grown(old(Value()), added), f, pick)
      ensures old(fibers[f].slot).Some? ==> added == []
      ensures Value() == Prepare(Grown(old(Value()), added), f, pick)
    {
      assert BindingOk(Value(), f);
      pick, added := BindFiber(f, bases);
      BeforeStart(old(Value()), added, f, pick);
      PrepareBound(f);
    }

    method PrepareBound(f: FiberId)
      requires Valid() && Bound(Value(), f) && SlotOk(SlotOf(Value(), f)) && BeforeTakeOver(InitIfNeeded(Value(), f), f)
      modifies fibers.Values, slots[fibers[f].slot.value], slots[fibers[f].slot.value].stack
      ensures fibers == old(fibers) && slots == old(slots)
      ensures Valid() && Value() == TakeOver(InitIfNeeded(old(Value()), f), f)
    {
      InitFirstUse(f);
      TakeSlot(f);
    }

    method InitFirstUse(f: FiberId)
      requires Valid() && Bound(Value(), f) && SlotOk(SlotOf(Value(), f))
      modifies fibers[f], slots[fibers[f].slot.value].stack
      ensures fibers == old(fibers) && slots == old(slots)
      ensures Valid() && Value() == InitIfNeeded(old(Value()), f)
    {
      if !fibers[f].initialized {
        InitFiberContext(f);
      }
    }

    method TakeSlot(f: FiberId)
      requires Valid() && BeforeTakeOver(Value(), f)
      modifies fibers.Values, slots[fibers[f].slot.value], slots[fibers[f].slot.value].stack
      ensures fibers == old(fibers) && slots == old(slots)
      ensures Valid() && Value() == TakeOver(old(Value()), f)
    {
      var owner := slots[fibers[f].slot.value].owner;
      var occupied := owner.Some? && owner.value in fibers;
      if occupied && owner.value != f {
        BeforeSave(Value(), f, owner.value);
        BeforeRestore(Value(), f);
        SaveSharedStackSnapshot(owner.value);
        RestoreSharedStackSnapshot(f);
      } else if !occupied {
        BeforeRestore(Value(), f);
        RestoreSharedStackSnapshot(f);
      }
    }

    // ----- control

    method SetControl(f: FiberId, state: FiberState, parent: Option<FiberId>, returnToParent: bool)
      requires Valid() && f in fibers
      modifies fibers[f]
      ensures Valid()
      ensures Value() == WithFiber(old(Value()), f,
        old(fibers[f].Value()).(state := state, parent := parent, returnToParent := returnToParent))
    {
      var fiber := fibers[f];
      fiber.state, fiber.parent, fiber.returnToParent := state, parent, returnToParent;
      OneRecord(fibers, f, old(Records(fibers)));
      assert Buffers(slots) == old(Buffers(slots));
    }

    method Enter(f: FiberId, parent: Option<FiberId>, returnToParent: bool)
      requires Valid() && f in fibers && current in fibers && f != current
      modifies this`sp, this`current, fibers[f], fibers[current]
      ensures Valid() && Value() == EnterFrom(old(Value()), f, parent, returnToParent)
    {
      SetControl(f, RUNNING, parent, returnToParent);
      Switch(current, f);
    }

    /** Becomes the current fiber and swaps the contexts. */
    method Switch(from: FiberId, to: FiberId)
      requires Valid() && from in fibers && to in fibers && from != to
      modifies this`sp, this`current, fibers[from]
      ensures Valid() && Value() == SwitchTo(old(Value()), from, to)
    {
      SaveContext(from);
      LoadContext(to);
    }

    method SaveContext(from: FiberId)
      requires Valid() && from in fibers
      modifies fibers[from]
      ensures Valid() && Value() == WithFiber(old(Value()), from, old(fibers[from].Value()).(sp := sp))
    {
      fibers[from].sp := sp;
      OneRecord(fibers, from, old(Records(fibers)));
      assert Buffers(slots) == old(Buffers(slots));
    }

    method LoadContext(to: FiberId)
      requires Valid() && to in fibers
      modifies this`sp, this`current
      ensures Valid() && Value() == old(Value()).(sp := fibers[to].sp, current := to)
    {
      current, sp := to, fibers[to].sp;
    }

    method PrepareIfNeeded(f: FiberId, bases: seq<nat>) returns (ghost pick: nat, ghost added: seq<Slot>)
      requires Valid() && MemoryOk(Value()) && f in fibers && f != current && f < nextId
      requires bases != [] && forall k :: 0 <= k < |bases| ==> 0 <= EntryOffset(bases[k], fibers[f].size)
      modifies this`slots, this`pools, pools.Values, fibers.Values, slots, set s | s in slots :: s.stack
      ensures Valid() && fibers == old(fibers)
      ensures Unowned(added) && CanBind(Grown(old(Value()), added), f, pick)
      ensures MemoryOk(Grown(old(Value()), added))
      ensures old(fibers[f].slot).Some? ==> added == []
      ensures Value() == PrepareIfShared(Grown(old(Value()), added), f, pick)
    {
      pick, added := 0, [];
      GrownOk(Value(), []);
      assert Grown(Value(), []) == Value() && BindingOk(Value(), f);
      if fibers[f].shared {
        pick, added := PrepareSharedStack(f, bases);
      }
    }

    method Resume(f: FiberId, bases: seq<nat>) returns (ghost pick: nat, ghost added: seq<Slot>)
      requires Valid() && Wf(Value()) && f in fibers && fibers[f].state == READY && Home(Value(), f) == current
      requires bases != [] && forall k :: 0 <= k < |bases| ==> 0 <= EntryOffset(bases[k], fibers[f].size)
      modifies this, pools.Values, fibers.Values, slots, set s | s in slots :: s.stack
      ensures Valid() && Unowned(added) && Wf(Grown(old(Value()), added))
      ensures Enabled(Grown(old(Value()), added), Action.Resume(f, pick))
      ensures Value() == Apply(Grown(old(Value()), added), Action.Resume(f, pick))
    {
      assert LinkOk(Value(), f);
      pick, added := PrepareIfNeeded(f, bases);
      ResumeEnters(old(Value()), added, f, pick);
      Enter(f, fibers[f].parent, fibers[f].returnToParent);
    }

    method Call(f: FiberId, bases: seq<nat>) returns (code: int, ghost pick: nat, ghost added: seq<Slot>)
      requires Valid() && Wf(Value()) && f in fibers
      requires bases != [] && forall k :: 0 <= k < |bases| ==> 0 <= EntryOffset(bases[k], fibers[f].size)
      modifies this, pools.Values, fibers.Values, slots, set s | s in slots :: s.stack
      ensures Valid() && Unowned(added) && (code == CALL_OK ==> Wf(Grown(old(Value()), added)))
      ensures code == CallCode(old(Value()), f)
      ensures code != CALL_OK ==> Value() == old(Value())
      ensures code == CALL_OK ==> Enabled(Grown(old(Value()), added), Action.Call(f, pick))
      ensures code == CALL_OK ==> Value() == Apply(Grown(old(Value()), added), Action.Call(f, pick))
    {
      pick, added := 0, [];
      if fibers[f].state != READY {
        code := CALL_ERR_NOT_READY;
      } else if current == f {
        code := CALL_ERR_SELF_CALL;
      } else if fibers[f].shared && fibers[current].shared {
        code := CALL_ERR_SHARED_NESTED_UNSUPPORTED;
      } else {
        code := CALL_OK;
        assert LinkOk(Value(), f);
        pick, added := PrepareIfNeeded(f, bases);
        CallEnters(old(Value()), added, f, pick);
        Enter(f, Some(current), true);
      }
    }

    /** `terminated`: the fiber's function has returned. */
    method Yield(terminated: bool)
      requires Valid() && Wf(Value()) && current != threadFiber
      modifies this, fibers.Values, slots, set s | s in slots :: s.stack
      ensures Valid() && Value() == ApplyYield(old(Value()), terminated)
    {
      var fiber := fibers[current];
      if fiber.returnToParent && fiber.parent.Some? && fiber.parent.value in fibers {
        Back(terminated);
      } else {
        SetControl(current, if terminated then TERM else READY, fiber.parent, fiber.returnToParent);
        Switch(current, if fiber.inScheduler then schedulerFiber else threadFiber);
      }
    }

    method Back(terminated: bool)
      requires Valid() && Wf(Value()) && ReturnsToParent(Value())
      modifies this, fibers.Values, slots, set s | s in slots :: s.stack
      ensures Valid() && Value() == Fibers.Back(old(Value()), terminated)
    {
      var from, p := current, fibers[current].parent.value;
      BeforeBack(Value(), terminated);
      SetControl(from, if terminated then TERM else READY, None, false);
      PrepareParent(p);
      Switch(from, p);
    }

    method PrepareParent(p: FiberId)
      requires Valid() && MemoryOk(Value()) && p in fibers && p != current && fibers[p].slot.Some? && Bound(Value(), p)
      modifies fibers.Values, slots[fibers[p].slot.value], slots[fibers[p].slot.value].stack
      ensures Valid() && Value() == PrepareIfShared(old(Value()), p, 0)
    {
      if fibers[p].shared {
        assert Grown(Value(), []) == Value() && BindingOk(Value(), p);
        BeforeStart(Value(), [], p, 0);
        PrepareBound(p);
      }
    }

    method Reset(f: FiberId)
      requires Valid() && Wf(Value()) && f in fibers && fibers[f].state == TERM
      modifies fibers[f], slots, set s | s in slots :: s.stack
      ensures Valid() && Value() == ApplyReset(old(Value()), f)
    {
      assert BindingOk(Value(), f);
      assert fibers[f].slot.Some? ==> OwnerOk(Value(), fibers[f].slot.value);
      Clear(f);
      if fibers[f].slot.Some? {
        InitFiberContext(f);
      } else {
        Uninitialize(f);
      }
    }

    method Clear(f: FiberId)
      requires Valid() && f in fibers
      modifies fibers[f]
      ensures Valid() && Value() == Cleared(old(Value()), f)
    {
      var fiber := fibers[f];
      fiber.state, fiber.snapshot, fiber.parent, fiber.returnToParent := READY, [], None, false;
      OneRecord(fibers, f, old(Records(fibers)));
      assert Buffers(slots) == old(Buffers(slots));
    }

    method Uninitialize(f: FiberId)
      requires Valid() && f in fibers
      modifies fibers[f]
      ensures Valid() && Value() == WithFiber(old(Value()), f, old(fibers[f].Value()).(initialized := false))
    {
      fibers[f].initialized := false;
      OneRecord(fibers, f, old(Records(fibers)));
      assert Buffers(slots) == old(Buffers(slots));
    }
  }
}

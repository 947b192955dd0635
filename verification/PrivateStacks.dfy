/** The machine without tricks: every fiber has a stack of its own, entering pushes onto the chain of
    callers, yielding pops it. The runtime simulates it step by step. */
module PrivateStacks {
  import opened FiberIds
  import opened Sequences
  import opened Stacks
  import opened Fibers

  datatype PrivateFiber = PrivateFiber(shared: bool, state: FiberState, frame: seq<byte>)

  /** `chain`: who entered whom, the running fiber last. */
  datatype Machine = Machine(fibers: map<FiberId, PrivateFiber>, chain: seq<FiberId>)

  function Last(chain: seq<FiberId>): FiberId
    requires chain != []
  {
    chain[|chain| - 1]
  }

  function Code(m: Machine, f: FiberId): int
    requires m.chain != [] && f in m.fibers && Last(m.chain) in m.fibers
  {
    if m.fibers[f].state != READY then CALL_ERR_NOT_READY
    else if m.fibers[f].shared && m.fibers[Last(m.chain)].shared then CALL_ERR_SHARED_NESTED_UNSUPPORTED
    else CALL_OK
  }

  function WithState(m: Machine, f: FiberId, state: FiberState): Machine
    requires f in m.fibers
  {
    m.(fibers := m.fibers[f := m.fibers[f].(state := state)])
  }

  function Enter(m: Machine, f: FiberId): Machine
    requires f in m.fibers
  {
    WithState(m, f, RUNNING).(chain := m.chain + [f])
  }

  function Leave(m: Machine, terminated: bool): Machine
    requires m.chain != [] && Last(m.chain) in m.fibers
  {
    WithState(m, Last(m.chain), if terminated then TERM else READY).(chain := m.chain[..|m.chain| - 1])
  }

  /** Nothing happens where the runtime would not let anything happen either. */
  predicate Allowed(m: Machine, a: Action) {
    && m.chain != [] && Last(m.chain) in m.fibers
    && match a
       case Resume(f, _) => f in m.fibers
       case Call(f, _) => f in m.fibers
       case Reset(f) => f in m.fibers
       case _ => true
  }

  function Step(m: Machine, a: Action): Machine
    requires Allowed(m, a)
  {
    match a
    case Create(f, shared, _, _, _) => m.(fibers := m.fibers[f := PrivateFiber(shared, READY, ZEROS)])
    case GrowPool(_, _) => m
    case SetScheduler(_) => m
    case Resume(f, _) => Enter(m, f)
    case Call(f, _) => if Code(m, f) == CALL_OK then Enter(m, f) else m
    case Yield(terminated) => Leave(m, terminated)
    case Reset(f) => m.(fibers := m.fibers[f := m.fibers[f].(state := READY, frame := ZEROS)])
    case Destroy(f) => m.(fibers := m.fibers - {f})
    case Exec(_, frame) =>
      var f := Last(m.chain);
      m.(fibers := m.fibers[f := m.fibers[f].(frame := frame)])
  }

  // ----- the simulation relation

  /** How `f` was entered from `p`. */
  ghost predicate LinkTo(t: Thread, p: FiberId, f: FiberId) {
    && f in t.fibers && p in t.fibers
    && if t.fibers[f].returnToParent then t.fibers[f].parent == Some(p) && !(t.fibers[f].shared && t.fibers[p].shared)
       else t.fibers[f].parent.None? && p == Home(t, f)
  }

  ghost predicate ChainOk(t: Thread, chain: seq<FiberId>) {
    && chain != [] && chain[0] == t.threadFiber && Last(chain) == t.current && Distinct(chain)
    && (forall f :: f in chain ==> f in t.fibers)
    && (forall f :: f in t.fibers ==> (t.fibers[f].state == RUNNING <==> f in chain))
    && (forall k :: 0 < k < |chain| ==> LinkTo(t, chain[k - 1], chain[k]))
    && (forall f :: f in t.fibers && (f !in chain || f == chain[0]) ==> NoLink(t, f))
  }

  ghost predicate Agree(t: Thread, m: Machine)
    requires MemoryOk(t)
  {
    && m.fibers.Keys == t.fibers.Keys
    && forall f :: f in t.fibers ==> AgreeOn(t, m, f)
  }

  ghost predicate AgreeOn(t: Thread, m: Machine, f: FiberId)
    requires f in t.fibers && f in m.fibers && FrameOk(t, f)
  {
    m.fibers[f] == PrivateFiber(t.fibers[f].shared, t.fibers[f].state, FrameOf(t, f))
  }

  ghost predicate Related(t: Thread, m: Machine) {
    Wf(t) && Agree(t, m) && ChainOk(t, m.chain)
  }

  /** Where bytes only moved, the private machine has to follow the states alone. */
  lemma StillAgrees(t: Thread, m: Machine, next: Thread, m': Machine, f: FiberId)
    requires f in t.fibers && f in m.fibers && FrameOk(t, f) && AgreeOn(t, m, f)
    requires SameFrame(t, next, f) && SameBinding(t.fibers[f], next.fibers[f])
    requires f in m'.fibers && m'.fibers[f] == m.fibers[f].(state := next.fibers[f].state)
    ensures AgreeOn(next, m', f)
  {
  }

  // ----- entering

  lemma EnterWf(t: Thread, next: Thread, f: FiberId)
    requires Wf(t) && Moved(t, next) && Installed(next, f) && SameLinks(t, next, f)
    requires next.current == f && next.fibers[f].state == RUNNING
    requires var parent := next.fibers[f].parent;
             parent.None? || parent == Some(t.current) || parent == t.fibers[f].parent
    requires f != t.current
    ensures Wf(next)
  {
    assert SameBinding(t.fibers[t.threadFiber], next.fibers[t.threadFiber]);
    assert SameBinding(t.fibers[t.schedulerFiber], next.fibers[t.schedulerFiber]);
    forall g | g in next.fibers ensures g < next.nextId && LinkOk(next, g) {
      assert LinkOk(t, g) && SameBinding(t.fibers[g], next.fibers[g]);
      var p := next.fibers[g].parent;
      assert p.Some? && p.value in t.fibers ==> SameBinding(t.fibers[p.value], next.fibers[p.value]);
      assert g != f ==> SameLink(t.fibers[g], next.fibers[g]);
    }
  }

  lemma StatesAgree(t: Thread, m: Machine, next: Thread, m': Machine, f: FiberId)
    requires Moved(t, next) && Agree(t, m) && SameLinks(t, next, f) && f in next.fibers
    requires m'.fibers == m.fibers[f := m.fibers[f].(state := next.fibers[f].state)]
    ensures Agree(next, m')
  {
    forall g | g in next.fibers ensures AgreeOn(next, m', g) {
      assert AgreeOn(t, m, g) && SameFrame(t, next, g);
      assert g != f ==> SameLink(t.fibers[g], next.fibers[g]);
      StillAgrees(t, m, next, m', g);
    }
  }

  lemma EnterChains(t: Thread, chain: seq<FiberId>, next: Thread, f: FiberId)
    requires ChainOk(t, chain) && SameBindings(t, next) && SameLinks(t, next, f) && next.current == f
    requires f in next.fibers && f !in chain && next.fibers[f].state == RUNNING && LinkTo(next, t.current, f)
    ensures ChainOk(next, chain + [f])
  {
    var chain' := chain + [f];
    forall k | 0 < k < |chain'| ensures LinkTo(next, chain'[k - 1], chain'[k]) {
      if k < |chain| {
        LinkKept(t, next, f, chain[k - 1], chain[k]);
      }
    }
    forall g | g in next.fibers
      ensures next.fibers[g].state == RUNNING <==> g in chain'
      ensures g !in chain' || g == chain'[0] ==> NoLink(next, g)
    {
      assert g != f ==> SameLink(t.fibers[g], next.fibers[g]);
      assert g !in chain || g == chain[0] ==> NoLink(t, g);
    }
  }

  lemma LinkKept(t: Thread, next: Thread, f: FiberId, p: FiberId, c: FiberId)
    requires SameBindings(t, next) && SameLinks(t, next, f) && LinkTo(t, p, c) && c != f
    ensures LinkTo(next, p, c)
  {
    assert SameLink(t.fibers[c], next.fibers[c]);
    assert SameBinding(t.fibers[c], next.fibers[c]) && SameBinding(t.fibers[p], next.fibers[p]);
  }

  lemma ResumeSimulates(t: Thread, m: Machine, f: FiberId, slot: nat)
    requires Related(t, m) && Enabled(t, Resume(f, slot))
    ensures Related(Apply(t, Resume(f, slot)), Enter(m, f)) && Moved(t, Apply(t, Resume(f, slot)))
  {
    var fiber := t.fibers[f];
    assert NoLink(t, f);
    PrepareMoves(t, f, slot);
    var t1 := PrepareIfShared(t, f, slot);
    assert SameLink(fiber, t1.fibers[f]) && SameBinding(fiber, t1.fibers[f]);
    EnterOk(t, f, slot, fiber.parent, fiber.returnToParent);
    var next := Apply(t, Resume(f, slot));
    assert next == SwitchTo(WithFiber(t1, f, t1.fibers[f].(state := RUNNING)), t.current, f);
    assert t1.fibers[f].(state := RUNNING)
        == t1.fibers[f].(state := RUNNING, parent := fiber.parent, returnToParent := fiber.returnToParent);
    Entering(t, m, next, f);
  }

  lemma CallSimulates(t: Thread, m: Machine, f: FiberId, slot: nat)
    requires Related(t, m) && Enabled(t, Call(f, slot))
    ensures CallCode(t, f) == Code(m, f)
    ensures Related(Apply(t, Call(f, slot)), if Code(m, f) == CALL_OK then Enter(m, f) else m)
    ensures CallCode(t, f) == CALL_OK ==> Moved(t, Apply(t, Call(f, slot)))
  {
    assert AgreeOn(t, m, f) && AgreeOn(t, m, t.current);
    if CallCode(t, f) == CALL_OK {
      EnterOk(t, f, slot, Some(t.current), true);
      Entering(t, m, Apply(t, Call(f, slot)), f);
    }
  }

  lemma Entering(t: Thread, m: Machine, next: Thread, f: FiberId)
    requires Related(t, m) && Moved(t, next) && Installed(next, f) && SameLinks(t, next, f)
    requires next.current == f && f in t.fibers && t.fibers[f].state == READY && next.fibers[f].state == RUNNING
    requires if next.fibers[f].returnToParent
             then next.fibers[f].parent == Some(t.current) && !(t.fibers[f].shared && t.fibers[t.current].shared)
             else next.fibers[f].parent.None? && Home(t, f) == t.current
    ensures Related(next, Enter(m, f))
  {
    assert SameBinding(t.fibers[f], next.fibers[f]);
    assert SameBinding(t.fibers[t.current], next.fibers[t.current]);
    EnterWf(t, next, f);
    StatesAgree(t, m, next, Enter(m, f), f);
    EnterChains(t, m.chain, next, f);
  }

  // ----- leaving

  lemma LeaveWf(t: Thread, next: Thread, p: FiberId)
    requires Wf(t) && Moved(t, next) && Installed(next, p) && SameLinks(t, next, t.current)
    requires next.current == p && p in t.fibers && t.fibers[p].state == RUNNING && p != t.current
    requires NoLink(next, t.current)
    ensures Wf(next)
  {
    assert SameBinding(t.fibers[t.threadFiber], next.fibers[t.threadFiber]);
    assert SameBinding(t.fibers[t.schedulerFiber], next.fibers[t.schedulerFiber]);
    forall g | g in next.fibers ensures g < next.nextId && LinkOk(next, g) {
      assert LinkOk(t, g) && SameBinding(t.fibers[g], next.fibers[g]);
      var q := next.fibers[g].parent;
      assert q.Some? && q.value in t.fibers ==> SameBinding(t.fibers[q.value], next.fibers[q.value]);
      assert g != t.current ==> SameLink(t.fibers[g], next.fibers[g]);
    }
    assert SameLink(t.fibers[p], next.fibers[p]);
  }

  lemma LeaveStates(t: Thread, chain: seq<FiberId>, next: Thread, g: FiberId)
    requires ChainOk(t, chain) && SameLinks(t, next, t.current) && |chain| >= 2 && g in t.fibers
    requires t.current in next.fibers
    requires NoLink(next, t.current) && next.fibers[t.current].state != RUNNING
    ensures next.fibers[g].state == RUNNING <==> g in chain && g != t.current
    ensures g !in chain || g == t.current || g == chain[0] ==> NoLink(next, g)
  {
    assert g != t.current ==> SameLink(t.fibers[g], next.fibers[g]);
    assert g !in chain || g == chain[0] ==> NoLink(t, g);
  }

  lemma InInit(chain: seq<FiberId>, f: FiberId)
    requires chain != [] && Distinct(chain)
    ensures f in chain[..|chain| - 1] <==> f in chain && f != Last(chain)
  {
    assert chain == chain[..|chain| - 1] + [Last(chain)];
  }

  lemma LeaveChains(t: Thread, chain: seq<FiberId>, next: Thread)
    requires ChainOk(t, chain) && SameBindings(t, next) && SameLinks(t, next, t.current) && |chain| >= 2
    requires next.current == chain[|chain| - 2] && NoLink(next, t.current) && next.fibers[t.current].state != RUNNING
    ensures ChainOk(next, chain[..|chain| - 1])
  {
    var chain' := chain[..|chain| - 1];
    forall k | 0 < k < |chain'| ensures LinkTo(next, chain'[k - 1], chain'[k]) {
      LinkKept(t, next, t.current, chain[k - 1], chain[k]);
    }
    forall g ensures g in chain' ==> g in next.fibers {
      InInit(chain, g);
    }
    forall g | g in next.fibers
      ensures next.fibers[g].state == RUNNING <==> g in chain'
      ensures g !in chain' || g == chain'[0] ==> NoLink(next, g)
    {
      InInit(chain, g);
      LeaveStates(t, chain, next, g);
    }
  }

  lemma Leaving(t: Thread, m: Machine, next: Thread, terminated: bool)
    requires Related(t, m) && |m.chain| >= 2 && Left(t, next, m.chain[|m.chain| - 2], terminated)
    ensures Related(next, Leave(m, terminated))
  {
    var p := next.current;
    assert p in m.chain && p != t.current;
    LeaveWf(t, next, p);
    StatesAgree(t, m, next, Leave(m, terminated), t.current);
    LeaveChains(t, m.chain, next);
  }

  /** Both ways back, to the parent and to the home fiber, lead to the fiber that entered. */
  lemma YieldSimulates(t: Thread, m: Machine, terminated: bool)
    requires Related(t, m) && Enabled(t, Yield(terminated))
    ensures |m.chain| >= 2 && Related(Apply(t, Yield(terminated)), Leave(m, terminated))
    ensures Moved(t, Apply(t, Yield(terminated)))
  {
    var p := m.chain[|m.chain| - 2];
    assert LinkTo(t, p, t.current);
    assert p in m.chain && p != t.current;
    if ReturnsToParent(t) {
      BackLeaves(t, terminated);
    } else {
      GoHomeLeaves(t, terminated);
    }
    Leaving(t, m, ApplyYield(t, terminated), terminated);
  }

  // ----- steps that do not switch

  /** Only `f`, which nobody has entered, comes, goes or changes. */
  ghost predicate OneChanged(t: Thread, next: Thread, f: nat) {
    && next.current == t.current && next.threadFiber == t.threadFiber && next.schedulerFiber == t.schedulerFiber
    && t.nextId <= next.nextId
    && (forall g :: g != f ==> (g in next.fibers <==> g in t.fibers))
    && (forall g :: g in t.fibers && g != f ==>
          SameBinding(t.fibers[g], next.fibers[g]) && SameLink(t.fibers[g], next.fibers[g]))
    && (f in t.fibers ==> t.fibers[f].state != RUNNING)
    && (f in next.fibers ==> next.fibers[f].state != RUNNING && NoLink(next, f) && f < next.nextId)
    && (f in next.fibers && f in t.fibers ==> SameBinding(t.fibers[f], next.fibers[f]))
  }

  ghost predicate OthersEqual(m: Machine, m': Machine, f: nat) {
    && m'.chain == m.chain
    && forall g :: g in m.fibers && g != f ==> g in m'.fibers && m'.fibers[g] == m.fibers[g]
  }

  lemma ChainStays(t: Thread, next: Thread, chain: seq<FiberId>, f: nat)
    requires ChainOk(t, chain) && OneChanged(t, next, f)
    ensures ChainOk(next, chain)
  {
    assert f !in chain;
    forall k | 0 < k < |chain| ensures LinkTo(next, chain[k - 1], chain[k]) {
      var p, c := chain[k - 1], chain[k];
      assert LinkTo(t, p, c) && p in chain && c in chain;
      assert SameLink(t.fibers[c], next.fibers[c]);
      assert SameBinding(t.fibers[c], next.fibers[c]) && SameBinding(t.fibers[p], next.fibers[p]);
    }
    forall g | g in next.fibers
      ensures next.fibers[g].state == RUNNING <==> g in chain
      ensures g !in chain || g == chain[0] ==> NoLink(next, g)
    {
      assert g != f ==> SameLink(t.fibers[g], next.fibers[g]);
      assert g in t.fibers && (g !in chain || g == chain[0]) ==> NoLink(t, g);
    }
  }

  lemma WfStays(t: Thread, next: Thread, f: nat)
    requires Wf(t) && MemoryOk(next) && OneChanged(t, next, f) && Installed(next, t.current)
    requires f in t.fibers && f !in next.fibers ==> f != t.threadFiber && f != t.schedulerFiber
    requires f !in t.fibers ==> t.nextId <= f
    ensures Wf(next)
  {
    assert forall g :: g in t.fibers && g in next.fibers ==> SameBinding(t.fibers[g], next.fibers[g]);
    forall g | g in next.fibers ensures g < next.nextId && LinkOk(next, g) {
      if g != f {
        assert LinkOk(t, g) && SameLink(t.fibers[g], next.fibers[g]);
      }
    }
    assert SameLink(t.fibers[t.current], next.fibers[t.current]);
  }

  lemma AgreementStays(t: Thread, m: Machine, next: Thread, m': Machine, f: nat)
    requires MemoryOk(t) && MemoryOk(next) && Agree(t, m) && OneChanged(t, next, f)
    requires forall g :: g in t.fibers && g != f ==> SameFrame(t, next, g)
    requires OthersEqual(m, m', f) && m'.fibers.Keys == next.fibers.Keys
    requires f in next.fibers ==> AgreeOn(next, m', f)
    ensures Agree(next, m')
  {
    forall g | g in next.fibers ensures AgreeOn(next, m', g) {
      if g != f {
        assert AgreeOn(t, m, g) && SameFrame(t, next, g);
        assert SameLink(t.fibers[g], next.fibers[g]) && SameBinding(t.fibers[g], next.fibers[g]);
        StillAgrees(t, m, next, m', g);
      }
    }
  }

  lemma Stays(t: Thread, m: Machine, next: Thread, m': Machine, f: nat)
    requires Related(t, m) && MemoryOk(next) && OneChanged(t, next, f) && Installed(next, t.current)
    requires forall g :: g in t.fibers && g != f ==> SameFrame(t, next, g)
    requires f in t.fibers && f !in next.fibers ==> f != t.threadFiber && f != t.schedulerFiber
    requires f !in t.fibers ==> t.nextId <= f
    requires OthersEqual(m, m', f) && m'.fibers.Keys == next.fibers.Keys
    requires f in next.fibers ==> AgreeOn(next, m', f)
    ensures Related(next, m')
  {
    WfStays(t, next, f);
    AgreementStays(t, m, next, m', f);
    ChainStays(t, next, m.chain, f);
  }

  // ----- creation

  lemma CreatePrivate(t: Thread, f: FiberId, inScheduler: bool, base: nat, memory: seq<byte>)
    requires 0 <= EntryOffset(base, |memory|) && t.current != f
    ensures var next := ApplyCreate(t, f, false, inScheduler, base, memory);
            && f in next.fibers && FrameOk(next, f) && BindingOk(next, f) && FrameOf(next, f) == ZEROS
            && OwnerOk(next, |t.slots|)
  {
    var next := ApplyCreate(t, f, false, inScheduler, base, memory);
    var s := next.slots[|t.slots|];
    assert s.stack[Entry(s)..Entry(s) + 8] == s.stack[Entry(s)..][..8] == ZEROS;
  }

  lemma CreateOther(t: Thread, f: FiberId, shared: bool, inScheduler: bool, base: nat, memory: seq<byte>, g: FiberId)
    requires 0 <= EntryOffset(base, |memory|) && g in t.fibers && FrameOk(t, g) && BindingOk(t, g) && f != g
    ensures var next := ApplyCreate(t, f, shared, inScheduler, base, memory);
            FrameOk(next, g) && BindingOk(next, g) && SameFrame(t, next, g)
  {
  }

  lemma CreateMemory(t: Thread, f: FiberId, shared: bool, inScheduler: bool, base: nat, memory: seq<byte>)
    requires MemoryOk(t) && t.nextId <= f && f !in t.fibers && t.current != f && 0 <= EntryOffset(base, |memory|)
    ensures var next := ApplyCreate(t, f, shared, inScheduler, base, memory);
            && MemoryOk(next) && SameFrames(t, next)
            && next.fibers.Keys == t.fibers.Keys + {f} && FrameOf(next, f) == ZEROS
            && next.fibers[f].shared == shared && next.fibers[f].state == READY
  {
    var next := ApplyCreate(t, f, shared, inScheduler, base, memory);
    forall g | g in t.fibers ensures FrameOk(next, g) && BindingOk(next, g) && SameFrame(t, next, g) {
      assert FrameOk(t, g) && BindingOk(t, g);
      CreateOther(t, f, shared, inScheduler, base, memory, g);
    }
    if !shared {
      CreatePrivate(t, f, inScheduler, base, memory);
    }
    assert FrameOk(next, f) && BindingOk(next, f);
    forall i | 0 <= i < |t.slots| ensures OwnerOk(next, i) {
      assert OwnerOk(t, i);
    }
  }

  lemma NewAgrees(t: Thread, m: Machine, next: Thread, f: FiberId, shared: bool)
    requires MemoryOk(t) && MemoryOk(next) && Agree(t, m) && SameFrames(t, next) && OneChanged(t, next, f)
    requires f !in t.fibers && f in next.fibers && next.fibers[f].shared == shared && next.fibers[f].state == READY
    requires FrameOf(next, f) == ZEROS
    ensures Agree(next, m.(fibers := m.fibers[f := PrivateFiber(shared, READY, ZEROS)]))
  {
    AgreementStays(t, m, next, m.(fibers := m.fibers[f := PrivateFiber(shared, READY, ZEROS)]), f);
  }

  lemma CreateSimulates(
      t: Thread, m: Machine, f: FiberId, shared: bool, inScheduler: bool, base: nat, memory: seq<byte>)
    requires Related(t, m) && t.nextId <= f && 0 <= EntryOffset(base, |memory|)
    ensures Related(ApplyCreate(t, f, shared, inScheduler, base, memory),
                    m.(fibers := m.fibers[f := PrivateFiber(shared, READY, ZEROS)]))
  {
    var next := ApplyCreate(t, f, shared, inScheduler, base, memory);
    CreateMemory(t, f, shared, inScheduler, base, memory);
    CreateChanges(t, f, shared, inScheduler, base, memory);
    WfStays(t, next, f);
    ChainStays(t, next, m.chain, f);
    NewAgrees(t, m, next, f, shared);
  }

  lemma CreateChanges(t: Thread, f: FiberId, shared: bool, inScheduler: bool, base: nat, memory: seq<byte>)
    requires t.nextId <= f && f !in t.fibers && t.current != f && 0 <= EntryOffset(base, |memory|)
    requires t.current in t.fibers && Installed(t, t.current)
    ensures OneChanged(t, ApplyCreate(t, f, shared, inScheduler, base, memory), f)
    ensures Installed(ApplyCreate(t, f, shared, inScheduler, base, memory), t.current)
  {
  }

  lemma GrowChanges(t: Thread, base: nat, memory: seq<byte>)
    requires 0 <= EntryOffset(base, |memory|)
    requires t.nextId !in t.fibers && t.current in t.fibers && Installed(t, t.current)
    ensures var next := t.(slots := t.slots + [NewSlot(base, memory, true, None)]);
            OneChanged(t, next, t.nextId) && Installed(next, t.current)
  {
  }

  lemma GrowSimulates(t: Thread, m: Machine, base: nat, memory: seq<byte>)
    requires Related(t, m) && 0 <= EntryOffset(base, |memory|)
    ensures Related(t.(slots := t.slots + [NewSlot(base, memory, true, None)]), m)
  {
    GrownOk(t, [NewSlot(base, memory, true, None)]);
    GrowChanges(t, base, memory);
    Stays(t, m, t.(slots := t.slots + [NewSlot(base, memory, true, None)]), m, t.nextId);
  }

  lemma SchedulerMemory(t: Thread, f: FiberId)
    requires MemoryOk(t)
    ensures MemoryOk(t.(schedulerFiber := f)) && SameFrames(t, t.(schedulerFiber := f))
  {
    var next := t.(schedulerFiber := f);
    forall g | g in t.fibers ensures FrameOk(next, g) && BindingOk(next, g) && SameFrame(t, next, g) {
      assert FrameOk(t, g) && BindingOk(t, g);
    }
    forall i | 0 <= i < |next.slots| ensures OwnerOk(next, i) {
      assert OwnerOk(t, i);
    }
  }

  lemma SchedulerChain(t: Thread, chain: seq<FiberId>, f: FiberId)
    requires ChainOk(t, chain) && t.current == t.threadFiber
    ensures ChainOk(t.(schedulerFiber := f), chain)
  {
    assert |chain| == 1;
    var next := t.(schedulerFiber := f);
    forall g | g in t.fibers && (g !in chain || g == chain[0]) ensures NoLink(next, g) {
      assert NoLink(t, g);
    }
  }

  lemma SetSchedulerSimulates(t: Thread, m: Machine, f: FiberId)
    requires Related(t, m) && Enabled(t, SetScheduler(f))
    ensures Related(t.(schedulerFiber := f), m)
  {
    var next := t.(schedulerFiber := f);
    SchedulerMemory(t, f);
    SchedulerChain(t, m.chain, f);
    forall g | g in t.fibers ensures AgreeOn(next, m, g) && LinkOk(next, g) {
      assert SameFrame(t, next, g) && AgreeOn(t, m, g) && LinkOk(t, g);
    }
  }

  // ----- reset, destruction, running code

  lemma ResetMemory(t: Thread, f: FiberId)
    requires MemoryOk(t) && f in t.fibers && f != t.current
    ensures var next := ApplyReset(t, f);
            && MemoryOk(next) && f in next.fibers && FrameOf(next, f) == ZEROS && next.fibers[f].state == READY
            && forall g :: g in t.fibers && g != f ==> SameFrame(t, next, g)
  {
    var next := ApplyReset(t, f);
    assert BindingOk(t, f);
    forall g | g in t.fibers
      ensures FrameOk(next, g) && BindingOk(next, g)
      ensures if g == f then FrameOf(next, g) == ZEROS else SameFrame(t, next, g)
    {
      ResetOne(t, f, g);
    }
    forall i | 0 <= i < |next.slots| ensures OwnerOk(next, i) {
      assert OwnerOk(t, i);
    }
  }

  lemma ResetOne(t: Thread, f: FiberId, g: FiberId)
    requires MemoryOk(t) && f in t.fibers && f != t.current && g in t.fibers && FrameOk(t, g)
    ensures var next := ApplyReset(t, f);
            && g in next.fibers && FrameOk(next, g) && BindingOk(next, g)
            && if g == f then FrameOf(next, g) == ZEROS else SameFrame(t, next, g)
  {
    var t1 := Cleared(t, f);
    assert BindingOk(t, f) && BindingOk(t, g);
    if t.fibers[f].slot.Some? {
      assert OwnerOk(t, t.fibers[f].slot.value);
      assert g != f ==> FrameOk(t1, g) && BindingOk(t1, g) && FrameOf(t1, g) == FrameOf(t, g);
      InitOne(t1, f, g);
    }
  }

  lemma ResetChanges(t: Thread, f: FiberId)
    requires MemoryOk(t) && f in t.fibers && f != t.current && t.fibers[f].state == TERM && f < t.nextId
    requires t.current in t.fibers && Installed(t, t.current)
    ensures OneChanged(t, ApplyReset(t, f), f) && Installed(ApplyReset(t, f), t.current)
  {
    assert BindingOk(t, f);
    if t.fibers[f].slot.Some? {
      assert OwnerOk(t, t.fibers[f].slot.value);
    }
  }

  lemma ResetAgrees(t: Thread, m: Machine, next: Thread, f: FiberId)
    requires MemoryOk(t) && MemoryOk(next) && Agree(t, m) && OneChanged(t, next, f)
    requires forall g :: g in t.fibers && g != f ==> SameFrame(t, next, g)
    requires f in t.fibers && f in next.fibers && FrameOf(next, f) == ZEROS && next.fibers[f].state == READY
    ensures Agree(next, m.(fibers := m.fibers[f := m.fibers[f].(state := READY, frame := ZEROS)]))
  {
    var m' := m.(fibers := m.fibers[f := m.fibers[f].(state := READY, frame := ZEROS)]);
    assert AgreeOn(t, m, f) && SameBinding(t.fibers[f], next.fibers[f]);
    AgreementStays(t, m, next, m', f);
  }

  lemma ResetSimulates(t: Thread, m: Machine, f: FiberId)
    requires Related(t, m) && Enabled(t, Reset(f))
    ensures Related(Apply(t, Reset(f)), m.(fibers := m.fibers[f := m.fibers[f].(state := READY, frame := ZEROS)]))
  {
    var next := ApplyReset(t, f);
    ResetMemory(t, f);
    ResetChanges(t, f);
    WfStays(t, next, f);
    ChainStays(t, next, m.chain, f);
    ResetAgrees(t, m, next, f);
  }

  lemma DestroyMemory(t: Thread, f: FiberId)
    requires MemoryOk(t) && f != t.current
    ensures var next := t.(fibers := t.fibers - {f});
            MemoryOk(next) && forall g :: g in t.fibers && g != f ==> SameFrame(t, next, g)
  {
    var next := t.(fibers := t.fibers - {f});
    forall g | g in next.fibers ensures FrameOk(next, g) && BindingOk(next, g) && SameFrame(t, next, g) {
      assert FrameOk(t, g) && BindingOk(t, g);
    }
    forall i | 0 <= i < |next.slots| ensures OwnerOk(next, i) {
      assert OwnerOk(t, i);
    }
  }

  lemma DestroySimulates(t: Thread, m: Machine, f: FiberId)
    requires Related(t, m) && Enabled(t, Destroy(f))
    ensures Related(Apply(t, Destroy(f)), m.(fibers := m.fibers - {f}))
  {
    var next := t.(fibers := t.fibers - {f});
    DestroyMemory(t, f);
    DestroyChanges(t, f);
    Stays(t, m, next, m.(fibers := m.fibers - {f}), f);
  }

  lemma DestroyChanges(t: Thread, f: FiberId)
    requires t.current in t.fibers && Installed(t, t.current) && f in t.fibers && f != t.current
    requires t.fibers[f].state != RUNNING
    ensures OneChanged(t, t.(fibers := t.fibers - {f}), f) && Installed(t.(fibers := t.fibers - {f}), t.current)
  {
  }

  lemma ExecTop(s: Slot, s': Slot, below: seq<byte>, frame: seq<byte>)
    requires SlotOk(s) && s.stack[Entry(s)..] == Tail(s)
    requires s' == s.(stack := below + frame + s.pad) && |s'.stack| == |s.stack|
    requires |frame| >= 8 && frame[|frame| - 8..] == ZEROS
    ensures SameTop(s, s') && |below| <= Entry(s) && s'.stack[|below|..Entry(s') + 8] == frame
  {
    var e := Entry(s);
    assert s'.stack[e..] == frame[|frame| - 8..] + s.pad;
    assert s'.stack[e + 8..] == s.pad;
  }

  lemma ExecOne(t: Thread, below: seq<byte>, frame: seq<byte>, g: FiberId)
    requires Wf(t) && Enabled(t, Exec(below, frame)) && g in t.fibers && FrameOk(t, g) && BindingOk(t, g)
    ensures var next := ApplyExec(t, below, frame);
            && FrameOk(next, g) && BindingOk(next, g)
            && if g == t.current then FrameOf(next, g) == frame else SameFrame(t, next, g)
  {
    assert FrameOk(t, t.current);
    var i := t.fibers[t.current].slot.value;
    var s, s' := t.slots[i], ApplyExec(t, below, frame).slots[i];
    ExecTop(s, s', below, frame);
    if g != t.current && t.fibers[g].initialized && t.fibers[g].slot.value == i {
      OthersUnaffected(t.fibers[g], s, s', SpOf(t, g));
    }
  }

  /** What the running code writes below the entry word is seen by itself alone. */
  lemma ExecMemory(t: Thread, below: seq<byte>, frame: seq<byte>)
    requires Wf(t) && Enabled(t, Exec(below, frame))
    ensures var next := ApplyExec(t, below, frame);
            && MemoryOk(next) && FrameOf(next, t.current) == frame
            && forall g :: g in t.fibers && g != t.current ==> SameFrame(t, next, g)
  {
    var next := ApplyExec(t, below, frame);
    forall g | g in t.fibers
      ensures FrameOk(next, g) && BindingOk(next, g)
      ensures if g == t.current then FrameOf(next, g) == frame else SameFrame(t, next, g)
    {
      assert FrameOk(t, g) && BindingOk(t, g);
      ExecOne(t, below, frame, g);
    }
    var i := t.fibers[t.current].slot.value;
    assert FrameOk(t, t.current);
    ExecTop(t.slots[i], next.slots[i], below, frame);
    forall k | 0 <= k < |next.slots| ensures OwnerOk(next, k) {
      assert OwnerOk(t, k);
    }
  }

  lemma ExecAgrees(t: Thread, m: Machine, below: seq<byte>, frame: seq<byte>, g: FiberId)
    requires Wf(t) && Enabled(t, Exec(below, frame)) && Agree(t, m) && m.chain != [] && Last(m.chain) == t.current
    requires g in t.fibers && MemoryOk(ApplyExec(t, below, frame))
    requires if g == t.current then FrameOf(ApplyExec(t, below, frame), g) == frame
             else SameFrame(t, ApplyExec(t, below, frame), g)
    ensures AgreeOn(ApplyExec(t, below, frame), Step(m, Exec(below, frame)), g)
  {
    assert AgreeOn(t, m, g);
  }

  lemma ExecSimulates(t: Thread, m: Machine, below: seq<byte>, frame: seq<byte>)
    requires Related(t, m) && Enabled(t, Exec(below, frame))
    ensures Related(Apply(t, Exec(below, frame)), Step(m, Exec(below, frame)))
  {
    var next := ApplyExec(t, below, frame);
    ExecMemory(t, below, frame);
    forall g | g in next.fibers ensures AgreeOn(next, Step(m, Exec(below, frame)), g) {
      ExecAgrees(t, m, below, frame, g);
    }
    ExecChanges(t, below, frame);
    WfStays(t, next, t.nextId);
    ChainStays(t, next, m.chain, t.nextId);
  }

  lemma ExecChanges(t: Thread, below: seq<byte>, frame: seq<byte>)
    requires Wf(t) && Enabled(t, Exec(below, frame))
    ensures OneChanged(t, ApplyExec(t, below, frame), t.nextId) && Installed(ApplyExec(t, below, frame), t.current)
  {
  }
}

/** Whole runs of one thread's fibers. */
module FiberRuns {
  import opened FiberIds
  import opened Sequences
  import opened Stacks
  import opened Fibers
  import opened PrivateStacks

  /** A thread that runs on its own stack, before any fiber is created. */
  function Start(tid: nat, base: nat, memory: seq<byte>): Thread
    requires 0 <= EntryOffset(base, |memory|)
  {
    var s := WriteEntry(NewSlot(base, memory, false, Some(0)));
    var main := Fiber(false, true, |memory|, RUNNING, 0, true, NO_THREAD, Some(0), [], None, false);
    Thread(tid, map[0 := main], [s], 0, 0, 0, Entry(s), 1)
  }

  function StartMachine(): Machine { Machine(map[0 := PrivateFiber(false, RUNNING, ZEROS)], [0]) }

  ghost predicate IsStart(t: Thread) {
    exists tid: nat, base: nat, memory: seq<byte> :: 0 <= EntryOffset(base, |memory|) && t == Start(tid, base, memory)
  }

  lemma StartIsStart(t: Thread, tid: nat, base: nat, memory: seq<byte>)
    requires 0 <= EntryOffset(base, |memory|)
    requires t.slots == [WriteEntry(NewSlot(base, memory, false, Some(0)))]
    requires t.fibers == map[0 := Fiber(false, true, |memory|, RUNNING, 0, true, NO_THREAD, Some(0), [], None, false)]
    requires t.current == t.threadFiber == t.schedulerFiber == 0 && t.nextId == 1 && t.tid == tid
    requires t.sp == EntryOffset(base, |memory|)
    ensures IsStart(t)
  {
    assert t == Start(tid, base, memory);
  }

  ghost predicate IsRun(states: seq<Thread>, actions: seq<Action>) {
    && |states| == |actions| + 1
    && forall i :: 0 <= i <= |actions| ==> RunAt(states, actions, i)
  }

  ghost predicate RunAt(states: seq<Thread>, actions: seq<Action>, i: nat)
    requires i <= |actions| && |states| == |actions| + 1
  {
    && (i == 0 ==> IsStart(states[i]))
    && (i < |actions| ==> Takes(states[i], actions[i], states[i + 1]))
  }

  ghost predicate Takes(t: Thread, a: Action, next: Thread) {
    Enabled(t, a) && (Wf(t) ==> next == Apply(t, a))
  }

  function Do(m: Machine, a: Action): Machine { if Allowed(m, a) then Step(m, a) else m }

  /** The machine with private stacks after the same actions. */
  function Private(actions: seq<Action>): Machine {
    if actions == [] then StartMachine() else Do(Private(actions[..|actions| - 1]), actions[|actions| - 1])
  }

  lemma PrivateStep(actions: seq<Action>, n: nat)
    requires 0 < n <= |actions|
    ensures Private(actions[..n]) == Do(Private(actions[..n - 1]), actions[n - 1])
  {
    assert actions[..n][..n - 1] == actions[..n - 1];
  }

  // ----- the simulation

  lemma StartMemory(tid: nat, base: nat, memory: seq<byte>)
    requires 0 <= EntryOffset(base, |memory|)
    ensures var t := Start(tid, base, memory);
            MemoryOk(t) && FrameOf(t, 0) == ZEROS
  {
    var t := Start(tid, base, memory);
    var s := t.slots[0];
    assert s.stack[Entry(s)..Entry(s) + 8] == s.stack[Entry(s)..][..8] == ZEROS;
    assert FrameOk(t, 0) && BindingOk(t, 0) && OwnerOk(t, 0);
  }

  lemma StartChain(t: Thread)
    requires t.fibers.Keys == {0} && t.current == 0 && t.threadFiber == 0
    requires t.fibers[0].state == RUNNING && NoLink(t, 0)
    ensures ChainOk(t, [0])
  {
  }

  lemma StartWf(tid: nat, base: nat, memory: seq<byte>)
    requires 0 <= EntryOffset(base, |memory|)
    ensures Wf(Start(tid, base, memory))
  {
    StartMemory(tid, base, memory);
  }

  lemma StartRelated(t: Thread)
    requires IsStart(t)
    ensures Related(t, StartMachine())
  {
    var tid: nat, base: nat, memory: seq<byte> :| 0 <= EntryOffset(base, |memory|) && t == Start(tid, base, memory);
    StartWf(tid, base, memory);
    StartMemory(tid, base, memory);
    StartChain(t);
    StartAgrees(t);
  }

  lemma StartAgrees(t: Thread)
    requires MemoryOk(t) && t.fibers.Keys == {0} && FrameOk(t, 0) && FrameOf(t, 0) == ZEROS
    requires !t.fibers[0].shared && t.fibers[0].state == RUNNING
    ensures Agree(t, StartMachine())
  {
    assert AgreeOn(t, StartMachine(), 0);
  }

  lemma StepSimulates(t: Thread, m: Machine, a: Action)
    requires Related(t, m) && Enabled(t, a)
    ensures Allowed(m, a) && Related(Apply(t, a), Step(m, a))
  {
    match a
    case Create(f, shared, inScheduler, base, memory) => CreateSimulates(t, m, f, shared, inScheduler, base, memory);
    case GrowPool(base, memory) => GrowSimulates(t, m, base, memory);
    case SetScheduler(f) => SetSchedulerSimulates(t, m, f);
    case Resume(f, slot) => ResumeSimulates(t, m, f, slot);
    case Call(f, slot) => CallSimulates(t, m, f, slot);
    case Yield(terminated) => YieldSimulates(t, m, terminated);
    case Reset(f) => ResetSimulates(t, m, f);
    case Destroy(f) => DestroySimulates(t, m, f);
    case Exec(below, frame) => ExecSimulates(t, m, below, frame);
  }

  /** Every run over shared stacks is, action by action, a run of the machine in which each fiber has a
      stack of its own. */
  lemma {:induction false} Simulation(states: seq<Thread>, actions: seq<Action>, n: nat)
    requires IsRun(states, actions) && n <= |actions|
    ensures Related(states[n], Private(actions[..n]))
  {
    if n == 0 {
      assert RunAt(states, actions, 0);
      StartRelated(states[0]);
    } else {
      Simulation(states, actions, n - 1);
      PrivateStep(actions, n);
      assert RunAt(states, actions, n - 1);
      TakenSimulates(states[n - 1], Private(actions[..n - 1]), actions[n - 1], states[n]);
    }
  }

  lemma TakenSimulates(t: Thread, m: Machine, a: Action, next: Thread)
    requires Related(t, m) && Takes(t, a, next)
    ensures Allowed(m, a) && Related(next, Do(m, a))
  {
    StepSimulates(t, m, a);
  }

  lemma RunWf(states: seq<Thread>, actions: seq<Action>, n: nat)
    requires IsRun(states, actions) && n <= |actions|
    ensures Wf(states[n])
  {
    Simulation(states, actions, n);
  }

  // ----- what a fiber finds when it is switched in

  /** Buffers stay, who is bound to one stays bound to it, and no identity comes twice. */
  ghost predicate ShapesKept(t: Thread, t': Thread) {
    && t'.tid == t.tid && t.nextId <= t'.nextId && SlotsKept(t, t')
    && (forall f :: f in t.fibers && f in t'.fibers ==> SameBinding(t.fibers[f], t'.fibers[f]))
    && (forall f :: f in t'.fibers && f < t.nextId ==> f in t.fibers)
  }

  lemma StepKeepsShapes(t: Thread, m: Machine, a: Action)
    requires Related(t, m) && Enabled(t, a)
    ensures ShapesKept(t, Apply(t, a))
  {
    match a
    case Create(f, shared, inScheduler, base, memory) => CreateShapes(t, f, shared, inScheduler, base, memory);
    case GrowPool(base, memory) =>
    case SetScheduler(f) =>
    case Resume(f, slot) => SwitchShapes(t, m, a);
    case Call(f, slot) => SwitchShapes(t, m, a);
    case Yield(terminated) => SwitchShapes(t, m, a);
    case Reset(f) => ResetShapes(t, f);
    case Destroy(f) =>
    case Exec(below, frame) => ExecShapes(t, below, frame);
  }

  predicate Switches(a: Action) { a.Resume? || a.Call? || a.Yield? }

  lemma SwitchShapes(t: Thread, m: Machine, a: Action)
    requires Related(t, m) && Enabled(t, a) && Switches(a)
    ensures ShapesKept(t, Apply(t, a))
  {
    match a
    case Resume(f, slot) => ResumeSimulates(t, m, f, slot);
    case Call(f, slot) => CallSimulates(t, m, f, slot);
    case Yield(terminated) => YieldSimulates(t, m, terminated);
  }

  lemma CreateShapes(t: Thread, f: FiberId, shared: bool, inScheduler: bool, base: nat, memory: seq<byte>)
    requires Wf(t) && t.nextId <= f && 0 <= EntryOffset(base, |memory|)
    ensures ShapesKept(t, ApplyCreate(t, f, shared, inScheduler, base, memory))
  {
  }

  lemma ResetShapes(t: Thread, f: FiberId)
    requires MemoryOk(t) && f in t.fibers
    ensures ShapesKept(t, ApplyReset(t, f))
  {
    assert BindingOk(t, f);
    if t.fibers[f].slot.Some? {
      assert OwnerOk(t, t.fibers[f].slot.value);
    }
  }

  lemma ExecShapes(t: Thread, below: seq<byte>, frame: seq<byte>)
    requires Wf(t) && Enabled(t, Exec(below, frame))
    ensures ShapesKept(t, ApplyExec(t, below, frame))
  {
  }

  /** The bytes of the current fiber, from the stack pointer to the top of its buffer. */
  ghost function Live(t: Thread): seq<byte>
    requires Wf(t) && 0 <= t.sp <= |SlotOf(t, t.current).stack|
  {
    SlotOf(t, t.current).stack[t.sp..]
  }

  lemma LiveIsFrame(t: Thread)
    requires Wf(t)
    ensures FrameOk(t, t.current) && 0 <= t.sp <= |SlotOf(t, t.current).stack|
    ensures Live(t) == FrameOf(t, t.current) + SlotOf(t, t.current).pad
  {
    assert FrameOk(t, t.current);
    var s := SlotOf(t, t.current);
    assert s.stack[t.sp..] == s.stack[t.sp..Entry(s) + 8] + s.stack[Entry(s) + 8..];
  }

  /** `f`, if still there, can go on where it was in `t0`. */
  ghost predicate Waiting(t0: Thread, t: Thread, f: FiberId)
    requires Wf(t0) && Wf(t)
  {
    && t0.nextId <= t.nextId && SlotsKept(t0, t) && f in t0.fibers && FrameOk(t0, f)
    && (f in t.fibers ==> t.fibers[f].state != TERM && SameBinding(t0.fibers[f], t.fibers[f]) && SameFrame(t0, t, f))
  }

  lemma FrameStep(t: Thread, m: Machine, a: Action, f: FiberId)
    requires Related(t, m) && Enabled(t, a) && Allowed(m, a) && f in t.fibers && t.fibers[f].state != TERM
    requires t.current == f ==> !a.Exec? && a != Yield(true)
    ensures f in Step(m, a).fibers ==>
      Step(m, a).fibers[f].frame == m.fibers[f].frame && Step(m, a).fibers[f].state != TERM
  {
    assert AgreeOn(t, m, f) && f < t.nextId;
  }

  lemma WaitingStep(t0: Thread, t: Thread, m: Machine, a: Action, f: FiberId)
    requires Wf(t0) && Related(t, m) && Enabled(t, a) && Waiting(t0, t, f)
    requires t.current == f ==> !a.Exec? && a != Yield(true)
    ensures Wf(Apply(t, a)) && Waiting(t0, Apply(t, a), f)
  {
    var next := Apply(t, a);
    StepSimulates(t, m, a);
    StepKeepsShapes(t, m, a);
    assert f < t.nextId;
    SlotsKeptTwice(t0, t, next);
    if f in next.fibers {
      FrameStep(t, m, a, f);
      AgreedFrames(t, m, next, Step(m, a), f);
      assert SameBinding(t.fibers[f], next.fibers[f]);
    }
  }

  lemma AgreedFrames(t: Thread, m: Machine, next: Thread, m': Machine, f: FiberId)
    requires Related(t, m) && Related(next, m') && f in t.fibers && f in next.fibers
    ensures f in m.fibers && f in m'.fibers && FrameOk(t, f) && FrameOk(next, f)
    ensures m.fibers[f].frame == FrameOf(t, f) && m'.fibers[f].frame == FrameOf(next, f)
    ensures m.fibers[f].state == t.fibers[f].state && m'.fibers[f].state == next.fibers[f].state
  {
    assert AgreeOn(t, m, f) && AgreeOn(next, m', f);
  }

  lemma SlotsKeptTwice(t: Thread, t': Thread, t'': Thread)
    requires SlotsKept(t, t') && SlotsKept(t', t'')
    ensures SlotsKept(t, t'')
  {
    forall i | 0 <= i < |t.slots| ensures SameShape(t.slots[i], t''.slots[i]) {
      assert SameShape(t.slots[i], t'.slots[i]) && SameShape(t'.slots[i], t''.slots[i]);
    }
  }

  lemma {:induction false} Waits(states: seq<Thread>, actions: seq<Action>, m: nat, n: nat, f: FiberId)
    requires IsRun(states, actions) && m <= n <= |actions|
    requires f in states[m].fibers && states[m].fibers[f].state != TERM
    requires forall k :: m <= k < n ==> (states[k].current == f ==> !actions[k].Exec? && actions[k] != Yield(true))
    ensures Wf(states[m]) && Wf(states[n]) && Waiting(states[m], states[n], f)
  {
    RunWf(states, actions, m);
    RunWf(states, actions, n);
    if m == n {
      assert FrameOk(states[m], f);
    } else {
      Waits(states, actions, m, n - 1, f);
      Simulation(states, actions, n - 1);
      assert RunAt(states, actions, n - 1);
      WaitingStep(states[m], states[n - 1], Private(actions[..n - 1]), actions[n - 1], f);
    }
  }

  /** A fiber that is switched in finds its stack pointer and every byte above it as it left them, whoever used
      the buffer in between. */
  lemma SwitchInFindsWhatItLeft(states: seq<Thread>, actions: seq<Action>, m: nat, n: nat)
    requires IsRun(states, actions) && m < n <= |actions| && states[n].current == states[m].current
    requires forall k :: m < k < n ==> states[k].current != states[m].current
    requires !actions[m].Exec? && actions[m] != Yield(true)
    ensures Wf(states[m]) && Wf(states[n]) && states[n].sp == states[m].sp
    ensures states[n].fibers[states[n].current].slot == states[m].fibers[states[n].current].slot
    ensures 0 <= states[m].sp <= |SlotOf(states[m], states[m].current).stack|
    ensures |SlotOf(states[n], states[n].current).stack| == |SlotOf(states[m], states[m].current).stack|
    ensures Live(states[n]) == Live(states[m])
  {
    var t, next, f := states[m], states[n], states[m].current;
    Simulation(states, actions, m);
    Waits(states, actions, m, n, f);
    SameFrameSameBytes(t, next);
  }

  lemma SameFrameSameBytes(t: Thread, next: Thread)
    requires Wf(t) && Wf(next) && next.current == t.current && SlotsKept(t, next) && FrameOk(t, t.current)
    requires SameBinding(t.fibers[t.current], next.fibers[t.current]) && SameFrame(t, next, t.current)
    ensures next.sp == t.sp && next.fibers[t.current].slot == t.fibers[t.current].slot
    ensures 0 <= t.sp <= |SlotOf(t, t.current).stack| == |SlotOf(next, t.current).stack|
    ensures Live(next) == Live(t)
  {
    LiveIsFrame(t);
    LiveIsFrame(next);
    var i := t.fibers[t.current].slot.value;
    assert SameShape(t.slots[i], next.slots[i]);
  }

  // ----- nested calls

  ghost predicate Prefix(p: seq<FiberId>, s: seq<FiberId>) { |p| <= |s| && s[..|p|] == p }

  lemma StackStep(m: Machine, a: Action, p: seq<FiberId>, f: FiberId)
    requires Allowed(m, a) && Distinct(m.chain) && Prefix(p + [f], m.chain)
    ensures f in Step(m, a).chain ==> Prefix(p + [f], Step(m, a).chain)
    ensures f !in Step(m, a).chain ==> a.Yield? && Step(m, a).chain == p && Last(m.chain) == f
  {
    var q := p + [f];
    assert m.chain[|p|] == q[|p|] == f;
    var chain' := Step(m, a).chain;
    if a.Yield? {
      assert chain' == m.chain[..|m.chain| - 1];
      if |m.chain| == |p| + 1 {
        assert m.chain == q && chain' == p;
        assert f !in p;
      } else {
        assert chain'[..|q|] == m.chain[..|q|];
        assert chain'[|p|] == f;
      }
    } else {
      assert chain' == m.chain || (exists g :: chain' == m.chain + [g]);
      assert chain'[..|q|] == m.chain[..|q|];
      assert chain'[|p|] == f;
    }
  }

  lemma RunStep(states: seq<Thread>, actions: seq<Action>, n: nat)
    requires IsRun(states, actions) && 0 < n <= |actions|
    ensures var m := Private(actions[..n - 1]);
            && Allowed(m, actions[n - 1]) && Private(actions[..n]) == Step(m, actions[n - 1])
            && Distinct(m.chain) && Last(m.chain) == states[n - 1].current
  {
    Simulation(states, actions, n - 1);
    PrivateStep(actions, n);
    assert RunAt(states, actions, n - 1);
    TakenSimulates(states[n - 1], Private(actions[..n - 1]), actions[n - 1], states[n]);
  }

  /** Who entered whom, after `n` actions. */
  function Chain(actions: seq<Action>, n: nat): seq<FiberId>
    requires n <= |actions|
  {
    Private(actions[..n]).chain
  }

  ghost predicate Running(t: Thread, f: FiberId) { f in t.fibers && t.fibers[f].state == RUNNING }

  lemma RunChain(states: seq<Thread>, actions: seq<Action>, n: nat, f: FiberId)
    requires IsRun(states, actions) && n <= |actions|
    ensures Chain(actions, n) != [] && Last(Chain(actions, n)) == states[n].current
    ensures f in Chain(actions, n) <==> Running(states[n], f)
    ensures f in states[n].fibers && !Running(states[n], f) ==> NoLink(states[n], f)
  {
    Simulation(states, actions, n);
  }

  lemma RunEnters(states: seq<Thread>, actions: seq<Action>, n: nat)
    requires IsRun(states, actions) && n < |actions| && states[n].current != states[n + 1].current
    requires actions[n].Resume? || actions[n].Call?
    ensures Chain(actions, n + 1) == Chain(actions, n) + [states[n + 1].current]
  {
    RunStep(states, actions, n + 1);
    RunChain(states, actions, n, 0);
    RunChain(states, actions, n + 1, 0);
  }

  lemma RunStack(states: seq<Thread>, actions: seq<Action>, n: nat, p: seq<FiberId>, f: FiberId)
    requires IsRun(states, actions) && n < |actions| && Prefix(p + [f], Chain(actions, n))
    ensures Running(states[n + 1], f) ==> Prefix(p + [f], Chain(actions, n + 1))
    ensures !Running(states[n + 1], f) ==>
      actions[n].Yield? && Chain(actions, n + 1) == p && states[n].current == f
  {
    RunStep(states, actions, n + 1);
    RunChain(states, actions, n + 1, f);
    StackStep(Private(actions[..n]), actions[n], p, f);
  }

  /** A fiber that was resumed or called and still runs, or has callees that run, is on the chain right above
      its caller. */
  lemma {:induction false} StaysOnChain(states: seq<Thread>, actions: seq<Action>, m: nat, n: nat, f: FiberId)
    requires IsRun(states, actions) && m < n <= |actions| && states[m + 1].current == f != states[m].current
    requires actions[m].Resume? || actions[m].Call?
    requires forall k {:trigger states[k]} :: m < k <= n ==> Running(states[k], f)
    ensures Prefix(Chain(actions, m) + [f], Chain(actions, n))
  {
    if n == m + 1 {
      RunEnters(states, actions, m);
    } else {
      StaysOnChain(states, actions, m, n - 1, f);
      RunStack(states, actions, n - 1, Chain(actions, m), f);
    }
  }

  /** When a fiber that was resumed or called stops running, by yielding or terminating, the fiber that entered
      it is the current one again, with the same callers, and the fiber has no parent link any more. */
  lemma ReturnsToTheCaller(states: seq<Thread>, actions: seq<Action>, m: nat, n: nat, f: FiberId)
    requires IsRun(states, actions) && m + 1 < n <= |actions| && states[m + 1].current == f != states[m].current
    requires actions[m].Resume? || actions[m].Call?
    requires forall k {:trigger states[k]} :: m < k < n ==> Running(states[k], f)
    requires !Running(states[n], f)
    ensures actions[n - 1].Yield? && states[n - 1].current == f && states[n].current == states[m].current
    ensures f in states[n].fibers && NoLink(states[n], f)
    ensures states[n].fibers[f].state == if actions[n - 1].terminated then TERM else READY
    ensures Chain(actions, n) == Chain(actions, m)
  {
    StaysOnChain(states, actions, m, n - 1, f);
    RunStack(states, actions, n - 1, Chain(actions, m), f);
    RunChain(states, actions, m, f);
    RunChain(states, actions, n, f);
    StoppedState(states, actions, n, f);
  }

  lemma StoppedState(states: seq<Thread>, actions: seq<Action>, n: nat, f: FiberId)
    requires IsRun(states, actions) && 0 < n <= |actions| && actions[n - 1].Yield? && states[n - 1].current == f
    ensures f in states[n].fibers && states[n].fibers[f].state == if actions[n - 1].terminated then TERM else READY
  {
    RunStep(states, actions, n);
    Simulation(states, actions, n);
    Simulation(states, actions, n - 1);
    assert AgreeOn(states[n], Private(actions[..n]), f);
  }

  // ----- a terminated fiber

  /** A terminated fiber runs again only after it was reset. */
  lemma {:induction false} RunsAgainOnlyAfterReset(
      states: seq<Thread>, actions: seq<Action>, m: nat, n: nat, f: FiberId)
    requires IsRun(states, actions) && m <= n <= |actions|
    requires f in states[m].fibers && states[m].fibers[f].state == TERM
    requires f in states[n].fibers && states[n].fibers[f].state != TERM
    ensures exists k :: m <= k < n && actions[k] == Reset(f)
  {
    if actions[n - 1] != Reset(f) {
      StaysAlive(states, actions, m, n - 1, f);
      if states[n - 1].fibers[f].state == TERM {
        StaysTerminated(states, actions, n - 1, f);
        assert false;
      }
      RunsAgainOnlyAfterReset(states, actions, m, n - 1, f);
    }
  }

  lemma StaysTerminated(states: seq<Thread>, actions: seq<Action>, n: nat, f: FiberId)
    requires IsRun(states, actions) && n < |actions| && actions[n] != Reset(f)
    requires f in states[n].fibers && states[n].fibers[f].state == TERM
    ensures f in states[n + 1].fibers ==> states[n + 1].fibers[f].state == TERM
  {
    Simulation(states, actions, n);
    assert RunAt(states, actions, n);
    TerminatedStep(states[n], Private(actions[..n]), actions[n], f);
  }

  lemma TerminatedStep(t: Thread, m: Machine, a: Action, f: FiberId)
    requires Related(t, m) && Enabled(t, a) && a != Reset(f) && f in t.fibers && t.fibers[f].state == TERM
    ensures f in Apply(t, a).fibers ==> Apply(t, a).fibers[f].state == TERM
  {
    StepSimulates(t, m, a);
    assert AgreeOn(t, m, f) && AgreeOn(t, m, t.current);
    PrivateTerminated(m, a, f);
    if f in Apply(t, a).fibers {
      AgreedFrames(t, m, Apply(t, a), Step(m, a), f);
    }
  }

  lemma PrivateTerminated(m: Machine, a: Action, f: FiberId)
    requires Allowed(m, a) && a != Reset(f) && f in m.fibers && m.fibers[f].state == TERM
    requires m.fibers[Last(m.chain)].state == RUNNING
    requires a.Create? || a.Resume? ==> a.f != f
    ensures f in Step(m, a).fibers ==> Step(m, a).fibers[f].state == TERM
  {
  }

  lemma StaysAlive(states: seq<Thread>, actions: seq<Action>, m: nat, n: nat, f: FiberId)
    requires IsRun(states, actions) && m <= n < |actions| && f in states[m].fibers && f in states[n + 1].fibers
    ensures f in states[n].fibers
  {
    KnownIdentity(states, actions, m, n, f);
    RunShapes(states, actions, n);
  }

  lemma RunShapes(states: seq<Thread>, actions: seq<Action>, n: nat)
    requires IsRun(states, actions) && n < |actions|
    ensures ShapesKept(states[n], states[n + 1])
  {
    Simulation(states, actions, n);
    assert RunAt(states, actions, n);
    StepKeepsShapes(states[n], Private(actions[..n]), actions[n]);
  }

  lemma {:induction false} KnownIdentity(states: seq<Thread>, actions: seq<Action>, m: nat, n: nat, f: FiberId)
    requires IsRun(states, actions) && m <= n <= |actions| && f in states[m].fibers
    ensures f < states[n].nextId
  {
    if m == n {
      RunWf(states, actions, m);
    } else {
      KnownIdentity(states, actions, m, n - 1, f);
      RunShapes(states, actions, n - 1);
    }
  }

  // ----- the buffer that running code lies in

  /** The fiber whose slot the action prepares, if any. */
  function Prepared(t: Thread, a: Action): Option<FiberId> {
    if t.current !in t.fibers then None
    else
      match a
      case Resume(f, _) => if f in t.fibers && t.fibers[f].shared then Some(f) else None
      case Call(f, _) => if f in t.fibers && CallCode(t, f) == CALL_OK && t.fibers[f].shared then Some(f) else None
      case Yield(_) =>
        var p := t.fibers[t.current].parent;
        if !t.fibers[t.current].returnToParent || p.None? || p.value !in t.fibers then None
        else if t.fibers[p.value].shared then p else None
      case _ => None
  }

  lemma OwnerNotRunning(t: Thread, m: Machine, a: Action)
    requires Related(t, m) && Enabled(t, a) && Prepared(t, a).Some?
    ensures !t.fibers[t.current].shared && !SlotOf(t, t.current).pooled
    ensures forall i :: 0 <= i < |t.slots| && t.slots[i].pooled ==> LiveOwner(t, i) != Some(t.current)
  {
    if a.Yield? {
      assert LinkTo(t, m.chain[|m.chain| - 2], t.current);
    }
    assert BindingOk(t, t.current);
    forall i | 0 <= i < |t.slots| && t.slots[i].pooled ensures LiveOwner(t, i) != Some(t.current) {
      assert OwnerOk(t, i);
    }
  }

  /** In every run a slot is prepared only by code that runs on a private stack, so an occupant that would have
      to be saved while it runs never exists. */
  lemma OwnerIsNeverRunning(states: seq<Thread>, actions: seq<Action>, n: nat)
    requires IsRun(states, actions) && n < |actions| && Prepared(states[n], actions[n]).Some?
    ensures var t := states[n];
            && Wf(t) && !t.fibers[t.current].shared && !SlotOf(t, t.current).pooled
            && forall i :: 0 <= i < |t.slots| && t.slots[i].pooled ==> LiveOwner(t, i) != Some(t.current)
  {
    Simulation(states, actions, n);
    assert RunAt(states, actions, n);
    OwnerNotRunning(states[n], Private(actions[..n]), actions[n]);
  }

  lemma RunningStackKept(t: Thread, m: Machine, a: Action)
    requires Related(t, m) && Enabled(t, a) && !a.Exec?
    ensures var i := t.fibers[t.current].slot.value;
            i < |Apply(t, a).slots| && Apply(t, a).slots[i] == t.slots[i]
  {
    if Switches(a) {
      SwitchWritesNothing(t, m, a);
    } else if a.Reset? {
      ResetWritesNothing(t, a.f);
    }
  }

  /** In every run nothing but the running fiber's own code changes the buffer it runs on. */
  lemma NobodyElseWritesTheRunningStack(states: seq<Thread>, actions: seq<Action>, n: nat)
    requires IsRun(states, actions) && n < |actions| && !actions[n].Exec?
    ensures var t, next := states[n], states[n + 1];
            && Wf(t) && t.fibers[t.current].slot.value < |next.slots|
            && next.slots[t.fibers[t.current].slot.value] == SlotOf(t, t.current)
  {
    Simulation(states, actions, n);
    assert RunAt(states, actions, n);
    RunningStackKept(states[n], Private(actions[..n]), actions[n]);
  }

  lemma ResetWritesNothing(t: Thread, f: FiberId)
    requires Wf(t) && Enabled(t, Reset(f))
    ensures var i := t.fibers[t.current].slot.value;
            i < |ApplyReset(t, f).slots| && ApplyReset(t, f).slots[i] == t.slots[i]
  {
    assert BindingOk(t, f) && FrameOk(t, t.current);
    if t.fibers[f].slot == t.fibers[t.current].slot {
      InitIsHarmless(SlotOf(t, t.current));
    }
  }

  lemma SwitchWritesNothing(t: Thread, m: Machine, a: Action)
    requires Related(t, m) && Enabled(t, a) && Switches(a)
    ensures var i := t.fibers[t.current].slot.value;
            i < |Apply(t, a).slots| && Apply(t, a).slots[i] == t.slots[i]
  {
    if Prepared(t, a).Some? {
      OwnerNotRunning(t, m, a);
    }
    match a
    case Resume(f, slot) => PreparedIfShared(t, f, slot);
    case Call(f, slot) =>
      if CallCode(t, f) == CALL_OK {
        PreparedIfShared(t, f, slot);
      }
    case Yield(terminated) => YieldWritesNothing(t, terminated);
  }

  lemma YieldWritesNothing(t: Thread, terminated: bool)
    requires Wf(t) && (Prepared(t, Yield(terminated)).Some? ==> !SlotOf(t, t.current).pooled)
    ensures var i := t.fibers[t.current].slot.value;
            i < |ApplyYield(t, terminated).slots| && ApplyYield(t, terminated).slots[i] == t.slots[i]
  {
    if ReturnsToParent(t) {
      BackWritesNothing(t, terminated);
    }
  }

  lemma BackWritesNothing(t: Thread, terminated: bool)
    requires Wf(t) && ReturnsToParent(t)
    requires t.fibers[t.fibers[t.current].parent.value].shared ==> !SlotOf(t, t.current).pooled
    ensures var i := t.fibers[t.current].slot.value;
            i < |Back(t, terminated).slots| && Back(t, terminated).slots[i] == t.slots[i]
  {
    var f, p := t.current, t.fibers[t.current].parent.value;
    var fiber := Yielding(t, terminated).(parent := None, returnToParent := false);
    assert LinkOk(t, f) && BindingOk(t, p);
    ControlKeepsFrames(t, f, fiber);
    PreparedIfShared(WithFiber(t, f, fiber), p, 0);
  }

  // ----- the error codes of call

  /** A call is refused exactly where the fiber is not ready or both stacks are shared; a fiber that calls itself
      is running, so it is told that it is not ready. */
  lemma WhenCallIsRefused(t: Thread, f: FiberId)
    requires Wf(t) && f in t.fibers
    ensures CallCode(t, f) == CALL_OK <==>
              t.fibers[f].state == READY && !(t.fibers[f].shared && t.fibers[t.current].shared)
    ensures f == t.current ==> CallCode(t, f) == CALL_ERR_NOT_READY
    ensures CallCode(t, f) != CALL_ERR_SELF_CALL
    ensures CallCode(t, f) != CALL_OK && Enabled(t, Call(f, 0)) ==> Apply(t, Call(f, 0)) == t
  {
  }
}

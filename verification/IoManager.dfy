/** The I/O manager as an object: one record per descriptor, changed in place. Every operation does what
    its counterpart on values does. `refuses` stands for the kernel's answer to a legal request. */
module IoManagers {
  import opened EventTable

  class FdRecord {
    const fd: nat
    var events: Mask
    var read: Target
    var write: Target

    function Value(): FdContext
      reads this
    {
      FdContext(events, read, write)
    }

    constructor (fd: nat)
      ensures this.fd == fd && Value() == EMPTY
    {
      this.fd := fd;
      events, read, write := Mask(false, false), Vacant, Vacant;
    }

    method SetContext(e: Event, t: Target)
      modifies this`read, this`write
      ensures Value() == EventTable.Put(old(Value()), e, t)
    {
      if e == READ { read := t; } else { write := t; }
    }

    method Attach(e: Event, t: Target)
      modifies this
      ensures Value() == EventTable.Put(old(Value()).(events := With(old(Value()).events, e)), e, t)
    {
      events := With(events, e);
      SetContext(e, t);
    }

    method Detach(e: Event)
      modifies this
      ensures Value() == EventTable.Reset(old(Value()), e)
    {
      events := Minus(events, e);
      SetContext(e, Vacant);
    }

    /** Takes the event out of the mask and its target out of the context. */
    method TriggerEvent(e: Event) returns (target: Target)
      requires On(events, e)
      modifies this
      ensures Value() == EventTable.Reset(old(Value()), e)
      ensures target == EventTable.Context(old(Value()), e)
    {
      target := if e == READ then read else write;
      Detach(e);
    }
  }

  function Table(records: seq<FdRecord>): (table: seq<FdContext>)
    reads records
    ensures |table| == |records| && forall i :: 0 <= i < |table| ==> table[i] == records[i].Value()
  {
    seq(|records|, i requires 0 <= i < |records| reads records => records[i].Value())
  }

  class IOManager {
    var fdContexts: seq<FdRecord>
    var kernel: map<nat, Mask>
    var pendingEventCount: int
    var scheduled: seq<Target>
    ghost var added: multiset<Registration>
    ghost var fired: seq<Registration>
    ghost var deleted: multiset<Registration>

    ghost function Value(): Io
      reads this, fdContexts
    {
      Io(Table(fdContexts), kernel, pendingEventCount, scheduled, added, fired, deleted)
    }

    /** One record per descriptor. What the values keep is `EventTable.Inv`, by the lemmas there. */
    ghost predicate Valid()
      reads this
    {
      |fdContexts| >= 2 && forall i, j :: 0 <= i < j < |fdContexts| ==> fdContexts[i] != fdContexts[j]
    }

    constructor ()
      ensures Valid() && |fdContexts| == 32 && Init(Value()) && Inv(Value())
      ensures forall k :: 0 <= k < |fdContexts| ==> fresh(fdContexts[k])
    {
      fdContexts, kernel, pendingEventCount, scheduled := [], map[], 0, [];
      added, fired, deleted := multiset{}, [], multiset{};
      new;
      ContextResize(32);
      InitInv(Value());
    }

    /** New descriptors get an empty record. */
    method ContextResize(size: nat)
      requires |fdContexts| <= size
      requires forall i, j :: 0 <= i < j < |fdContexts| ==> fdContexts[i] != fdContexts[j]
      modifies this`fdContexts
      ensures |fdContexts| == size && fdContexts[..|old(fdContexts)|] == old(fdContexts)
      ensures forall k :: |old(fdContexts)| <= k < size ==> fresh(fdContexts[k])
      ensures forall i, j :: 0 <= i < j < |fdContexts| ==> fdContexts[i] != fdContexts[j]
      ensures Table(fdContexts) == Grow(old(Table(fdContexts)), size)
    {
      var i := |fdContexts|;
      while i < size
        invariant |old(fdContexts)| <= i == |fdContexts| <= size
        invariant fdContexts[..|old(fdContexts)|] == old(fdContexts)
        invariant forall k :: |old(fdContexts)| <= k < i ==> fresh(fdContexts[k])
        invariant forall k :: |old(fdContexts)| <= k < i ==> fdContexts[k].Value() == EMPTY
        invariant forall k, l :: 0 <= k < l < i ==> fdContexts[k] != fdContexts[l]
      {
        var record := new FdRecord(i);
        fdContexts := fdContexts + [record];
        i := i + 1;
      }
    }

    method EpollCtl(op: Op, fd: nat, m: Mask, refuses: bool) returns (ok: bool)
      modifies this`kernel
      ensures (kernel, ok) == Ctl(old(kernel), op, fd, m, refuses)
    {
      ok := !refuses && (if op == ADD then fd !in kernel else fd in kernel);
      if ok {
        kernel := if op == DEL then kernel - {fd} else kernel[fd := m];
      }
    }

    method AddEvent(fd: int, e: Event, target: Target, refuses: bool) returns (ok: bool)
      requires Valid() && target != Vacant
      modifies this, fdContexts
      ensures Valid() && (Value(), ok) == EventTable.AddEvent(old(Value()), fd, e, target, refuses)
    {
      if fd < 0 {
        return false;
      }
      ghost var was := Value();
      if |fdContexts| <= fd {
        ContextResize(3 * fd / 2);
      }
      assert Value() == was.(table := Fit(was.table, fd));
      ok := Register(fd, e, target, refuses);
    }

    method Register(fd: nat, e: Event, target: Target, refuses: bool) returns (ok: bool)
      requires Valid() && target != Vacant && fd < |fdContexts|
      modifies this`kernel, this`pendingEventCount, this`added, fdContexts[fd]
      ensures Valid() && (Value(), ok) == EventTable.Register(old(Value()), fd, e, target, refuses)
    {
      ghost var was := Table(fdContexts);
      var c := fdContexts[fd];
      if On(c.events, e) {
        return false;
      }
      ok := EpollCtl(if Any(c.events) then MOD else ADD, fd, With(c.events, e), refuses);
      if !ok {
        return;
      }
      pendingEventCount := pendingEventCount + 1;
      added := added + multiset{Registration(fd, e, target)};
      c.Attach(e, target);
      assert Table(fdContexts) == was[fd := c.Value()];
    }

    method DelEvent(fd: nat, e: Event, refuses: bool) returns (ok: bool)
      requires Valid()
      modifies this, fdContexts
      ensures Valid() && (Value(), ok) == EventTable.DelEvent(old(Value()), fd, e, refuses)
    {
      ghost var was := Value();
      if |fdContexts| <= fd || !On(fdContexts[fd].events, e) {
        return false;
      }
      var c := fdContexts[fd];
      var left := Minus(c.events, e);
      ok := EpollCtl(if Any(left) then MOD else DEL, fd, left, refuses);
      if !ok {
        return;
      }
      pendingEventCount := pendingEventCount - 1;
      deleted := deleted + multiset{Registration(fd, e, if e == READ then c.read else c.write)};
      c.Detach(e);
      assert Table(fdContexts) == was.table[fd := c.Value()];
    }

    /** Schedules the registered target; the count is lowered beside it. */
    method Trigger(fd: nat, e: Event)
      requires fd < |fdContexts| && On(fdContexts[fd].events, e)
      requires forall i, j :: 0 <= i < j < |fdContexts| ==> fdContexts[i] != fdContexts[j]
      modifies this`scheduled, this`pendingEventCount, this`fired, fdContexts[fd]
      ensures Value() == EventTable.Trigger(old(Value()), fd, e)
    {
      ghost var was := Table(fdContexts);
      var target := fdContexts[fd].TriggerEvent(e);
      scheduled := scheduled + [target];
      pendingEventCount := pendingEventCount - 1;
      fired := fired + [Registration(fd, e, target)];
      assert Table(fdContexts) == was[fd := fdContexts[fd].Value()];
    }

    method TriggerBoth(fd: nat, which: Mask)
      requires Valid() && fd < |fdContexts|
      requires (which.read ==> fdContexts[fd].events.read) && (which.write ==> fdContexts[fd].events.write)
      modifies this`scheduled, this`pendingEventCount, this`fired, fdContexts[fd]
      ensures Value() == EventTable.TriggerBoth(old(Value()), fd, which)
    {
      if which.read {
        Trigger(fd, READ);
      }
      if which.write {
        Trigger(fd, WRITE);
      }
    }

    method CancelEvent(fd: nat, e: Event, refuses: bool) returns (ok: bool)
      requires Valid()
      modifies this, fdContexts
      ensures Valid() && (Value(), ok) == EventTable.CancelEvent(old(Value()), fd, e, refuses)
    {
      if |fdContexts| <= fd || !On(fdContexts[fd].events, e) {
        return false;
      }
      var left := Minus(fdContexts[fd].events, e);
      ok := EpollCtl(if Any(left) then MOD else DEL, fd, left, refuses);
      if ok {
        Trigger(fd, e);
      }
    }

    method CancelAll(fd: nat, refuses: bool) returns (ok: bool)
      requires Valid()
      modifies this, fdContexts
      ensures Valid() && (Value(), ok) == EventTable.CancelAll(old(Value()), fd, refuses)
      ensures ok ==> !Any(fdContexts[fd].events)
    {
      if |fdContexts| <= fd || !Any(fdContexts[fd].events) {
        return false;
      }
      ok := EpollCtl(DEL, fd, Mask(false, false), refuses);
      if !ok {
        return;
      }
      TriggerBoth(fd, fdContexts[fd].events);
    }

    /** One turn of the readiness loop; at a failing assertion it stops where the process does. */
    method ProcessReady(fd: nat, r: Report, refuses: bool) returns (outcome: Outcome)
      requires Valid() && fd < |fdContexts|
      modifies this, fdContexts
      ensures Valid() && (Value(), outcome) == Ready(old(Value()), fd, r, refuses)
    {
      var c := fdContexts[fd];
      var input, output := r.input, r.output;
      if r.error || r.hangup {
        input := input || c.events.read;
        output := output || c.events.write;
      }
      if !((c.events.read && input) || (c.events.write && output)) {
        return Skipped;
      }
      var left := Mask(c.events.read && !input, c.events.write && !output);
      var ok := EpollCtl(if Any(left) then MOD else DEL, fd, left, refuses);
      if !ok {
        return CtlFailed;
      }
      outcome := FireReported(fd, Mask(input, output));
    }

    /** The triggers of the readiness loop, with the assertion at the start of each. */
    method FireReported(fd: nat, reported: Mask) returns (outcome: Outcome)
      requires Valid() && fd < |fdContexts|
      modifies this`scheduled, this`pendingEventCount, this`fired, fdContexts[fd]
      ensures Valid() && (Value(), outcome) == Fire(old(Value()), fd, reported)
    {
      if reported.read {
        if !fdContexts[fd].events.read {
          return AssertionFails;
        }
        Trigger(fd, READ);
      }
      if reported.write {
        if !fdContexts[fd].events.write {
          return AssertionFails;
        }
        Trigger(fd, WRITE);
      }
      outcome := Fired;
    }
  }
}

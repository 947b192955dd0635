/** Timers and their manager as objects: the set holds the timers themselves, ordered by fields that the
    operations change in place. */
module Timers {
  import opened Sequences
  import opened TimerQueue

  const FOREVER: nat := 0xFFFF_FFFF_FFFF_FFFF

  function Entries(ts: seq<Timer>): (q: seq<Entry>)
    reads ts
    ensures |q| == |ts| && forall i :: 0 <= i < |q| ==> q[i] == ts[i].Value()
  {
    seq(|ts|, i requires 0 <= i < |ts| reads ts => ts[i].Value())
  }

  function Callbacks(q: seq<Entry>): (cbs: seq<Callback>)
    ensures |cbs| == |q|
  {
    seq(|q|, i requires 0 <= i < |q| => q[i].cb)
  }

  /** Where the set puts an entry. */
  function Position(q: seq<Entry>, e: Entry): (p: nat)
    ensures p <= |q|
  {
    if q == [] || !Less(q[0], e) then 0 else 1 + Position(q[1..], e)
  }

  lemma {:induction false} InsertAtPosition(q: seq<Entry>, e: Entry)
    ensures var p := Position(q, e); Insert(q, e) == q[..p] + [e] + q[p..]
  {
    if q != [] && Less(q[0], e) {
      InsertAtPosition(q[1..], e);
    }
  }

  /** Where the set finds an entry: the first one that is neither before nor after it, or the end. */
  function Find(q: seq<Entry>, e: Entry): (p: nat)
    ensures p <= |q|
    ensures p < |q| ==> q[p].next == e.next && q[p].address == e.address
    ensures forall i :: 0 <= i < p ==> !(q[i].next == e.next && q[i].address == e.address)
  {
    if q == [] || (!Less(q[0], e) && !Less(e, q[0])) then 0 else 1 + Find(q[1..], e)
  }

  class Timer {
    const address: nat
    const recurring: bool
    const manager: TimerManager
    var ms: nat
    var next: int
    var cb: Callback

    function Value(): Entry
      reads this
    {
      Entry(next, address, ms, recurring, cb)
    }

    /** Nobody else in the set lives at this address. */
    ghost predicate OwnsAddress()
      reads manager
    {
      forall t :: t in manager.timers && t.address == address ==> t == this
    }

    constructor (now: int, address: nat, ms: nat, cb: Callback, recurring: bool, manager: TimerManager)
      ensures Value() == Entry(now + ms * TICKS, address, ms, recurring, cb) && this.manager == manager
    {
      this.address, this.recurring, this.manager := address, recurring, manager;
      this.ms, this.next, this.cb := ms, now + ms * TICKS, cb;
    }

    method Cancel() returns (ok: bool)
      requires manager.Valid() && OwnsAddress()
      modifies this`cb, manager`timers
      ensures manager.Valid()
      ensures ok <==> old(cb) != NoCallback
      ensures cb == NoCallback
      ensures manager.timers == if ok then Removed(old(manager.timers), this) else old(manager.timers)
    {
      if cb == NoCallback {
        return false;
      }
      cb := NoCallback;
      var found := manager.Take(this);
      ok := true;
    }

    method Refresh(now: int) returns (ok: bool)
      requires manager.Valid() && OwnsAddress()
      modifies this`next, manager`timers
      ensures manager.Valid()
      ensures ok <==> cb != NoCallback && this in old(manager.timers)
      ensures !ok ==> manager.timers == old(manager.timers) && next == old(next)
      ensures ok ==> next == now + ms * TICKS
      ensures ok ==> manager.Contents() == Insert(Entries(Removed(old(manager.timers), this)), Value())
      ensures ok ==> this in manager.timers
    {
      if cb == NoCallback {
        return false;
      }
      var found := manager.Take(this);
      if !found {
        return false;
      }
      next := now + ms * TICKS;
      manager.Put(this);
      ok := true;
    }

    /** `tickle`: a sleeping poller must be woken. */
    method Reset(newMs: nat, fromNow: bool, now: int) returns (ok: bool, tickle: bool)
      requires manager.Valid() && OwnsAddress()
      modifies this`next, this`ms, manager`timers, manager`tickled
      ensures manager.Valid()
      ensures ok <==> (newMs == old(ms) && !fromNow) || (cb != NoCallback && this in old(manager.timers))
      ensures (newMs == old(ms) && !fromNow) || !ok ==>
                manager.timers == old(manager.timers) && next == old(next) && ms == old(ms) && !tickle
      ensures ok && !(newMs == old(ms) && !fromNow) ==>
                && ms == newMs
                && next == (if fromNow then now else old(next) - old(ms) * TICKS) + newMs * TICKS
                && manager.Contents() == Insert(Entries(Removed(old(manager.timers), this)), Value())
                && this in manager.timers
                && (tickle <==> manager.timers[0] == this && !old(manager.tickled))
    {
      tickle := false;
      if newMs == ms && !fromNow {
        return true, false;
      }
      if cb == NoCallback {
        return false, false;
      }
      var found := manager.Take(this);
      if !found {
        return false, false;
      }
      tickle := Restart(newMs, if fromNow then now else next - ms * TICKS);
      ok := true;
    }

    /** The part of `Reset` after the first lock section: the timer is out of the set meanwhile. */
    method Restart(newMs: nat, start: int) returns (tickle: bool)
      requires manager.Valid() && this !in manager.timers && OwnsAddress()
      modifies this`next, this`ms, manager`timers, manager`tickled
      ensures manager.Valid() && this in manager.timers
      ensures ms == newMs && next == start + newMs * TICKS
      ensures manager.Contents() == Insert(Entries(old(manager.timers)), Value())
      ensures tickle <==> manager.timers[0] == this && !old(manager.tickled)
    {
      ms := newMs;
      next := start + ms * TICKS;
      tickle := manager.AddTimer(this);
    }
  }

  function Removed(ts: seq<Timer>, t: Timer): (rest: seq<Timer>)
    ensures forall u :: u in rest ==> u in ts
  {
    if ts == [] then [] else if ts[0] == t then ts[1..] else [ts[0]] + Removed(ts[1..], t)
  }

  lemma {:induction false} RemovedAt(ts: seq<Timer>, i: nat)
    requires Distinct(ts) && i < |ts|
    ensures Removed(ts, ts[i]) == ts[..i] + ts[i + 1..]
    ensures ts[i] !in Removed(ts, ts[i])
  {
    if i > 0 {
      assert ts[1..][i - 1] == ts[i];
      RemovedAt(ts[1..], i - 1);
    }
  }

  lemma {:induction false} RemovedAbsent(ts: seq<Timer>, t: Timer)
    requires t !in ts
    ensures Removed(ts, t) == ts
  {
    if ts != [] {
      RemovedAbsent(ts[1..], t);
    }
  }

  lemma OneTurn(q: seq<Entry>, now: int, rollover: bool, n: nat)
    ensures var before := After(q, now, rollover, n);
            && After(q, now, rollover, n + 1) == (if Guard(before, now, rollover) then Turn(before, now) else before)
            && Callbacks(FiredIn(q, now, rollover, n + 1))
            == Callbacks(FiredIn(q, now, rollover, n)) + (if Guard(before, now, rollover) then [before[0].cb] else [])
  {
  }

  /** The key of a timer that owns its address leads to the timer itself. */
  lemma FindFinds(ts: seq<Timer>, t: Timer)
    requires forall u :: u in ts && u.address == t.address ==> u == t
    ensures var at := Find(Entries(ts), t.Value());
            && (at < |ts| ==> ts[at] == t)
            && (at == |ts| ==> t !in ts)
  {
    var at := Find(Entries(ts), t.Value());
    forall i | 0 <= i < |ts| && ts[i] == t ensures Entries(ts)[i] == t.Value() {
    }
    if at < |ts| {
      assert ts[at] in ts && Entries(ts)[at] == ts[at].Value();
    }
  }

  lemma SpliceTimers(ts: seq<Timer>, at: nat)
    requires at < |ts| && Distinct(ts)
    ensures var rest := ts[..at] + ts[at + 1..];
            && Distinct(rest) && (forall u :: u in rest ==> u in ts)
            && Entries(rest) == Entries(ts)[..at] + Entries(ts)[at + 1..]
  {
  }

  lemma PutTimers(ts: seq<Timer>, t: Timer, at: nat)
    requires at <= |ts| && Distinct(ts) && t !in ts
    ensures var more := ts[..at] + [t] + ts[at..];
            && Distinct(more) && (forall u :: u in more <==> u in ts || u == t)
            && Entries(more) == Entries(ts)[..at] + [t.Value()] + Entries(ts)[at..]
  {
    assert ts == ts[..at] + ts[at..];
  }

  lemma SpliceOrdered(q: seq<Entry>, at: nat)
    requires at < |q| && Sorted(q) && DistinctAddresses(q)
    ensures Sorted(q[..at] + q[at + 1..]) && DistinctAddresses(q[..at] + q[at + 1..])
  {
  }

  lemma TailOrdered(q: seq<Entry>)
    requires q != [] && Sorted(q) && DistinctAddresses(q)
    ensures Sorted(q[1..]) && DistinctAddresses(q[1..])
  {
  }

  class TimerManager {
    var timers: seq<Timer>
    var tickled: bool
    var previousTime: int

    function Contents(): seq<Entry>
      reads this, timers
    {
      Entries(timers)
    }

    ghost predicate Valid()
      reads this, timers
    {
      && Distinct(timers) && Sorted(Contents()) && DistinctAddresses(Contents())
      && forall t :: t in timers ==> t.manager == this
    }

    constructor (now: int)
      ensures Valid() && timers == [] && !tickled && previousTime == now
    {
      timers, tickled, previousTime := [], false, now;
    }

    /** Erases the timer that the set finds under the key of `t`: `t` itself, if it is in the set. */
    method Take(t: Timer) returns (found: bool)
      requires Valid() && t.manager == this && t.OwnsAddress()
      modifies this`timers
      ensures Valid()
      ensures found <==> t in old(timers)
      ensures timers == Removed(old(timers), t) && t !in timers
      ensures !found ==> timers == old(timers)
    {
      ghost var q := Contents();
      var at := Find(Contents(), t.Value());
      FindFinds(timers, t);
      found := at < |timers|;
      if found {
        RemovedAt(timers, at);
        SpliceTimers(timers, at);
        SpliceOrdered(q, at);
        timers := timers[..at] + timers[at + 1..];
      } else {
        RemovedAbsent(timers, t);
      }
    }

    method Put(t: Timer)
      requires Valid() && t.manager == this && t !in timers && forall u :: u in timers ==> u.address != t.address
      modifies this`timers
      ensures Valid()
      ensures Contents() == Insert(old(Contents()), t.Value())
      ensures forall u :: u in timers <==> u in old(timers) || u == t
    {
      var q, e := Contents(), t.Value();
      var at := Position(q, e);
      InsertAtPosition(q, e);
      InsertSorted(q, e);
      InsertDistinct(q, e);
      PutTimers(timers, t, at);
      timers := timers[..at] + [t] + timers[at..];
    }

    /** Adds a timer; the result tells whether the front hook must be called. */
    method AddTimer(t: Timer) returns (atFront: bool)
      requires Valid() && t.manager == this && t !in timers && forall u :: u in timers ==> u.address != t.address
      modifies this`timers, this`tickled
      ensures Valid()
      ensures Contents() == Insert(old(Contents()), t.Value()) && t in timers
      ensures atFront <==> timers[0] == t && !old(tickled)
      ensures tickled <==> old(tickled) || atFront
    {
      Put(t);
      atFront := timers[0] == t && !tickled;
      if atFront {
        tickled := true;
      }
    }

    /** Milliseconds until the earliest deadline, rounded down. */
    method GetNextTimer(now: int) returns (timeout: nat)
      requires Valid()
      modifies this`tickled
      ensures !tickled && Valid()
      ensures timers == [] ==> timeout == FOREVER
      ensures timers != [] && now >= Contents()[0].next ==> timeout == 0
      ensures timers != [] && now < Contents()[0].next ==>
        now + timeout * TICKS <= Contents()[0].next < now + (timeout + 1) * TICKS
    {
      tickled := false;
      if timers == [] {
        return FOREVER;
      }
      var time := timers[0].next;
      if now >= time {
        return 0;
      }
      timeout := (time - now) / TICKS;
    }

    /** Was the clock set back by more than an hour since the last call? */
    method DetectClockRollover(clock: int) returns (rollover: bool)
      modifies this`previousTime
      ensures rollover <==> clock < old(previousTime) - ONE_HOUR
      ensures previousTime == clock
    {
      rollover := clock < previousTime - ONE_HOUR;
      previousTime := clock;
    }

    method PopFront() returns (front: Timer)
      requires Valid() && timers != []
      modifies this`timers
      ensures Valid() && front == old(timers)[0] && timers == old(timers)[1..] && front !in timers
      ensures Contents() == old(Contents())[1..] && front.manager == this
      ensures forall u :: u in timers ==> u.address != front.address
    {
      ghost var q := Contents();
      front := timers[0];
      timers := timers[1..];
      assert Contents() == q[1..];
      TailOrdered(q);
      forall u | u in timers ensures u.address != front.address {
        var i :| 0 <= i < |timers| && timers[i] == u;
        assert q[i + 1].address == u.address;
      }
    }

    /** One turn of the expiry loop. */
    method ExpireFront(now: int) returns (cb: Callback)
      requires Valid() && timers != []
      modifies this`timers, timers[0]
      ensures Valid()
      ensures cb == old(Contents())[0].cb && Contents() == Turn(old(Contents()), now)
      ensures forall t :: t in timers ==> t in old(timers)
      ensures forall t :: t in old(timers) && t !in timers ==> t == old(timers)[0] && t.cb == NoCallback
    {
      ghost var q := Contents();
      var temp := PopFront();
      cb := temp.cb;
      if temp.recurring {
        temp.next := now + temp.ms * TICKS;
        assert temp.Value() == Rearm(q[0], now);
        assert Contents() == q[1..];
        Put(temp);
      } else {
        temp.cb := NoCallback;
        assert Contents() == q[1..];
      }
    }

    method FireFront(now: int, rollover: bool, ghost q0: seq<Entry>, ghost fired: seq<Entry>)
        returns (cb: Callback, ghost fired': seq<Entry>)
      requires Valid() && timers != [] && Guard(Contents(), now, rollover)
      requires Progress(q0, fired, Contents(), now, rollover)
      modifies this`timers, timers[0]
      ensures Valid() && Progress(q0, fired', Contents(), now, rollover)
      ensures Callbacks(fired') == Callbacks(fired) + [cb]
      ensures Due(Contents(), now, rollover) < old(Due(Contents(), now, rollover))
      ensures forall t :: t in timers ==> t in old(timers)
      ensures forall t :: t in old(timers) && t !in timers ==> t == old(timers)[0] && t.cb == NoCallback
    {
      ProgressTurn(q0, fired, Contents(), now, rollover);
      fired' := fired + [Contents()[0]];
      cb := ExpireFront(now);
    }

    /** Collects the callbacks of the timers that fire and re-arms the recurring ones.  `now` and `clock` are
        the two readings of the clock that the call makes. */
    method ListExpiredCb(now: int, clock: int) returns (cbs: seq<Callback>)
      requires Valid()
      requires Settles(Contents(), now, clock < previousTime - ONE_HOUR)  // otherwise the loop does not end
      modifies this`timers, this`previousTime, timers
      ensures Valid() && previousTime == clock
      ensures var drained := Drain(old(Contents()), now, clock < old(previousTime) - ONE_HOUR);
              cbs == Callbacks(drained.0) && Contents() == drained.1
      ensures forall t :: t in old(timers) && t !in timers ==> t.cb == NoCallback
    {
      var rollover := DetectClockRollover(clock);
      assert Contents() == old(Contents());
      cbs := DrainTimers(now, rollover);
    }

    method DrainTimers(now: int, rollover: bool) returns (cbs: seq<Callback>)
      requires Valid() && Settles(Contents(), now, rollover)
      modifies this`timers, timers
      ensures Valid()
      ensures var drained := Drain(old(Contents()), now, rollover);
              cbs == Callbacks(drained.0) && Contents() == drained.1
      ensures forall t :: t in old(timers) && t !in timers ==> t.cb == NoCallback
    {
      ghost var q0 := Contents();
      ghost var fired: seq<Entry> := [];
      ProgressStart(q0, now, rollover);
      cbs := [];
      while timers != [] && (rollover || timers[0].next <= now)
        invariant Valid()
        invariant forall t :: t in timers ==> t in old(timers)
        invariant cbs == Callbacks(fired)
        invariant Progress(q0, fired, Contents(), now, rollover)
        invariant forall t :: t in old(timers) && t !in timers ==> t.cb == NoCallback
        decreases Due(Contents(), now, rollover)
      {
        var cb;
        cb, fired := FireFront(now, rollover, q0, fired);
        cbs := cbs + [cb];
      }
      ProgressEnd(q0, fired, Contents(), now, rollover);
    }

    /** The first turns of the same loop, for every set, also one for which it does not end. */
    method ExpireTurns(now: int, rollover: bool, turns: nat) returns (cbs: seq<Callback>)
      requires Valid()
      modifies this`timers, timers
      ensures Valid() && Contents() == After(old(Contents()), now, rollover, turns)
      ensures cbs == Callbacks(FiredIn(old(Contents()), now, rollover, turns))
    {
      ghost var q0 := Contents();
      cbs := [];
      for n := 0 to turns
        invariant Valid() && forall t :: t in timers ==> t in old(timers)
        invariant Contents() == After(q0, now, rollover, n)
        invariant cbs == Callbacks(FiredIn(q0, now, rollover, n))
      {
        assert timers != [] ==> timers[0] in old(timers);
        OneTurn(q0, now, rollover, n);
        var more := ExpireOnce(now, rollover);
        cbs := cbs + more;
      }
    }

    method ExpireOnce(now: int, rollover: bool) returns (cbs: seq<Callback>)
      requires Valid()
      modifies this`timers, if timers == [] then {} else {timers[0]}
      ensures Valid() && forall t :: t in timers ==> t in old(timers)
      ensures Contents()
           == if Guard(old(Contents()), now, rollover) then Turn(old(Contents()), now) else old(Contents())
      ensures cbs == if Guard(old(Contents()), now, rollover) then [old(Contents())[0].cb] else []
    {
      cbs := [];
      if timers != [] && (rollover || timers[0].next <= now) {
        var cb := ExpireFront(now);
        cbs := [cb];
      }
    }

    method HasTimer() returns (has: bool)
      ensures has <==> Contents() != []
    {
      has := timers != [];
    }
  }
}

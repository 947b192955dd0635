/** The ordered timer set as values: its order, insertion, and the expiry loop of `listExpiredCb`. */
module TimerQueue {

  // system_clock ticks in one millisecond
  const TICKS: int := 1_000_000
  const ONE_HOUR: int := 60 * 60 * 1000 * TICKS

  datatype Callback = NoCallback | Callback(id: nat)

  /** `next`: absolute deadline in ticks; `address`: where the timer object lives; `ms`: its period. */
  datatype Entry = Entry(next: int, address: nat, ms: nat, recurring: bool, cb: Callback)

  /** Earlier deadline first, ties broken by address. */
  predicate Less(l: Entry, r: Entry) {
    if l.next < r.next then true else if r.next < l.next then false else l.address < r.address
  }

  ghost predicate Sorted(q: seq<Entry>) {
    forall i, j :: 0 <= i < j < |q| ==> Less(q[i], q[j])
  }

  ghost predicate DistinctAddresses(q: seq<Entry>) {
    forall i, j :: 0 <= i < j < |q| ==> q[i].address != q[j].address
  }

  function Insert(q: seq<Entry>, e: Entry): seq<Entry> {
    if q == [] || !Less(q[0], e) then [e] + q else [q[0]] + Insert(q[1..], e)
  }

  lemma {:induction false} InsertMembers(q: seq<Entry>, e: Entry)
    ensures multiset(Insert(q, e)) == multiset(q) + multiset{e}
    ensures forall x :: x in Insert(q, e) <==> x in q || x == e
  {
    if q != [] && Less(q[0], e) {
      InsertMembers(q[1..], e);
      assert q == [q[0]] + q[1..];
    }
  }

  lemma {:induction false} InsertSorted(q: seq<Entry>, e: Entry)
    requires Sorted(q) && forall x :: x in q ==> x.address != e.address
    ensures Sorted(Insert(q, e))
  {
    if q != [] && Less(q[0], e) {
      InsertSorted(q[1..], e);
      InsertMembers(q[1..], e);
      forall x | x in Insert(q[1..], e) ensures Less(q[0], x) {}
    }
  }

  lemma {:induction false} InsertDistinct(q: seq<Entry>, e: Entry)
    requires DistinctAddresses(q) && forall x :: x in q ==> x.address != e.address
    ensures DistinctAddresses(Insert(q, e))
  {
    if q != [] && Less(q[0], e) {
      InsertDistinct(q[1..], e);
      InsertMembers(q[1..], e);
      forall x | x in Insert(q[1..], e) ensures x.address != q[0].address {}
    }
  }

  /** An entry later than the first `m` entries is inserted behind them. */
  lemma {:induction false} InsertBehind(q: seq<Entry>, e: Entry, m: nat)
    requires m <= |q| && forall i :: 0 <= i < m ==> Less(q[i], e)
    ensures Insert(q, e) == q[..m] + Insert(q[m..], e)
  {
    if m > 0 {
      forall i | 0 <= i < m - 1 ensures Less(q[1..][i], e) {
        assert q[1..][i] == q[i + 1];
      }
      InsertBehind(q[1..], e, m - 1);
      assert q[..m] == [q[0]] + q[1..][..m - 1];
      assert q[1..][m - 1..] == q[m..];
      assert Less(q[0], e);
    }
  }

  // ----- the expiry loop

  predicate Fires(e: Entry, now: int, rollover: bool) { rollover || e.next <= now }

  /** The loop goes on while this holds. */
  predicate Guard(q: seq<Entry>, now: int, rollover: bool) { q != [] && Fires(q[0], now, rollover) }

  function Rearm(e: Entry, now: int): Entry { e.(next := now + e.ms * TICKS) }

  /** One turn of the loop: the front timer goes, and comes back later if it is recurring. */
  function Turn(q: seq<Entry>, now: int): seq<Entry>
    requires q != []
  {
    if q[0].recurring then Insert(q[1..], Rearm(q[0], now)) else q[1..]
  }

  function Due(q: seq<Entry>, now: int, rollover: bool): nat {
    if q == [] then 0 else Due(q[1..], now, rollover) + if Fires(q[0], now, rollover) then 1 else 0
  }

  /** No recurring timer that fires would fire again at once. */
  ghost predicate Settles(q: seq<Entry>, now: int, rollover: bool) {
    forall e :: e in q && e.recurring && Fires(e, now, rollover) ==> !rollover && e.ms > 0
  }

  lemma {:induction false} InsertDue(q: seq<Entry>, e: Entry, now: int, rollover: bool)
    ensures Due(Insert(q, e), now, rollover) == Due(q, now, rollover) + if Fires(e, now, rollover) then 1 else 0
  {
    if q != [] && Less(q[0], e) {
      InsertDue(q[1..], e, now, rollover);
    }
  }

  /** The measure of the loop: one timer less is due after each turn, despite re-insertion. */
  lemma TurnDecreases(q: seq<Entry>, now: int, rollover: bool)
    requires Guard(q, now, rollover) && Settles(q, now, rollover)
    ensures Due(Turn(q, now), now, rollover) < Due(q, now, rollover)
    ensures Settles(Turn(q, now), now, rollover)
  {
    assert q[0] in q;
    InsertDue(q[1..], Rearm(q[0], now), now, rollover);
    InsertMembers(q[1..], Rearm(q[0], now));
    forall e | e in Turn(q, now) && e.recurring && Fires(e, now, rollover) ensures !rollover && e.ms > 0 {
      if e in q[1..] { assert e in q; }
    }
  }

  /** What the loop returns (in order) and what it leaves. */
  ghost function Drain(q: seq<Entry>, now: int, rollover: bool): (seq<Entry>, seq<Entry>)
    requires Settles(q, now, rollover)
    decreases Due(q, now, rollover)
  {
    if !Guard(q, now, rollover) then ([], q)
    else
      TurnDecreases(q, now, rollover);
      var (fired, rest) := Drain(Turn(q, now), now, rollover);
      ([q[0]] + fired, rest)
  }

  /** `fired` came out of `q0` so far, and `q` is what the loop has in front of it. */
  ghost predicate Progress(q0: seq<Entry>, fired: seq<Entry>, q: seq<Entry>, now: int, rollover: bool) {
    && Settles(q0, now, rollover) && Settles(q, now, rollover)
    && Drain(q0, now, rollover).0 == fired + Drain(q, now, rollover).0
    && Drain(q0, now, rollover).1 == Drain(q, now, rollover).1
  }

  lemma ProgressStart(q: seq<Entry>, now: int, rollover: bool)
    requires Settles(q, now, rollover)
    ensures Progress(q, [], q, now, rollover)
  {
  }

  lemma ProgressTurn(q0: seq<Entry>, fired: seq<Entry>, q: seq<Entry>, now: int, rollover: bool)
    requires Progress(q0, fired, q, now, rollover) && Guard(q, now, rollover)
    ensures Progress(q0, fired + [q[0]], Turn(q, now), now, rollover)
    ensures Due(Turn(q, now), now, rollover) < Due(q, now, rollover)
  {
    TurnDecreases(q, now, rollover);
    assert fired + [q[0]] + Drain(Turn(q, now), now, rollover).0 == fired + Drain(q, now, rollover).0;
  }

  lemma ProgressEnd(q0: seq<Entry>, fired: seq<Entry>, q: seq<Entry>, now: int, rollover: bool)
    requires Progress(q0, fired, q, now, rollover) && !Guard(q, now, rollover)
    ensures Drain(q0, now, rollover).0 == fired && Drain(q0, now, rollover).1 == q
  {
    assert fired + [] == fired;
  }

  function Rearmed(fired: seq<Entry>, now: int): seq<Entry> {
    if fired == [] then []
    else (if fired[0].recurring then [Rearm(fired[0], now)] else []) + Rearmed(fired[1..], now)
  }

  lemma {:induction false} DueIsPrefix(q: seq<Entry>, now: int)
    requires Sorted(q)
    ensures Due(q, now, false) <= |q|
    ensures forall i :: 0 <= i < |q| ==> (q[i].next <= now <==> i < Due(q, now, false))
  {
    if q != [] {
      DueIsPrefix(q[1..], now);
      forall i | 0 <= i < |q| ensures q[i].next <= now <==> i < Due(q, now, false) {
        if i > 0 { assert Less(q[0], q[i]) && q[i] == q[1..][i - 1]; }
        if |q| > 1 { assert Less(q[0], q[1]) && q[1] == q[1..][0]; }
      }
    }
  }

  lemma TurnOrdered(q: seq<Entry>, now: int)
    requires Sorted(q) && DistinctAddresses(q) && q != []
    ensures Sorted(Turn(q, now)) && DistinctAddresses(Turn(q, now))
    ensures forall x :: x in Turn(q, now) <==> x in q[1..] || (q[0].recurring && x == Rearm(q[0], now))
  {
    forall x | x in q[1..] ensures x.address != q[0].address {}
    InsertSorted(q[1..], Rearm(q[0], now));
    InsertDistinct(q[1..], Rearm(q[0], now));
    InsertMembers(q[1..], Rearm(q[0], now));
  }

  /** One turn of the loop on a sorted queue, seen from its due part. */
  lemma TurnShape(q: seq<Entry>, now: int)
    requires Sorted(q) && Guard(q, now, false) && Settles(q, now, false)
    ensures var k, q' := Due(q, now, false), Turn(q, now);
            && Due(q', now, false) == k - 1 && 1 <= k <= |q| && k - 1 <= |q'|
            && q'[..k - 1] == q[1..k]
            && multiset(q'[k - 1..]) == multiset(q[k..]) + multiset(if q[0].recurring then [Rearm(q[0], now)] else [])
  {
    DueIsPrefix(q, now);
    var k := Due(q, now, false);
    var tail, e := q[1..], Rearm(q[0], now);
    assert q[0] in q;
    assert tail[..k - 1] == q[1..k] && tail[k - 1..] == q[k..];
    if q[0].recurring {
      InsertDue(tail, e, now, false);
      forall i | 0 <= i < k - 1 ensures tail[i] == q[i + 1] && Less(tail[i], e) {}
      InsertBehind(tail, e, k - 1);
      InsertMembers(tail[k - 1..], e);
    }
  }

  /** Expiry is exact: the timers due at `now` are returned once each, in the order of the set; one-shots are
      gone, recurring ones are back with a new deadline, the others stay; all deadlines left are later. */
  lemma {:induction false} ExpiryIsExact(q: seq<Entry>, now: int)
    requires Sorted(q) && DistinctAddresses(q) && Settles(q, now, false)
    ensures var (fired, rest) := Drain(q, now, false); var k := Due(q, now, false);
            && k <= |q| && fired == q[..k]
            && (forall i :: 0 <= i < |q| ==> (q[i].next <= now <==> i < k))
            && Sorted(rest) && DistinctAddresses(rest)
            && multiset(rest) == multiset(q[k..]) + multiset(Rearmed(fired, now))
            && (forall e :: e in rest ==> e.next > now)
    decreases Due(q, now, false)
  {
    DueIsPrefix(q, now);
    var (fired, rest) := Drain(q, now, false);
    if Guard(q, now, false) {
      TurnDecreases(q, now, false);
      TurnOrdered(q, now);
      TurnShape(q, now);
      ExpiryIsExact(Turn(q, now), now);
      var k := Due(q, now, false);
      assert fired[1..] == q[1..k];
      assert fired == q[..k];
    } else {
      assert q[0..] == q;
      forall e | e in q ensures e.next > now {}
    }
  }

  // ----- when the loop ends at all

  /** What the first `n` turns return, in order. */
  function FiredIn(q: seq<Entry>, now: int, rollover: bool, n: nat): seq<Entry> {
    if n == 0 then []
    else
      var before := After(q, now, rollover, n - 1);
      FiredIn(q, now, rollover, n - 1) + (if Guard(before, now, rollover) then [before[0]] else [])
  }

  /** The queue after at most `n` turns. */
  function After(q: seq<Entry>, now: int, rollover: bool, n: nat): seq<Entry> {
    if n == 0 then q
    else
      var before := After(q, now, rollover, n - 1);
      if Guard(before, now, rollover) then Turn(before, now) else before
  }

  ghost predicate Ends(q: seq<Entry>, now: int, rollover: bool) {
    exists n: nat :: !Guard(After(q, now, rollover, n), now, rollover)
  }

  lemma {:induction false} AfterShift(q: seq<Entry>, now: int, rollover: bool, n: nat)
    requires Guard(q, now, rollover)
    ensures After(q, now, rollover, n + 1) == After(Turn(q, now), now, rollover, n)
  {
    if n > 0 {
      AfterShift(q, now, rollover, n - 1);
    }
  }

  lemma {:induction false} SettlesEnds(q: seq<Entry>, now: int, rollover: bool) returns (n: nat)
    requires Settles(q, now, rollover)
    ensures !Guard(After(q, now, rollover, n), now, rollover)
    ensures Drain(q, now, rollover).1 == After(q, now, rollover, n)
    decreases Due(q, now, rollover)
  {
    if !Guard(q, now, rollover) {
      n := 0;
    } else {
      TurnDecreases(q, now, rollover);
      n := SettlesEnds(Turn(q, now), now, rollover);
      AfterShift(q, now, rollover, n);
      n := n + 1;
    }
  }

  /** A recurring timer that fires again as soon as it is re-armed. */
  predicate Spins(e: Entry, now: int, rollover: bool) {
    e.recurring && Fires(e, now, rollover) && (rollover || e.ms == 0)
  }

  lemma {:induction false} SpinningStays(q: seq<Entry>, now: int, rollover: bool, n: nat)
    requires Sorted(q) && DistinctAddresses(q) && exists e :: e in q && Spins(e, now, rollover)
    ensures Guard(After(q, now, rollover, n), now, rollover)
  {
    SpinningInvariant(q, now, rollover, n);
    var r := After(q, now, rollover, n);
    var i :| 0 <= i < |r| && Spins(r[i], now, rollover);
    assert i > 0 ==> Less(r[0], r[i]);
  }

  lemma {:induction false} SpinningInvariant(q: seq<Entry>, now: int, rollover: bool, n: nat)
    requires Sorted(q) && DistinctAddresses(q) && exists e :: e in q && Spins(e, now, rollover)
    ensures var r := After(q, now, rollover, n);
            Sorted(r) && DistinctAddresses(r) && exists i :: 0 <= i < |r| && Spins(r[i], now, rollover)
  {
    if n > 0 {
      SpinningInvariant(q, now, rollover, n - 1);
      var r := After(q, now, rollover, n - 1);
      if Guard(r, now, rollover) {
        TurnOrdered(r, now);
        var i :| 0 <= i < |r| && Spins(r[i], now, rollover);
        var s := if i == 0 then Rearm(r[0], now) else r[i];
        assert i > 0 ==> s == r[1..][i - 1];
        assert Spins(s, now, rollover) && s in Turn(r, now);
      }
    }
  }

  /** The loop ends exactly when no recurring timer that fires has period 0 and, if the clock was set back by
      more than an hour, no timer is recurring at all. */
  lemma EndsIffSettles(q: seq<Entry>, now: int, rollover: bool)
    requires Sorted(q) && DistinctAddresses(q)
    ensures Ends(q, now, rollover) <==> Settles(q, now, rollover)
  {
    if Settles(q, now, rollover) {
      var n := SettlesEnds(q, now, rollover);
    } else {
      var e :| e in q && e.recurring && Fires(e, now, rollover) && !(!rollover && e.ms > 0);
      assert Spins(e, now, rollover);
      forall n: nat ensures Guard(After(q, now, rollover, n), now, rollover) {
        SpinningStays(q, now, rollover, n);
      }
    }
  }

  /** A recurring timer of period 0 that is due keeps the loop going for good. */
  lemma ZeroPeriodSpins(now: int, next: int, address: nat, cb: Callback)
    requires next <= now
    ensures !Ends([Entry(next, address, 0, true, cb)], now, false)
  {
    var q := [Entry(next, address, 0, true, cb)];
    assert q[0] in q;
    EndsIffSettles(q, now, false);
  }

  /** After the clock was set back, so does a recurring timer of any period, due or not. */
  lemma RolloverSpins(now: int, next: int, address: nat, ms: nat, cb: Callback)
    ensures !Ends([Entry(next, address, ms, true, cb)], now, true)
  {
    var q := [Entry(next, address, ms, true, cb)];
    assert q[0] in q;
    EndsIffSettles(q, now, true);
  }

  /** Where the loop ends after the clock was set back, every timer is a one-shot, and all of them fire, in order. */
  lemma {:induction false} RolloverFiresAll(q: seq<Entry>, now: int)
    requires Settles(q, now, true)
    ensures Drain(q, now, true) == (q, [])
    decreases |q|
  {
    if q != [] {
      assert q[0] in q && !q[0].recurring;
      TurnDecreases(q, now, true);
      RolloverFiresAll(q[1..], now);
      assert q == [q[0]] + q[1..];
    }
  }

  // ----- what expiry does, timer by timer

  /** The set is ordered by deadline, and by address among equal deadlines. */
  lemma OrderOfTheSet(q: seq<Entry>)
    ensures Sorted(q) <==>
      forall i, j :: 0 <= i < j < |q| ==>
        q[i].next < q[j].next || (q[i].next == q[j].next && q[i].address < q[j].address)
  {
    forall i, j | 0 <= i < j < |q|
      ensures Less(q[i], q[j]) <==>
        (q[i].next < q[j].next || (q[i].next == q[j].next && q[i].address < q[j].address))
    {
    }
  }

  lemma {:induction false} RearmedHas(fired: seq<Entry>, now: int, x: Entry)
    ensures x in Rearmed(fired, now) <==>
      exists e :: e in fired && e.recurring && x == e.(next := now + e.ms * 1_000_000)
  {
    if fired != [] {
      RearmedHas(fired[1..], now, x);
      assert forall e :: e in fired <==> e == fired[0] || e in fired[1..];
    }
  }

  /** What is left after the loop: the timers that were not due, and the recurring ones that were, with the same
      address, period and callback, and the deadline one period from now. */
  lemma LeftAfterExpiry(q: seq<Entry>, now: int, x: Entry)
    requires Sorted(q) && DistinctAddresses(q) && Settles(q, now, false)
    ensures x in Drain(q, now, false).1 <==>
      || (x in q && x.next > now)
      || exists e :: e in q && e.next <= now && e.recurring && x == e.(next := now + e.ms * 1_000_000)
    ensures x in Drain(q, now, false).0 <==> x in q && x.next <= now
  {
    ExpiryIsExact(q, now);
    var (fired, rest) := Drain(q, now, false);
    var k := Due(q, now, false);
    RearmedHas(fired, now, x);
    assert x in rest <==> x in multiset(rest);
    assert x in rest <==> x in q[k..] || x in Rearmed(fired, now);
    DueSplit(q, now, k);
  }

  lemma DueSplit(q: seq<Entry>, now: int, k: nat)
    requires k <= |q| && forall i :: 0 <= i < |q| ==> (q[i].next <= now <==> i < k)
    ensures forall x :: x in q[..k] <==> x in q && x.next <= now
    ensures forall x :: x in q[k..] <==> x in q && x.next > now
  {
    forall x ensures x in q[..k] <==> x in q && x.next <= now {
      if x in q && x.next <= now {
        var i :| 0 <= i < |q| && q[i] == x;
        assert q[..k][i] == x;
      }
    }
    forall x ensures x in q[k..] <==> x in q && x.next > now {
      if x in q && x.next > now {
        var i :| 0 <= i < |q| && q[i] == x;
        assert q[k..][i - k] == x;
      }
    }
  }

  // ----- a recurring timer over many calls

  /** Calls of the expiry loop at the given times. Between them other timers may come, go and change; the one at
      `address` is left alone. */
  ghost predicate IsExpiryRun(queues: seq<seq<Entry>>, nows: seq<int>, address: nat) {
    && |queues| == |nows| + 1
    && (forall i :: 0 <= i < |nows| ==> CanExpire(queues[i], nows[i]))
    && (forall i :: 0 < i < |nows| ==> nows[i - 1] <= nows[i])
    && (forall i :: 0 <= i < |nows| ==> LeftAlone(Remaining(queues[i], nows[i]), queues[i + 1], address))
  }

  ghost predicate CanExpire(q: seq<Entry>, now: int) {
    Sorted(q) && DistinctAddresses(q) && Settles(q, now, false)
  }

  ghost function Remaining(q: seq<Entry>, now: int): seq<Entry> {
    if CanExpire(q, now) then Drain(q, now, false).1 else q
  }

  ghost predicate LeftAlone(q: seq<Entry>, q': seq<Entry>, address: nat) {
    forall x: Entry :: x.address == address ==> (x in q <==> x in q')
  }

  /** The timer fires in call `i`. */
  ghost predicate FiresAt(queues: seq<seq<Entry>>, nows: seq<int>, i: nat, e: Entry)
    requires |queues| == |nows| + 1 && i < |nows|
  {
    CanExpire(queues[i], nows[i]) && e in Drain(queues[i], nows[i], false).0
  }

  /** From one firing to the next the timer sits in the set with the deadline that the last firing gave it. */
  lemma {:induction false} WaitsForItsPeriod(
      queues: seq<seq<Entry>>, nows: seq<int>, i: nat, j: nat, e: Entry)
    requires IsExpiryRun(queues, nows, e.address) && i < j < |queues| && e.recurring && FiresAt(queues, nows, i, e)
    requires i + 1 < j ==> nows[j - 1] < nows[i] + e.ms * 1_000_000
    ensures e.(next := nows[i] + e.ms * 1_000_000) in queues[j]
  {
    var again := e.(next := nows[i] + e.ms * 1_000_000);
    assert CanExpire(queues[j - 1], nows[j - 1]);
    assert LeftAlone(Remaining(queues[j - 1], nows[j - 1]), queues[j], e.address);
    LeftAfterExpiry(queues[i], nows[i], e);
    if i + 1 == j {
      LeftAfterExpiry(queues[i], nows[i], again);
    } else {
      assert nows[j - 2] <= nows[j - 1];
      WaitsForItsPeriod(queues, nows, i, j - 1, e);
      LeftAfterExpiry(queues[j - 1], nows[j - 1], again);
    }
  }

  /** Firings of an untouched recurring timer are at least its period apart. */
  lemma FiringsAreAPeriodApart(queues: seq<seq<Entry>>, nows: seq<int>, i: nat, j: nat, e: Entry, e': Entry)
    requires IsExpiryRun(queues, nows, e.address) && i < j < |nows| && e'.address == e.address && e.recurring
    requires FiresAt(queues, nows, i, e) && FiresAt(queues, nows, j, e')
    ensures nows[j] >= nows[i] + e.ms * 1_000_000
  {
    if nows[j] < nows[i] + e.ms * 1_000_000 {
      assert i + 1 < j ==> nows[j - 1] <= nows[j];
      WaitsForItsPeriod(queues, nows, i, j, e);
      LeftAfterExpiry(queues[j], nows[j], e');
      var again := e.(next := nows[i] + e.ms * 1_000_000);
      SameAddressSameEntry(queues[j], again, e');
      assert false;
    }
  }

  lemma SameAddressSameEntry(q: seq<Entry>, x: Entry, y: Entry)
    requires DistinctAddresses(q) && x in q && y in q && x.address == y.address
    ensures x == y
  {
    var i :| 0 <= i < |q| && q[i] == x;
    var j :| 0 <= j < |q| && q[j] == y;
    assert i == j;
  }

  /** It does fire again, in the first call at or after the deadline. */
  lemma FiresAgain(queues: seq<seq<Entry>>, nows: seq<int>, i: nat, j: nat, e: Entry)
    requires IsExpiryRun(queues, nows, e.address) && i < j < |nows| && e.recurring && FiresAt(queues, nows, i, e)
    requires i + 1 < j ==> nows[j - 1] < nows[i] + e.ms * 1_000_000
    requires nows[j] >= nows[i] + e.ms * 1_000_000
    ensures FiresAt(queues, nows, j, e.(next := nows[i] + e.ms * 1_000_000))
  {
    WaitsForItsPeriod(queues, nows, i, j, e);
    LeftAfterExpiry(queues[j], nows[j], e.(next := nows[i] + e.ms * 1_000_000));
  }
}

/** One idle thread sleeping in the poller, and everybody else changing timers meanwhile: the wake-up
    protocol of `m_tickled`, the event counter and the timeout passed to the kernel. */
module Poller {
  import opened Sequences
  import opened TimerQueue

  const MAX_TIMEOUT: nat := 5000  // milliseconds

  /** Where the idle thread is.  `sampled` is the clock reading the timeout was computed from. */
  datatype Place =
    | Working                                         // running tasks: no idle thread is counted
    | Top                                             // in the idle loop, about to ask for the next timer
    | Computed(sampled: int, timeout: nat)            // timeout known, not asleep yet
    | Asleep(sampled: int, start: int, timeout: nat)  // waiting since `start`
    | Awake                                           // back from the wait, draining the event counter

  /** `loose`: timers taken out by a reset that has not put them back yet; `owed`: threads that set
      `tickled` and are about to look for idle threads; `writing`: those that found one and are about to
      write; `events`: the event counter. */
  datatype State = State(
    timers: seq<Entry>,
    loose: seq<Entry>,
    tickled: bool,
    clock: int,
    place: Place,
    owed: nat,
    writing: nat,
    events: nat)

  datatype Step =
    | Tick(clock: int)
    | Add(timer: Entry)              // constructed at some earlier moment, inserted now
    | Cancel(index: nat)
    | Refresh(index: nat)
    | ResetTake(index: nat)
    | ResetPut(index: nat, ms: nat, fromNow: bool, now: int)  // `now`: read before the lock
    | LookForIdle                    // first half of a tickle
    | Write                          // second half
    | AskOutside                     // somebody else asks for the next timer
    | GoIdle | GoWork
    | Ask                            // the idle thread asks for the next timer
    | Sleep
    | Wake                           // readiness of a descriptor or a signal may end the wait at any time
    | DrainEvents                    // the wake-up was reported, so the counter is read empty
    | Expire(now: int)               // collects what is due; outside the wait

  /** Milliseconds to sleep for: rounded down to the earliest deadline, capped. */
  function Timeout(q: seq<Entry>, now: int): (ms: nat)
    ensures ms <= MAX_TIMEOUT
    ensures q != [] && now < q[0].next ==> now + ms * TICKS <= q[0].next
    ensures q != [] && now >= q[0].next ==> ms == 0
    ensures q == [] ==> ms == MAX_TIMEOUT
  {
    if q == [] then MAX_TIMEOUT
    else if now >= q[0].next then 0
    else if (q[0].next - now) / TICKS < MAX_TIMEOUT then (q[0].next - now) / TICKS else MAX_TIMEOUT
  }

  /** The lock section of `addTimer`. */
  function AddSection(s: State, e: Entry): State {
    var q := Insert(s.timers, e);
    var atFront := q[0] == e && !s.tickled;
    s.(timers := q, tickled := s.tickled || atFront, owed := if atFront then s.owed + 1 else s.owed)
  }

  ghost predicate CanDo(s: State, step: Step) {
    match step
    case Tick(clock) => clock >= s.clock
    case Add(e) =>
      e.next - e.ms * TICKS <= s.clock && forall x :: x in s.timers || x in s.loose ==> x.address != e.address
    case Cancel(i) => i < |s.timers|
    case Refresh(i) => i < |s.timers|
    case ResetTake(i) => i < |s.timers|
    case ResetPut(i, _, _, now) => i < |s.loose| && now <= s.clock
    case LookForIdle => s.owed > 0
    case Write => s.writing > 0
    case AskOutside => true
    case GoIdle => s.place == Working
    case GoWork => s.place in {Top, Awake}
    case Ask => s.place in {Top, Awake}
    case Sleep => s.place.Computed?
    case Wake => s.place.Asleep?
    case DrainEvents => s.place == Awake
    case Expire(now) => !InWindow(s.place) && now <= s.clock && Settles(s.timers, now, false)
  }

  ghost function Do(s: State, step: Step): State
    requires CanDo(s, step)
  {
    match step
    case Tick(clock) => s.(clock := clock)
    case Add(e) => AddSection(s, e)
    case Cancel(i) => s.(timers := Without(s.timers, i))
    case Refresh(i) =>
      var e := s.timers[i];
      s.(timers := Insert(Without(s.timers, i), e.(next := s.clock + e.ms * TICKS)))
    case ResetTake(i) => s.(timers := Without(s.timers, i), loose := s.loose + [s.timers[i]])
    case ResetPut(i, ms, fromNow, now) =>
      var e := s.loose[i];
      var start := if fromNow then now else e.next - e.ms * TICKS;
      AddSection(s.(loose := Without(s.loose, i)), e.(ms := ms, next := start + ms * TICKS))
    case LookForIdle =>  // an idle thread is counted except while it works
      s.(owed := s.owed - 1, writing := if s.place == Working then s.writing else s.writing + 1)
    case Write => s.(writing := s.writing - 1, events := s.events + 1)
    case AskOutside => s.(tickled := false)
    case GoIdle => s.(place := Top)
    case GoWork => s.(place := Working)
    case Ask => s.(tickled := false, place := Computed(s.clock, Timeout(s.timers, s.clock)))
    case Sleep => s.(place := Asleep(s.place.sampled, s.clock, s.place.timeout))
    case Wake => s.(place := Awake)
    case DrainEvents => s.(events := 0)
    case Expire(now) => s.(timers := Drain(s.timers, now, false).1)
  }

  // ----- invariant

  /** From the moment the timeout is computed until the wait is over. */
  predicate InWindow(p: Place) { p.Computed? || p.Asleep? }

  /** A wake-up is on its way to the sleeper. */
  predicate Pending(s: State) { s.owed > 0 || s.writing > 0 || s.events > 0 }

  /** The sleeper was told to wake up in time for every deadline in the set. */
  ghost predicate Covered(s: State)
    requires InWindow(s.place)
  {
    s.place.timeout == 0 || forall e :: e in s.timers ==> s.place.sampled + s.place.timeout * TICKS <= e.next
  }

  ghost predicate NotFarAhead(q: seq<Entry>, clock: int) {
    forall e :: e in q ==> e.next - e.ms * TICKS <= clock
  }

  ghost predicate TimersOk(s: State) {
    && Sorted(s.timers) && DistinctAddresses(s.timers)
    && (forall e, l :: e in s.timers && l in s.loose ==> e.address != l.address)
    && DistinctAddresses(s.loose)
    && NotFarAhead(s.timers, s.clock) && NotFarAhead(s.loose, s.clock)
  }

  ghost predicate WindowOk(s: State) {
    && (InWindow(s.place) ==>
          && s.place.timeout <= MAX_TIMEOUT && s.place.sampled <= s.clock
          && (s.tickled ==> Pending(s))
          && (Pending(s) || Covered(s)))
    && (s.place.Asleep? ==> s.place.sampled <= s.place.start <= s.clock)
  }

  ghost predicate Inv(s: State) { TimersOk(s) && WindowOk(s) }

  lemma WithoutOrdered(q: seq<Entry>, i: nat)
    requires i < |q| && Sorted(q) && DistinctAddresses(q)
    ensures Sorted(Without(q, i)) && DistinctAddresses(Without(q, i))
    ensures forall x :: x in Without(q, i) <==> x in q && x != q[i]
    ensures forall x :: x in Without(q, i) ==> x.address != q[i].address
  {
    assert q == q[..i] + [q[i]] + q[i + 1..];
  }

  lemma WithoutDistinct(q: seq<Entry>, i: nat)
    requires i < |q| && DistinctAddresses(q)
    ensures DistinctAddresses(Without(q, i))
    ensures forall x :: x in Without(q, i) ==> x in q && x.address != q[i].address
  {
  }

  /** Inserting a timer with a new address: the set stays in order, and the front changes only to it. */
  lemma AddSectionOk(s: State, e: Entry)
    requires Inv(s) && e.next - e.ms * TICKS <= s.clock
    requires forall x :: x in s.timers || x in s.loose ==> x.address != e.address
    ensures Inv(AddSection(s, e))
  {
    InsertSorted(s.timers, e);
    InsertDistinct(s.timers, e);
    InsertMembers(s.timers, e);
    var q := Insert(s.timers, e);
    if q[0] != e {
      assert q[0] == s.timers[0] && Less(q[0], e);
      assert s.timers[0] in s.timers;
    }
  }

  /** The hook is called exactly for a timer with the earliest deadline of all, and only if nobody was told since
      the last question. */
  lemma AddAnswers(s: State, e: Entry)
    requires Inv(s) && forall x :: x in s.timers ==> x.address != e.address
    ensures var next := AddSection(s, e);
            var earliest := forall x :: x in s.timers ==>
              e.next < x.next || (e.next == x.next && e.address < x.address);
            && next.owed == s.owed + (if earliest && !s.tickled then 1 else 0)
            && (next.tickled <==> s.tickled || earliest)
            && multiset(next.timers) == multiset(s.timers) + multiset{e}
  {
    InsertMembers(s.timers, e);
    if s.timers != [] {
      FrontIsEarliest(s.timers);
      assert s.timers[0] in s.timers;
      if Less(s.timers[0], e) {
        assert Insert(s.timers, e)[0] == s.timers[0];
      } else {
        forall x | x in s.timers ensures Less(e, x) {
          var i :| 0 <= i < |s.timers| && s.timers[i] == x;
          assert i > 0 ==> Less(s.timers[0], s.timers[i]);
        }
      }
    }
  }

  lemma RefreshOk(s: State, i: nat)
    requires Inv(s) && CanDo(s, Refresh(i))
    ensures Inv(Do(s, Refresh(i)))
  {
    var e := s.timers[i];
    var later := e.(next := s.clock + e.ms * TICKS);
    assert e in s.timers;
    Replaced(s.timers, i, later);
    assert later.next >= e.next;
    RefreshWindow(s, Do(s, Refresh(i)), later);
  }

  lemma RefreshWindow(s: State, next: State, later: Entry)
    requires WindowOk(s) && next == s.(timers := next.timers)
    requires forall x :: x in next.timers ==> x == later || x in s.timers
    requires exists e :: e in s.timers && e.next <= later.next
    ensures WindowOk(next)
  {
  }

  lemma Replaced(q: seq<Entry>, i: nat, e: Entry)
    requires i < |q| && Sorted(q) && DistinctAddresses(q) && e.address == q[i].address
    ensures var q' := Insert(Without(q, i), e);
            && Sorted(q') && DistinctAddresses(q')
            && forall x :: x in q' ==> x == e || x in q
  {
    WithoutOrdered(q, i);
    InsertSorted(Without(q, i), e);
    InsertDistinct(Without(q, i), e);
    InsertMembers(Without(q, i), e);
  }

  lemma ResetPutOk(s: State, i: nat, ms: nat, fromNow: bool, now: int)
    requires Inv(s) && CanDo(s, ResetPut(i, ms, fromNow, now))
    ensures Inv(Do(s, ResetPut(i, ms, fromNow, now)))
  {
    WithoutDistinct(s.loose, i);
    var e := s.loose[i];
    assert e in s.loose;
    var start := if fromNow then now else e.next - e.ms * TICKS;
    AddSectionOk(s.(loose := Without(s.loose, i)), e.(ms := ms, next := start + ms * TICKS));
  }

  lemma ResetTakeOk(s: State, i: nat)
    requires Inv(s) && CanDo(s, ResetTake(i))
    ensures Inv(Do(s, ResetTake(i)))
  {
    WithoutOrdered(s.timers, i);
    assert s.timers[i] in s.timers;
  }

  lemma {:induction false} RearmedMembers(fired: seq<Entry>, now: int)
    ensures forall x :: x in Rearmed(fired, now) ==> exists e :: e in fired && x == Rearm(e, now)
  {
    if fired != [] {
      RearmedMembers(fired[1..], now);
      forall x | x in Rearmed(fired, now) ensures exists e :: e in fired && x == Rearm(e, now) {
        if x in Rearmed(fired[1..], now) {
          var e :| e in fired[1..] && x == Rearm(e, now);
          assert e in fired;
        } else {
          assert fired[0] in fired && x == Rearm(fired[0], now);
        }
      }
    }
  }

  /** After the expiry loop every timer left was there before, or is one of them re-armed. */
  lemma DrainMembers(q: seq<Entry>, now: int)
    requires Sorted(q) && DistinctAddresses(q) && Settles(q, now, false)
    ensures Sorted(Drain(q, now, false).1) && DistinctAddresses(Drain(q, now, false).1)
    ensures forall x :: x in Drain(q, now, false).1 ==> exists e :: e in q && (x == e || x == Rearm(e, now))
  {
    ExpiryIsExact(q, now);
    var (fired, rest) := Drain(q, now, false);
    var k := Due(q, now, false);
    RearmedMembers(fired, now);
    forall x | x in rest ensures exists e :: e in q && (x == e || x == Rearm(e, now)) {
      assert multiset(rest)[x] > 0;
      if x in q[k..] {
        assert x in q;
      } else {
        assert x in Rearmed(fired, now);
        var e :| e in fired && x == Rearm(e, now);
        assert e in q;
      }
    }
  }

  lemma ExpireOk(s: State, now: int)
    requires Inv(s) && CanDo(s, Expire(now))
    ensures Inv(Do(s, Expire(now)))
  {
    DrainMembers(s.timers, now);
    forall x | x in Drain(s.timers, now, false).1
      ensures x.next - x.ms * TICKS <= s.clock && forall l :: l in s.loose ==> x.address != l.address
    {
      var e :| e in s.timers && (x == e || x == Rearm(e, now));
    }
  }

  lemma AskOk(s: State)
    requires Inv(s) && CanDo(s, Ask)
    ensures Inv(Do(s, Ask))
  {
    if s.timers != [] {
      FrontIsEarliest(s.timers);
    }
  }

  lemma DoInv(s: State, step: Step)
    requires Inv(s) && CanDo(s, step)
    ensures Inv(Do(s, step))
  {
    match step {
      case Add(e) => AddSectionOk(s, e);
      case Cancel(i) => WithoutOrdered(s.timers, i);
      case Refresh(i) => RefreshOk(s, i);
      case ResetTake(i) => ResetTakeOk(s, i);
      case ResetPut(i, ms, fromNow, now) => ResetPutOk(s, i, ms, fromNow, now);
      case Ask => AskOk(s);
      case Expire(now) => ExpireOk(s, now);
      case _ =>
    }
  }

  // ----- whole runs

  ghost predicate Init(s: State) {
    && s.timers == [] && s.loose == [] && !s.tickled && s.place == Working
    && s.owed == 0 && s.writing == 0 && s.events == 0
  }

  ghost predicate IsRun(states: seq<State>, steps: seq<Step>) {
    && |states| == |steps| + 1
    && forall i {:trigger steps[i]} :: 0 <= i < |steps| ==>
         CanDo(states[i], steps[i]) && states[i + 1] == Do(states[i], steps[i])
  }

  lemma {:induction false} RunInv(states: seq<State>, steps: seq<Step>, n: nat)
    requires IsRun(states, steps) && Init(states[0]) && n < |states|
    ensures Inv(states[n])
  {
    if n > 0 {
      RunInv(states, steps, n - 1);
      DoInv(states[n - 1], steps[n - 1]);
    }
  }

  /** When the kernel ends the wait at the latest. */
  function WakeUp(p: Place): int
    requires p.Asleep?
  {
    p.start + p.timeout * TICKS
  }

  /** The kernel does not let the sleeper wait any longer. */
  predicate MustWake(s: State) { s.place.Asleep? && (s.events > 0 || s.clock >= WakeUp(s.place)) }

  /** In every state of every run in which the idle thread sleeps, a wake-up is on its way, or it sleeps no
      longer than to the earliest deadline plus the time that passed between reading the clock and starting
      to wait (or does not wait at all); and it never sleeps for more than five seconds. */
  lemma NeverOversleeps(states: seq<State>, steps: seq<Step>, n: nat)
    requires IsRun(states, steps) && Init(states[0]) && n < |states| && states[n].place.Asleep?
    ensures var s := states[n]; var lag := s.place.start - s.place.sampled;
            && lag >= 0
            && (Pending(s) || s.place.timeout == 0 || forall e :: e in s.timers ==> WakeUp(s.place) <= e.next + lag)
            && WakeUp(s.place) <= s.place.start + MAX_TIMEOUT * TICKS
  {
    RunInv(states, steps, n);
  }

  // ----- exactly when the sleeper is in time

  /** How much later than the clock reading the wait may start: what rounding, or the cap, leaves. */
  function Margin(deadline: int, sampled: int): int
    requires sampled < deadline
  {
    if (deadline - sampled) / TICKS < MAX_TIMEOUT then (deadline - sampled) % TICKS
    else deadline - sampled - MAX_TIMEOUT * TICKS
  }

  /** One turn of the idle loop with nothing else going on: the wait ends in time for the earliest deadline
      exactly if it starts within the margin. */
  lemma InTimeExactly(s: State, later: int)
    requires s.place in {Top, Awake} && s.timers != [] && s.clock < s.timers[0].next && s.clock <= later
    ensures CanDo(s, Ask) && CanDo(Do(s, Ask), Tick(later)) && CanDo(Do(Do(s, Ask), Tick(later)), Sleep)
    ensures WakeUp(Do(Do(Do(s, Ask), Tick(later)), Sleep).place) <= s.timers[0].next
       <==> later - s.clock <= Margin(s.timers[0].next, s.clock)
  {
  }

  /** What the sleeper knows comes from the last time it asked. */
  lemma {:induction false} LastAsked(states: seq<State>, steps: seq<Step>, n: nat) returns (m: nat)
    requires IsRun(states, steps) && Init(states[0]) && n < |states| && InWindow(states[n].place)
    ensures m < n && steps[m] == Ask && states[n].place.sampled == states[m].clock
    ensures states[n].place.timeout == Timeout(states[m].timers, states[m].clock)
  {
    assert CanDo(states[n - 1], steps[n - 1]) && states[n] == Do(states[n - 1], steps[n - 1]);
    if steps[n - 1] == Ask {
      m := n - 1;
    } else {
      m := LastAsked(states, steps, n - 1);
    }
  }

  /** In every state of every run in which the idle thread sleeps: the wait ends in time for every deadline in
      the set exactly if the lag before it is covered by what the earliest deadline leaves beyond the timeout. If
      no tickle is on its way and the timeout is not zero, that is not negative; and if the earliest deadline
      is still that of the time of asking, it is the margin. */
  lemma WakesInTimeExactly(states: seq<State>, steps: seq<Step>, n: nat) returns (m: nat)
    requires IsRun(states, steps) && Init(states[0]) && n < |states|
    requires states[n].place.Asleep? && states[n].timers != []
    ensures m < n && steps[m] == Ask
    ensures var s, asked := states[n], states[m];
            var deadline, lag := s.timers[0].next, s.place.start - asked.clock;
            var spare := deadline - asked.clock - Timeout(asked.timers, asked.clock) * TICKS;
            && ((forall e :: e in s.timers ==> WakeUp(s.place) <= e.next) <==> lag <= spare)
            && (!Pending(s) && s.place.timeout != 0 ==> 0 <= spare)
            && (asked.timers != [] && asked.timers[0].next == deadline && asked.clock < deadline ==>
                  spare == Margin(deadline, asked.clock))
  {
    RunInv(states, steps, n);
    m := LastAsked(states, steps, n);
    FrontIsEarliest(states[n].timers);
    assert states[n].timers[0] in states[n].timers;
  }

  lemma FrontIsEarliest(q: seq<Entry>)
    requires Sorted(q) && q != []
    ensures forall e :: e in q ==> q[0].next <= e.next
  {
    forall e | e in q ensures q[0].next <= e.next {
      var i :| 0 <= i < |q| && q[i] == e;
      assert i > 0 ==> Less(q[0], q[i]);
    }
  }

  /** A repeated tickle is suppressed only while the first one is still on its way. */
  lemma SuppressionIsSafe(states: seq<State>, steps: seq<Step>, n: nat)
    requires IsRun(states, steps) && Init(states[0]) && n < |states|
    requires InWindow(states[n].place) && states[n].tickled
    ensures Pending(states[n])
  {
    RunInv(states, steps, n);
  }

  /** A tickle on its way does end the wait: whoever owes one finds the sleeper counted as idle and writes. */
  lemma PendingEndsTheWait(s: State)
    requires s.place.Asleep? && Pending(s)
    ensures MustWake(s) || (CanDo(s, Write) && MustWake(Do(s, Write)))
         || (CanDo(s, LookForIdle) && CanDo(Do(s, LookForIdle), Write) && MustWake(Do(Do(s, LookForIdle), Write)))
  {
  }

  /** The lag is real: with a pause of `lag` ticks before the wait starts, the sleeper is told to wake up
      exactly that much after the only deadline, and no tickle is on its way. */
  lemma LagIsReal(clock: int, address: nat, ms: nat, cb: Callback, lag: nat)
      returns (states: seq<State>, steps: seq<Step>)
    requires 0 < ms <= MAX_TIMEOUT
    ensures IsRun(states, steps) && |states| == 7 && Init(states[0])
    ensures var s := states[6];
            s.place.Asleep? && !Pending(s) && |s.timers| == 1 && WakeUp(s.place) == s.timers[0].next + lag
  {
    var e := Entry(clock + ms * TICKS, address, ms, false, cb);
    var s0 := State([], [], false, clock, Working, 0, 0, 0);
    steps := [Add(e), LookForIdle, GoIdle, Ask, Tick(clock + lag), Sleep];
    var s1 := Do(s0, steps[0]);
    assert s1.timers == [e];
    var s2 := Do(s1, steps[1]);
    var s3 := Do(s2, steps[2]);
    var s4 := Do(s3, steps[3]);
    assert Timeout([e], clock) == ms;
    var s5 := Do(s4, steps[4]);
    var s6 := Do(s5, steps[5]);
    states := [s0, s1, s2, s3, s4, s5, s6];
  }

  // ----- what the steps do to the set

  /** Cancelling takes the timer out, for good. */
  lemma CancelAnswers(s: State, i: nat)
    requires CanDo(s, Cancel(i))
    ensures multiset(Do(s, Cancel(i)).timers) == multiset(s.timers) - multiset{s.timers[i]}
    ensures Do(s, Cancel(i)).loose == s.loose
  {
    WithoutMultiset(s.timers, i);
  }

  /** Refreshing changes the deadline of this timer to one period from now, and nothing else. */
  lemma RefreshAnswers(s: State, i: nat, x: Entry)
    requires TimersOk(s) && CanDo(s, Refresh(i))
    ensures var e := s.timers[i];
            x in Do(s, Refresh(i)).timers <==>
              (x in s.timers && x != e) || x == e.(next := s.clock + e.ms * 1_000_000)
  {
    var e := s.timers[i];
    ReplacedHas(s.timers, i, e.(next := s.clock + e.ms * TICKS), x);
  }

  lemma ReplacedHas(q: seq<Entry>, i: nat, e: Entry, x: Entry)
    requires i < |q| && Sorted(q) && DistinctAddresses(q)
    ensures x in Insert(Without(q, i), e) <==> (x in q && x != q[i]) || x == e
  {
    WithoutOrdered(q, i);
    InsertMembers(Without(q, i), e);
  }

  /** The first half of a reset takes the timer out. */
  lemma ResetTakes(s: State, i: nat)
    requires CanDo(s, ResetTake(i))
    ensures multiset(Do(s, ResetTake(i)).timers) == multiset(s.timers) - multiset{s.timers[i]}
    ensures Do(s, ResetTake(i)).loose == s.loose + [s.timers[i]]
  {
    WithoutMultiset(s.timers, i);
  }

  /** The second half: the timer comes back with the new period, counted from now or from where the old one was
      counted. */
  lemma ResetAnswers(s: State, i: nat, ms: nat, fromNow: bool, now: int, x: Entry)
    requires TimersOk(s) && CanDo(s, ResetPut(i, ms, fromNow, now))
    ensures var e := s.loose[i];
            var start := if fromNow then now else e.next - e.ms * 1_000_000;
            x in Do(s, ResetPut(i, ms, fromNow, now)).timers <==>
              x in s.timers || x == e.(ms := ms, next := start + ms * 1_000_000)
    ensures x in Do(s, ResetPut(i, ms, fromNow, now)).loose ==> x in s.loose && x.address != s.loose[i].address
  {
    var e := s.loose[i];
    var start := if fromNow then now else e.next - e.ms * TICKS;
    InsertMembers(s.timers, e.(ms := ms, next := start + ms * TICKS));
    WithoutDistinct(s.loose, i);
  }

  /** Expiry leaves no due timer, and the recurring ones with their next deadline. */
  lemma ExpireAnswers(s: State, now: int, x: Entry)
    requires Inv(s) && CanDo(s, Expire(now))
    ensures x in Do(s, Expire(now)).timers <==>
      || (x in s.timers && x.next > now)
      || exists e :: e in s.timers && e.next <= now && e.recurring && x == e.(next := now + e.ms * 1_000_000)
  {
    LeftAfterExpiry(s.timers, now, x);
  }
}

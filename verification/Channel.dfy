/** The channel: its critical sections in place and on values, and the machine of all interleavings of
    `send`, `recv` and `close`, for every capacity including 0. */
module Channels {
  import opened FiberIds
  import opened Sequences
  import opened Park
  import opened Waiters

  datatype State<T> = State(capacity: nat, closed: bool, buffer: seq<T>, senders: seq<Waiter>, receivers: seq<Waiter>)

  datatype Received<T> = Value(value: T) | Drained | MustWait
  datatype Sent = Accepted | Refused | Full

  // ----- critical sections on values; the last part of a result is the waiters popped

  function Front(queue: seq<Waiter>): seq<Waiter> { if queue == [] then [] else [queue[0]] }

  function Behind(queue: seq<Waiter>): seq<Waiter> { if queue == [] then [] else queue[1..] }

  /** One turn of the loop in `recv`. Even a receiver that must wait lets a sender go. */
  function RecvSection<T>(c: State<T>, w: Waiter): (State<T>, Received<T>, seq<Waiter>) {
    if c.buffer != [] then
      (c.(buffer := c.buffer[1..], senders := Behind(c.senders)), Value(c.buffer[0]), Front(c.senders))
    else if c.closed then
      (c, Drained, [])
    else
      (c.(senders := Behind(c.senders), receivers := c.receivers + [w]), MustWait, Front(c.senders))
  }

  predicate CanSend<T>(c: State<T>) {
    if c.capacity == 0 then c.receivers != [] && c.buffer == [] else |c.buffer| < c.capacity
  }

  /** One turn of the loop in `send`. */
  function SendSection<T>(c: State<T>, w: Waiter, value: T): (State<T>, Sent, seq<Waiter>) {
    if c.closed then
      (c, Refused, [])
    else if CanSend(c) then
      (c.(buffer := c.buffer + [value], receivers := Behind(c.receivers)), Accepted, Front(c.receivers))
    else
      (c.(senders := c.senders + [w]), Full, [])
  }

  function CloseSection<T>(c: State<T>): (State<T>, seq<Waiter>) {
    if c.closed then (c, []) else (c.(closed := true, senders := [], receivers := []), c.senders + c.receivers)
  }

  // ----- the same sections on the object

  class Channel<T> {
    const capacity: nat
    var closed: bool
    var buffer: seq<T>
    var senders: seq<FiberWaiter>
    var receivers: seq<FiberWaiter>

    function Abs(): State<T>
      reads this
    {
      State(capacity, closed, buffer, Ids(senders), Ids(receivers))
    }

    constructor (capacity: nat)
      ensures Abs() == State(capacity, false, [], [], [])
    {
      this.capacity := capacity;
      closed, buffer, senders, receivers := false, [], [], [];
    }

    method RecvEntry(me: Caller, made: FiberWaiter?)
      returns (outcome: Received<T>, toWake: FiberWaiter?, waiter: FiberWaiter?)
      requires made != null ==> made.id == me.waiter
      modifies this, made
      ensures (Abs(), outcome, if toWake == null then [] else [toWake.id]) == RecvSection(old(Abs()), me.waiter)
      ensures outcome.Value? <==> old(buffer) != []
      ensures outcome.Value? ==> outcome.value == old(buffer)[0] && buffer == old(buffer)[1..]
      ensures outcome.Drained? <==> old(buffer) == [] && old(closed)
      ensures closed == old(closed)
      ensures toWake != null ==> old(senders) != [] && toWake == old(senders)[0]
      ensures made != null ==> waiter == made
      ensures outcome.MustWait? ==> waiter != null && waiter.id == me.waiter && !waiter.notified
      ensures !outcome.MustWait? && made != null ==> made.notified == old(made.notified)
    {
      waiter, toWake := made, null;
      if buffer != [] {
        outcome := Value(buffer[0]);
        buffer := buffer[1..];
        toWake, senders := PopWaiterFront(senders);
      } else if closed {
        outcome := Drained;
      } else {
        toWake, senders := PopWaiterFront(senders);
        if waiter == null {
          waiter := new FiberWaiter(me);
        }
        waiter.notified := false;
        IdsAppend(receivers, waiter);
        receivers := receivers + [waiter];
        outcome := MustWait;
      }
    }

    method SendEntry(me: Caller, value: T, made: FiberWaiter?)
      returns (outcome: Sent, toWake: FiberWaiter?, waiter: FiberWaiter?)
      requires made != null ==> made.id == me.waiter
      modifies this, made
      ensures (Abs(), outcome, if toWake == null then [] else [toWake.id]) == SendSection(old(Abs()), me.waiter, value)
      ensures outcome.Refused? <==> old(closed)
      ensures outcome.Accepted? <==>
        !old(closed) && if capacity == 0 then old(receivers) != [] && old(buffer) == [] else |old(buffer)| < capacity
      ensures buffer == if outcome.Accepted? then old(buffer) + [value] else old(buffer)
      ensures closed == old(closed)
      ensures toWake != null ==> old(receivers) != [] && toWake == old(receivers)[0]
      ensures made != null ==> waiter == made
      ensures outcome.Full? ==> waiter != null && waiter.id == me.waiter && !waiter.notified
      ensures !outcome.Full? && made != null ==> made.notified == old(made.notified)
    {
      waiter, toWake := made, null;
      if closed {
        outcome := Refused;
        return;
      }
      var canSend := if capacity == 0 then receivers != [] && buffer == [] else |buffer| < capacity;
      if canSend {
        buffer := buffer + [value];
        toWake, receivers := PopWaiterFront(receivers);
        outcome := Accepted;
      } else {
        if waiter == null {
          waiter := new FiberWaiter(me);
        }
        waiter.notified := false;
        IdsAppend(senders, waiter);
        senders := senders + [waiter];
        outcome := Full;
      }
    }

    method CloseEntry() returns (toWake: seq<FiberWaiter>)
      modifies this
      ensures (Abs(), Ids(toWake)) == CloseSection(old(Abs()))
      ensures toWake == if old(closed) then [] else old(senders + receivers)
      ensures closed && buffer == old(buffer)
    {
      toWake := [];
      if closed {
        return;
      }
      closed := true;
      var front;
      while senders != []
        invariant toWake + senders == old(senders)
        invariant closed && buffer == old(buffer) && receivers == old(receivers)
        decreases |senders|
      {
        front, senders := PopWaiterFront(senders);
        toWake := toWake + [front];
      }
      while receivers != []
        invariant toWake + receivers == old(senders + receivers)
        invariant closed && buffer == old(buffer) && senders == []
        decreases |receivers|
      {
        front, receivers := PopWaiterFront(receivers);
        toWake := toWake + [front];
      }
      assert toWake == old(senders + receivers);
      IdsConcat(old(senders), old(receivers));
    }
  }

  // ----- all interleavings

  /** `wokenS`, `wokenR`: senders and receivers popped from their queue and not yet back in a section;
      `offers`: what each blocked sender is sending; `accepted`, `delivered`: values in, values out. */
  datatype System<T> = System(
    chan: State<T>,
    lot: Lot,
    wokenS: set<FiberId>,
    wokenR: set<FiberId>,
    offers: map<FiberId, T>,
    accepted: seq<T>,
    delivered: seq<T>)

  datatype Action<T> =
    | Recv(fiber: FiberId)
    | Send(fiber: FiberId, value: T)
    | Close(fiber: FiberId)
    | Protocol(step: Park.Step)

  function Fibers(queue: seq<Waiter>): set<FiberId> { set w | w in queue :: w.fiber }

  ghost predicate CanDo<T>(s: System<T>, a: Action<T>) {
    match a
    case Recv(f) => CanEnter(s.lot, f) && (s.lot.locals[f].phase == Outside || f in s.wokenR)
    case Send(f, v) =>  // a blocked sender comes back with the value it was called with
      CanEnter(s.lot, f) && (s.lot.locals[f].phase == Outside || (f in s.wokenS && f in s.offers && s.offers[f] == v))
    case Close(f) => CanEnter(s.lot, f) && s.lot.locals[f].phase == Outside
    case Protocol(step) => Enabled(s.lot, step)
  }

  ghost function Do<T>(s: System<T>, a: Action<T>): System<T>
    requires CanDo(s, a)
  {
    match a
    case Recv(f) =>
      var (c, outcome, popped) := RecvSection(s.chan, Own(s.lot, f));
      s.(chan := c,
         lot := Section(s.lot, f, outcome.MustWait?, popped),
         wokenS := s.wokenS + Fibers(popped),
         wokenR := s.wokenR - {f},
         delivered := if outcome.Value? then s.delivered + [outcome.value] else s.delivered)
    case Send(f, v) =>
      var (c, outcome, popped) := SendSection(s.chan, Own(s.lot, f), v);
      s.(chan := c,
         lot := Section(s.lot, f, outcome.Full?, popped),
         wokenS := s.wokenS - {f},
         wokenR := s.wokenR + Fibers(popped),
         offers := if outcome.Full? then s.offers[f := v] else s.offers - {f},
         accepted := if outcome.Accepted? then s.accepted + [v] else s.accepted)
    case Close(f) =>
      var (c, popped) := CloseSection(s.chan);
      s.(chan := c,
         lot := Section(s.lot, f, false, popped),
         wokenS := if s.chan.closed then s.wokenS else s.wokenS + Fibers(s.chan.senders),
         wokenR := if s.chan.closed then s.wokenR else s.wokenR + Fibers(s.chan.receivers))
    case Protocol(step) => s.(lot := Apply(s.lot, step))
  }

  ghost predicate Init<T>(s: System<T>) {
    && !s.chan.closed && s.chan.buffer == [] && s.chan.senders == [] && s.chan.receivers == []
    && Park.Init(s.lot)
    && s.wokenS == {} && s.wokenR == {} && s.accepted == [] && s.delivered == []
  }

  // ----- invariant

  function Parked<T>(s: System<T>): set<Waiter> { Elements(s.chan.senders) + Elements(s.chan.receivers) }

  /** No waiter is queued twice, a queued fiber is not also woken, and a blocked sender's value is known. */
  ghost predicate QueuesOk<T>(s: System<T>) {
    && Distinct(s.chan.senders) && Distinct(s.chan.receivers)
    && (forall w :: w in s.chan.senders ==>
          w !in s.chan.receivers && w.fiber !in s.wokenS && w.fiber !in s.wokenR && w.fiber in s.offers)
    && (forall w :: w in s.chan.receivers ==> w.fiber !in s.wokenS && w.fiber !in s.wokenR)
  }

  ghost predicate Queued<T>(s: System<T>, f: FiberId)
    requires f in s.lot.locals
  {
    Current(s.lot, f) in s.chan.senders || Current(s.lot, f) in s.chan.receivers
  }

  /** A woken fiber is still in its call, off the queues, woken in one role; nobody blocked is forgotten. */
  ghost predicate WokenOk<T>(s: System<T>) {
    && s.wokenS !! s.wokenR
    && (forall f :: f in s.wokenS || f in s.wokenR ==>
          f in s.lot.locals && s.lot.locals[f].phase != Outside && !Queued(s, f))
    && (forall f :: f in s.wokenS ==> f in s.offers)
    && (forall f :: f in s.lot.locals && s.lot.locals[f].phase != Outside ==>
          Queued(s, f) || f in s.wokenS || f in s.wokenR)
  }

  ghost predicate PlacesOk<T>(s: System<T>) {
    QueuesOk(s) && WokenOk(s)
  }

  /** Queued waiters are those of fibers that are blocked right now, in the suspend loop. */
  ghost predicate QueuedWait<T>(s: System<T>) {
    forall w :: w in s.chan.senders || w in s.chan.receivers ==>
      && w.fiber in s.lot.locals && s.lot.locals[w.fiber].phase in {Checking, Yielding, Suspended}
      && w == Current(s.lot, w.fiber)
  }

  /** The channel is a closable first-in first-out queue. */
  ghost predicate FlowOk<T>(s: System<T>) {
    && s.accepted == s.delivered + s.chan.buffer
    && |s.chan.buffer| <= (if s.chan.capacity == 0 then 1 else s.chan.capacity)
    && (s.chan.capacity == 0 ==> |s.chan.buffer| <= |s.wokenR|)
    && (s.chan.closed ==> s.chan.senders == [] && s.chan.receivers == [])
  }

  /** Whoever could be served is outnumbered by fibers already woken to be served. */
  ghost predicate WakesOk<T>(s: System<T>) {
    && (s.chan.receivers != [] ==> |s.chan.buffer| <= |s.wokenR|)
    && (s.chan.senders != [] && s.chan.capacity > 0 ==> s.chan.capacity - |s.chan.buffer| <= |s.wokenS|)
    && (s.chan.senders != [] && s.chan.receivers != [] && s.chan.capacity == 0 && s.chan.buffer == [] ==>
          s.wokenS != {})
  }

  ghost predicate Inv<T>(s: System<T>) {
    Park.Inv(s.lot, Parked(s)) && PlacesOk(s) && FlowOk(s) && WakesOk(s)
  }

  lemma InitInv<T>(s: System<T>)
    requires Init(s)
    ensures Inv(s)
  {
    Park.InitInv(s.lot);
    assert Parked(s) == {};
  }

  /** Popping the front waiter of a queue wakes one more fiber. */
  lemma FrontWakes(queue: seq<Waiter>, woken: set<FiberId>)
    requires Distinct(queue) && forall w :: w in queue ==> w.fiber !in woken
    ensures queue != [] ==> |woken + Fibers(Front(queue))| == |woken| + 1
    ensures queue == [] ==> Fibers(Front(queue)) == {}
    ensures Distinct(Behind(queue)) && Elements(Behind(queue)) == Elements(queue) - Elements(Front(queue))
  {
    if queue != [] {
      PopElements(queue);
      assert queue[0] in queue;
      assert Fibers(Front(queue)) == {queue[0].fiber};
    }
  }

  lemma RecvCounts<T>(s: System<T>, f: FiberId)
    requires PlacesOk(s) && FlowOk(s) && WakesOk(s) && CanDo(s, Recv(f))
    ensures FlowOk(Do(s, Recv(f))) && WakesOk(Do(s, Recv(f)))
  {
    FrontWakes(s.chan.senders, s.wokenS);
  }

  lemma SendCounts<T>(s: System<T>, f: FiberId, v: T)
    requires PlacesOk(s) && FlowOk(s) && WakesOk(s) && CanDo(s, Send(f, v))
    ensures FlowOk(Do(s, Send(f, v))) && WakesOk(Do(s, Send(f, v)))
  {
    SendFlows(s, f, v);
    SendWakes(s, f, v);
  }

  lemma SendFlows<T>(s: System<T>, f: FiberId, v: T)
    requires PlacesOk(s) && FlowOk(s) && WakesOk(s) && CanDo(s, Send(f, v))
    ensures FlowOk(Do(s, Send(f, v)))
  {
    FrontWakes(s.chan.receivers, s.wokenR);
  }

  lemma SendWakes<T>(s: System<T>, f: FiberId, v: T)
    requires PlacesOk(s) && FlowOk(s) && WakesOk(s) && CanDo(s, Send(f, v))
    ensures WakesOk(Do(s, Send(f, v)))
  {
    FrontWakes(s.chan.receivers, s.wokenR);
  }

  lemma CloseCounts<T>(s: System<T>, f: FiberId)
    requires FlowOk(s) && WakesOk(s) && CanDo(s, Close(f))
    ensures FlowOk(Do(s, Close(f))) && WakesOk(Do(s, Close(f)))
  {
    SubsetSize(s.wokenR, s.wokenR + Fibers(s.chan.receivers));
  }

  lemma SubsetSize(a: set<FiberId>, b: set<FiberId>)
    requires a <= b
    ensures |a| <= |b|
  {
    assert b == a + (b - a);
  }

  lemma PopIsFront(queue: seq<Waiter>)
    requires Distinct(queue)
    ensures forall w :: w in Behind(queue) <==> w in queue && w !in Front(queue)
    ensures forall w :: w in Front(queue) ==> w in queue
    ensures Distinct(Behind(queue))
  {
    if queue != [] { PopElements(queue); assert queue == [queue[0]] + queue[1..]; }
  }

  /** Popping one queue and pushing on the other. */
  lemma QueueMove(p: seq<Waiter>, q: seq<Waiter>, w: Waiter)
    requires Distinct(p) && (forall x :: x in p ==> x !in q)
    ensures Elements(Behind(p)) + Elements(q) == Elements(p) + Elements(q) - Elements(Front(p))
    ensures w !in p ==>
              Elements(Behind(p)) + Elements(q + [w]) == Elements(p) + Elements(q) - Elements(Front(p)) + {w}
    ensures Elements(Front(p)) <= Elements(p)
  {
    PopIsFront(p);
    assert Elements(q + [w]) == Elements(q) + {w};
  }

  lemma RecvParked<T>(s: System<T>, f: FiberId)
    requires QueuesOk(s) && CanDo(s, Recv(f)) && Own(s.lot, f) !in Parked(s)
    ensures var (_, outcome, popped) := RecvSection(s.chan, Own(s.lot, f));
            && Parked(Do(s, Recv(f)))
            == Parked(s) - Elements(popped) + (if outcome.MustWait? then {Own(s.lot, f)} else {})
            && Elements(popped) <= Parked(s)
  {
    QueueMove(s.chan.senders, s.chan.receivers, Own(s.lot, f));
  }

  lemma RecvPark<T>(s: System<T>, f: FiberId)
    requires Park.Inv(s.lot, Parked(s)) && QueuesOk(s) && CanDo(s, Recv(f))
    ensures Park.Inv(Do(s, Recv(f)).lot, Parked(Do(s, Recv(f))))
  {
    var (c, outcome, popped) := RecvSection(s.chan, Own(s.lot, f));
    ResetErasesNothing(s.lot, Parked(s), f);
    RecvParked(s, f);
    SectionInv(s.lot, Parked(s), f, outcome.MustWait?, popped, Parked(Do(s, Recv(f))));
  }

  lemma SendParked<T>(s: System<T>, f: FiberId, v: T)
    requires QueuesOk(s) && CanDo(s, Send(f, v)) && Own(s.lot, f) !in Parked(s)
    ensures var (_, outcome, popped) := SendSection(s.chan, Own(s.lot, f), v);
            && Parked(Do(s, Send(f, v)))
            == Parked(s) - Elements(popped) + (if outcome.Full? then {Own(s.lot, f)} else {})
            && Elements(popped) <= Parked(s)
  {
    QueueMove(s.chan.receivers, s.chan.senders, Own(s.lot, f));
  }

  lemma SendPark<T>(s: System<T>, f: FiberId, v: T)
    requires Park.Inv(s.lot, Parked(s)) && QueuesOk(s) && CanDo(s, Send(f, v))
    ensures Park.Inv(Do(s, Send(f, v)).lot, Parked(Do(s, Send(f, v))))
  {
    var (c, outcome, popped) := SendSection(s.chan, Own(s.lot, f), v);
    ResetErasesNothing(s.lot, Parked(s), f);
    SendParked(s, f, v);
    SectionInv(s.lot, Parked(s), f, outcome.Full?, popped, Parked(Do(s, Send(f, v))));
  }

  lemma ClosePark<T>(s: System<T>, f: FiberId)
    requires Park.Inv(s.lot, Parked(s)) && PlacesOk(s) && CanDo(s, Close(f))
    ensures Park.Inv(Do(s, Close(f)).lot, Parked(Do(s, Close(f))))
  {
    var (c, popped) := CloseSection(s.chan);
    var parked' := Parked(s) - Elements(popped);
    assert Parked(Do(s, Close(f))) == parked';
    SectionInv(s.lot, Parked(s), f, false, popped, parked');
  }

  lemma ParkedWait<T>(s: System<T>)
    requires Park.Inv(s.lot, Parked(s))
    ensures QueuedWait(s)
  {
    forall w | w in s.chan.senders || w in s.chan.receivers ensures Undelivered(s.lot, w) {
      assert w in Parked(s);
    }
  }

  lemma RecvPlaces<T>(s: System<T>, f: FiberId)
    requires QueuedWait(s) && PlacesOk(s) && CanDo(s, Recv(f))
    ensures PlacesOk(Do(s, Recv(f)))
  {
    RecvQueues(s, f);
    RecvWoken(s, f);
  }

  lemma RecvQueues<T>(s: System<T>, f: FiberId)
    requires QueuedWait(s) && PlacesOk(s) && CanDo(s, Recv(f))
    ensures QueuesOk(Do(s, Recv(f)))
  {
    var next := Do(s, Recv(f));
    var (c, outcome, popped) := RecvSection(s.chan, Own(s.lot, f));
    PopIsFront(s.chan.senders);
    forall w | w in s.chan.senders || w in s.chan.receivers
      ensures w.fiber != f && (w.fiber in Fibers(popped) <==> w in popped)
    {}
    assert forall w :: w in next.chan.receivers ==> w in s.chan.receivers || w == Own(s.lot, f);
  }

  lemma RecvQueued<T>(s: System<T>, f: FiberId, h: FiberId)
    requires QueuedWait(s) && QueuesOk(s) && CanDo(s, Recv(f)) && h in s.lot.locals && h != f
    ensures var popped := RecvSection(s.chan, Own(s.lot, f)).2;
            && (Queued(Do(s, Recv(f)), h) <==> Queued(s, h) && Current(s.lot, h) !in popped)
            && (h in Fibers(popped) <==> Current(s.lot, h) in popped)
  {
    PopIsFront(s.chan.senders);
  }

  lemma RecvWoken<T>(s: System<T>, f: FiberId)
    requires QueuedWait(s) && PlacesOk(s) && CanDo(s, Recv(f))
    ensures WokenOk(Do(s, Recv(f)))
  {
    var next := Do(s, Recv(f));
    var (c, outcome, popped) := RecvSection(s.chan, Own(s.lot, f));
    PopIsFront(s.chan.senders);
    forall h | h in s.lot.locals && h != f
      ensures Queued(next, h) <==> Queued(s, h) && Current(s.lot, h) !in popped
      ensures h in Fibers(popped) <==> Current(s.lot, h) in popped
    {
      RecvQueued(s, f, h);
    }
    assert Queued(next, f) <==> outcome.MustWait?;
  }

  lemma SendPlaces<T>(s: System<T>, f: FiberId, v: T)
    requires QueuedWait(s) && PlacesOk(s) && CanDo(s, Send(f, v))
    ensures PlacesOk(Do(s, Send(f, v)))
  {
    SendQueues(s, f, v);
    SendWoken(s, f, v);
  }

  lemma SendQueues<T>(s: System<T>, f: FiberId, v: T)
    requires QueuedWait(s) && PlacesOk(s) && CanDo(s, Send(f, v))
    ensures QueuesOk(Do(s, Send(f, v)))
  {
    var next := Do(s, Send(f, v));
    var (c, outcome, popped) := SendSection(s.chan, Own(s.lot, f), v);
    PopIsFront(s.chan.receivers);
    forall w | w in s.chan.senders || w in s.chan.receivers
      ensures w.fiber != f && (w.fiber in Fibers(popped) <==> w in popped)
    {}
    assert forall w :: w in next.chan.senders ==> w in s.chan.senders || w == Own(s.lot, f);
  }

  lemma SendQueued<T>(s: System<T>, f: FiberId, v: T, h: FiberId)
    requires QueuedWait(s) && QueuesOk(s) && CanDo(s, Send(f, v)) && h in s.lot.locals && h != f
    ensures var popped := SendSection(s.chan, Own(s.lot, f), v).2;
            && (Queued(Do(s, Send(f, v)), h) <==> Queued(s, h) && Current(s.lot, h) !in popped)
            && (h in Fibers(popped) <==> Current(s.lot, h) in popped)
  {
    PopIsFront(s.chan.receivers);
  }

  lemma SendWoken<T>(s: System<T>, f: FiberId, v: T)
    requires QueuedWait(s) && PlacesOk(s) && CanDo(s, Send(f, v))
    ensures WokenOk(Do(s, Send(f, v)))
  {
    var next := Do(s, Send(f, v));
    var (c, outcome, popped) := SendSection(s.chan, Own(s.lot, f), v);
    PopIsFront(s.chan.receivers);
    forall h | h in s.lot.locals && h != f
      ensures Queued(next, h) <==> Queued(s, h) && Current(s.lot, h) !in popped
      ensures h in Fibers(popped) <==> Current(s.lot, h) in popped
    {
      SendQueued(s, f, v, h);
    }
    assert Queued(next, f) <==> outcome.Full?;
  }

  lemma ClosePlaces<T>(s: System<T>, f: FiberId)
    requires QueuedWait(s) && PlacesOk(s) && CanDo(s, Close(f))
    ensures PlacesOk(Do(s, Close(f)))
  {
    var next := Do(s, Close(f));
    forall h | h in s.lot.locals && h != f
      ensures h in Fibers(s.chan.senders) <==> Current(s.lot, h) in s.chan.senders
      ensures h in Fibers(s.chan.receivers) <==> Current(s.lot, h) in s.chan.receivers
    {}
  }

  lemma ProtocolPlaces<T>(s: System<T>, step: Park.Step)
    requires PlacesOk(s) && CanDo(s, Protocol(step))
    ensures PlacesOk(Do(s, Protocol(step)))
  {
    StepFrame(s.lot, step);
  }

  lemma DoInv<T>(s: System<T>, a: Action<T>)
    requires Inv(s) && CanDo(s, a)
    ensures Inv(Do(s, a))
  {
    ParkedWait(s);
    match a {
      case Recv(f) => RecvPark(s, f); RecvPlaces(s, f); RecvCounts(s, f);
      case Send(f, v) => SendPark(s, f, v); SendPlaces(s, f, v); SendCounts(s, f, v);
      case Close(f) => ClosePark(s, f); ClosePlaces(s, f); CloseCounts(s, f);
      case Protocol(step) => StepInv(s.lot, Parked(s), step); ProtocolPlaces(s, step);
    }
  }

  // ----- whole runs

  ghost predicate IsRun<T>(states: seq<System<T>>, actions: seq<Action<T>>) {
    && |states| == |actions| + 1
    && forall i {:trigger actions[i]} :: 0 <= i < |actions| ==>
         CanDo(states[i], actions[i]) && states[i + 1] == Do(states[i], actions[i])
  }

  lemma {:induction false} RunInv<T>(states: seq<System<T>>, actions: seq<Action<T>>, n: nat)
    requires IsRun(states, actions) && Init(states[0]) && n < |states|
    ensures Inv(states[n])
  {
    if n == 0 {
      InitInv(states[0]);
    } else {
      RunInv(states, actions, n - 1);
      DoInv(states[n - 1], actions[n - 1]);
    }
  }

  /** At every moment of every run: what was delivered and what is buffered make up what was accepted, in
      order; the buffer is within its bound; a capacity-0 channel holds no more than the receivers already on
      their way; after close nobody is queued. */
  lemma ChannelIsQueue<T>(states: seq<System<T>>, actions: seq<Action<T>>, n: nat)
    requires IsRun(states, actions) && Init(states[0]) && n < |states|
    ensures FlowOk(states[n])
  {
    RunInv(states, actions, n);
  }

  /** While the channel is open, a value or a free place that a queued fiber could use is always claimed by
      fibers woken for it: in every state of every run. */
  lemma NoServiceableFiberIsForgotten<T>(states: seq<System<T>>, actions: seq<Action<T>>, n: nat)
    requires IsRun(states, actions) && Init(states[0]) && n < |states|
    ensures WakesOk(states[n])
  {
    RunInv(states, actions, n);
  }

  /** Once closed it stays closed, and nothing is accepted any more. */
  lemma {:induction false} ClosedAcceptsNothing<T>(states: seq<System<T>>, actions: seq<Action<T>>, m: nat, n: nat)
    requires IsRun(states, actions) && m <= n < |states| && states[m].chan.closed
    ensures states[n].chan.closed && states[n].accepted == states[m].accepted
  {
    if m < n {
      ClosedAcceptsNothing(states, actions, m, n - 1);
      assert states[n] == Do(states[n - 1], actions[n - 1]);
    }
  }

  /** `recv` reports the end only when everything ever accepted has been delivered, for good. */
  lemma EndMeansAllDelivered<T>(states: seq<System<T>>, actions: seq<Action<T>>, m: nat, n: nat, f: FiberId)
    requires IsRun(states, actions) && Init(states[0]) && m < |actions| && actions[m] == Recv(f) && m <= n < |states|
    requires RecvSection(states[m].chan, Own(states[m].lot, f)).1.Drained?
    ensures states[n].accepted == states[m].delivered
  {
    RunInv(states, actions, m);
    ClosedAcceptsNothing(states, actions, m, n);
  }

  lemma StuckWhenQuiet<T>(s: System<T>)
    requires Inv(s) && Quiet(s.lot)
    ensures s.chan.closed ==> forall f :: f in s.lot.locals ==> s.lot.locals[f].phase == Outside
    ensures s.chan.receivers != [] ==> s.chan.buffer == []
    ensures s.chan.senders != [] && s.chan.capacity > 0 ==> |s.chan.buffer| == s.chan.capacity
    ensures s.chan.capacity == 0 ==> s.chan.buffer == [] && (s.chan.senders == [] || s.chan.receivers == [])
  {
    forall f | f in s.lot.locals && s.lot.locals[f].phase != Outside ensures Current(s.lot, f) in Parked(s) {
      QuietMeansParked(s.lot, Parked(s), f);
    }
    assert s.wokenS == {} && s.wokenR == {};
  }

  /** No lost wake-up, down to the scheduler: in every quiet state of every run fibers are left blocked only where
      nothing can be done for them. */
  lemma QuietChannelIsStuckForGoodReason<T>(states: seq<System<T>>, actions: seq<Action<T>>, n: nat)
    requires IsRun(states, actions) && Init(states[0]) && n < |states| && Quiet(states[n].lot)
    ensures var s := states[n]; var c := s.chan;
            && (c.closed ==> forall f :: f in s.lot.locals ==> s.lot.locals[f].phase == Outside)
            && (c.receivers != [] ==> c.buffer == [])
            && (c.senders != [] && c.capacity > 0 ==> |c.buffer| == c.capacity)
            && (c.capacity == 0 ==> c.buffer == [] && (c.senders == [] || c.receivers == []))
  {
    RunInv(states, actions, n);
    StuckWhenQuiet(states[n]);
  }

  // ----- what the calls answer

  /** A value is accepted exactly if the channel is open and has room; `send` gives up exactly if the channel is
      closed; in all other cases the fiber waits last among the senders, with the value it came with. */
  lemma SendAnswers<T>(states: seq<System<T>>, actions: seq<Action<T>>, n: nat, f: FiberId, v: T)
    requires IsRun(states, actions) && n < |actions| && actions[n] == Send(f, v)
    ensures var s, next := states[n], states[n + 1]; var c, d := s.chan, next.chan;
            var room := if c.capacity == 0 then c.receivers != [] && c.buffer == [] else |c.buffer| < c.capacity;
            && f in next.lot.locals
            && d.closed == c.closed && d.capacity == c.capacity && next.delivered == s.delivered
            && (c.closed ==> d == c && next.accepted == s.accepted && next.lot.locals[f].phase == Outside)
            && (!c.closed && room ==>
                  && next.accepted == s.accepted + [v] && d.buffer == c.buffer + [v] && d.senders == c.senders
                  && next.lot.locals[f].phase == Outside)
            && (!c.closed && !room ==>
                  && next.accepted == s.accepted && d.buffer == c.buffer && d.receivers == c.receivers
                  && d.senders == c.senders + [Current(next.lot, f)]
                  && next.lot.locals[f].phase == Checking && Current(next.lot, f) !in next.lot.notified
                  && f in next.offers && next.offers[f] == v)
    ensures var s, next := states[n], states[n + 1];
            && (next.accepted != s.accepted <==>
                  (!s.chan.closed && if s.chan.capacity == 0 then s.chan.receivers != [] && s.chan.buffer == []
                                     else |s.chan.buffer| < s.chan.capacity))
            && (next.lot.locals[f].phase == Outside && next.accepted == s.accepted <==> s.chan.closed)
  {
    assert CanDo(states[n], actions[n]) && states[n + 1] == Do(states[n], actions[n]);
    assert |states[n].accepted + [v]| != |states[n].accepted|;
  }

  /** An accepted value is announced to the longest waiting receiver, and to nobody else. */
  lemma SendWakesFirstReceiver<T>(states: seq<System<T>>, actions: seq<Action<T>>, n: nat, f: FiberId, v: T)
    requires IsRun(states, actions) && n < |actions| && actions[n] == Send(f, v)
    ensures var s, next := states[n], states[n + 1]; var q := s.chan.receivers;
            && f in next.lot.locals
            && if next.accepted != s.accepted && q != []
               then next.lot.locals[f].todo == [q[0]] && next.chan.receivers == q[1..]
               else next.lot.locals[f].todo == [] && next.chan.receivers == q
  {
    assert CanDo(states[n], actions[n]) && states[n + 1] == Do(states[n], actions[n]);
  }

  /** `recv` delivers the oldest value exactly if there is one; it reports the end exactly if the channel is closed
      and empty; in all other cases the fiber waits last among the receivers. */
  lemma RecvAnswers<T>(states: seq<System<T>>, actions: seq<Action<T>>, n: nat, f: FiberId)
    requires IsRun(states, actions) && n < |actions| && actions[n] == Recv(f)
    ensures var s, next := states[n], states[n + 1]; var c, d := s.chan, next.chan;
            && f in next.lot.locals
            && d.closed == c.closed && d.capacity == c.capacity && next.accepted == s.accepted
            && (c.buffer != [] ==>
                  && next.delivered == s.delivered + [c.buffer[0]] && d.buffer == c.buffer[1..]
                  && d.receivers == c.receivers && next.lot.locals[f].phase == Outside)
            && (c.buffer == [] && c.closed ==>
                  d == c && next.delivered == s.delivered && next.lot.locals[f].phase == Outside)
            && (c.buffer == [] && !c.closed ==>
                  && next.delivered == s.delivered && d.buffer == []
                  && d.receivers == c.receivers + [Current(next.lot, f)]
                  && next.lot.locals[f].phase == Checking && Current(next.lot, f) !in next.lot.notified)
  {
    assert CanDo(states[n], actions[n]) && states[n + 1] == Do(states[n], actions[n]);
  }

  /** A receiver lets the longest waiting sender go, also when it has to wait itself, but not at the end. */
  lemma RecvWakesFirstSender<T>(states: seq<System<T>>, actions: seq<Action<T>>, n: nat, f: FiberId)
    requires IsRun(states, actions) && n < |actions| && actions[n] == Recv(f)
    ensures var s, next := states[n], states[n + 1]; var q := s.chan.senders;
            && f in next.lot.locals
            && if q != [] && !(s.chan.closed && s.chan.buffer == [])
               then next.lot.locals[f].todo == [q[0]] && next.chan.senders == q[1..]
               else next.lot.locals[f].todo == [] && next.chan.senders == q
  {
    assert CanDo(states[n], actions[n]) && states[n + 1] == Do(states[n], actions[n]);
  }

  /** After `close` the channel is closed and keeps its values; the first `close` wakes everybody, the senders
      first, a later one nobody. */
  lemma CloseAnswers<T>(states: seq<System<T>>, actions: seq<Action<T>>, n: nat, f: FiberId)
    requires IsRun(states, actions) && n < |actions| && actions[n] == Close(f)
    ensures var s, next := states[n], states[n + 1]; var c, d := s.chan, next.chan;
            && f in next.lot.locals && next.lot.locals[f].phase == Outside
            && d.closed && d.buffer == c.buffer && d.capacity == c.capacity
            && next.accepted == s.accepted && next.delivered == s.delivered
            && if c.closed then d == c && next.lot.locals[f].todo == []
               else d.senders == [] == d.receivers && next.lot.locals[f].todo == c.senders + c.receivers
  {
    assert CanDo(states[n], actions[n]) && states[n + 1] == Do(states[n], actions[n]);
  }
}

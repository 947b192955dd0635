/** The per-descriptor registration table, the kernel's interest map and the count of pending events, as
    values: what each operation of the I/O manager does, and what every history of them keeps. */
module EventTable {

  datatype Event = READ | WRITE

  /** Who is to be scheduled when an event fires; `Vacant` is an empty event context. */
  datatype Target = Vacant | ToFiber(fiber: nat) | ToCallback(callback: nat)

  datatype Mask = Mask(read: bool, write: bool)

  datatype FdContext = FdContext(events: Mask, read: Target, write: Target)

  const EMPTY := FdContext(Mask(false, false), Vacant, Vacant)

  datatype Op = ADD | MOD | DEL

  datatype Registration = Registration(fd: nat, event: Event, target: Target)

  /** `scheduled`: what was handed to the scheduler, in order; `added`, `fired`, `deleted`: all registrations
      and how they ended, `fired` in order. */
  datatype Io = Io(
    table: seq<FdContext>,
    kernel: map<nat, Mask>,
    pending: int,
    scheduled: seq<Target>,
    added: multiset<Registration>,
    fired: seq<Registration>,
    deleted: multiset<Registration>)

  predicate On(m: Mask, e: Event) { if e == READ then m.read else m.write }

  predicate Any(m: Mask) { m.read || m.write }

  function With(m: Mask, e: Event): Mask { if e == READ then m.(read := true) else m.(write := true) }

  function Minus(m: Mask, e: Event): Mask { if e == READ then m.(read := false) else m.(write := false) }

  function Context(c: FdContext, e: Event): Target { if e == READ then c.read else c.write }

  function Put(c: FdContext, e: Event, t: Target): FdContext {
    if e == READ then c.(read := t) else c.(write := t)
  }

  function Reset(c: FdContext, e: Event): FdContext { Put(c.(events := Minus(c.events, e)), e, Vacant) }

  /** The kernel: adding what is there, or changing what is not, is an error; it may also refuse. */
  predicate Legal(kernel: map<nat, Mask>, op: Op, fd: nat) { if op == ADD then fd !in kernel else fd in kernel }

  function Ctl(kernel: map<nat, Mask>, op: Op, fd: nat, m: Mask, refuses: bool): (map<nat, Mask>, bool) {
    if refuses || !Legal(kernel, op, fd) then (kernel, false)
    else if op == DEL then (kernel - {fd}, true)
    else (kernel[fd := m], true)
  }

  // ----- operations

  function Grow(table: seq<FdContext>, size: nat): seq<FdContext>
    requires size >= |table|
  {
    table + seq(size - |table|, i => EMPTY)
  }

  /** The table as `addEvent` leaves it before it looks at the descriptor. */
  function Fit(table: seq<FdContext>, fd: nat): seq<FdContext>
    requires |table| >= 2
  {
    if |table| > fd then table else Grow(table, 3 * fd / 2)
  }

  /** `addEvent` once the table is large enough. */
  function Register(io: Io, fd: nat, e: Event, t: Target, refuses: bool): (Io, bool)
    requires fd < |io.table| && t != Vacant
  {
    var c := io.table[fd];
    if On(c.events, e) then (io, false)
    else
      var (kernel, ok) := Ctl(io.kernel, if Any(c.events) then MOD else ADD, fd, With(c.events, e), refuses);
      if !ok then (io, false)
      else (io.(table := io.table[fd := Put(c.(events := With(c.events, e)), e, t)],
                kernel := kernel, pending := io.pending + 1,
                added := io.added + multiset{Registration(fd, e, t)}), true)
  }

  function AddEvent(io: Io, fd: int, e: Event, t: Target, refuses: bool): (Io, bool)
    requires |io.table| >= 2 && t != Vacant
  {
    if fd < 0 then (io, false) else Register(io.(table := Fit(io.table, fd)), fd, e, t, refuses)
  }

  /** What `delEvent` and `cancelEvent` ask of the kernel. */
  function Withdraw(io: Io, fd: nat, e: Event, refuses: bool): (map<nat, Mask>, bool)
    requires fd < |io.table|
  {
    var left := Minus(io.table[fd].events, e);
    Ctl(io.kernel, if Any(left) then MOD else DEL, fd, left, refuses)
  }

  function DelEvent(io: Io, fd: nat, e: Event, refuses: bool): (Io, bool) {
    if |io.table| <= fd || !On(io.table[fd].events, e) then (io, false)
    else
      var (kernel, ok) := Withdraw(io, fd, e, refuses);
      if !ok then (io, false)
      else (io.(table := io.table[fd := Reset(io.table[fd], e)],
                kernel := kernel, pending := io.pending - 1,
                deleted := io.deleted + multiset{Registration(fd, e, Context(io.table[fd], e))}), true)
  }

  /** Hands the registered target to the scheduler and clears the registration. */
  function Trigger(io: Io, fd: nat, e: Event): Io
    requires fd < |io.table| && On(io.table[fd].events, e)
  {
    io.(table := io.table[fd := Reset(io.table[fd], e)],
        pending := io.pending - 1,
        scheduled := io.scheduled + [Context(io.table[fd], e)],
        fired := io.fired + [Registration(fd, e, Context(io.table[fd], e))])
  }

  function CancelEvent(io: Io, fd: nat, e: Event, refuses: bool): (Io, bool) {
    if |io.table| <= fd || !On(io.table[fd].events, e) then (io, false)
    else
      var (kernel, ok) := Withdraw(io, fd, e, refuses);
      if !ok then (io, false) else (Trigger(io.(kernel := kernel), fd, e), true)
  }

  function TriggerIf(io: Io, fd: nat, e: Event, yes: bool): Io
    requires fd < |io.table| && (yes ==> On(io.table[fd].events, e))
  {
    if yes then Trigger(io, fd, e) else io
  }

  function TriggerBoth(io: Io, fd: nat, events: Mask): Io
    requires fd < |io.table|
    requires (events.read ==> io.table[fd].events.read) && (events.write ==> io.table[fd].events.write)
  {
    TriggerIf(TriggerIf(io, fd, READ, events.read), fd, WRITE, events.write)
  }

  function CancelAll(io: Io, fd: nat, refuses: bool): (Io, bool) {
    if |io.table| <= fd || !Any(io.table[fd].events) then (io, false)
    else
      var (kernel, ok) := Ctl(io.kernel, DEL, fd, Mask(false, false), refuses);
      if !ok then (io, false)
      else
        var events := io.table[fd].events;
        (TriggerBoth(io.(kernel := kernel), fd, events), true)
  }

  /** What the poller reports for a descriptor. */
  datatype Report = Report(input: bool, output: bool, error: bool, hangup: bool)

  datatype Outcome = Skipped | CtlFailed | Fired | AssertionFails

  /** The events a report stands for: errors and hang-ups count as whatever is registered. */
  function Actual(c: FdContext, r: Report): Mask {
    Mask(r.input || ((r.error || r.hangup) && c.events.read), r.output || ((r.error || r.hangup) && c.events.write))
  }

  /** The triggers for what was reported, whether it is registered or not; where an assertion fails, the state is
      that of this moment. */
  function Fire(io: Io, fd: nat, reported: Mask): (Io, Outcome)
    requires fd < |io.table|
  {
    var events := io.table[fd].events;
    if reported.read && !events.read then (io, AssertionFails)
    else
      var first := TriggerIf(io, fd, READ, reported.read);
      if reported.write && !events.write then (first, AssertionFails)
      else (TriggerIf(first, fd, WRITE, reported.write), Fired)
  }

  /** One turn of the readiness loop. */
  function Ready(io: Io, fd: nat, r: Report, refuses: bool): (Io, Outcome)
    requires fd < |io.table|
  {
    var c := io.table[fd];
    var actual := Actual(c, r);
    if !((c.events.read && actual.read) || (c.events.write && actual.write)) then (io, Skipped)
    else
      var left := Mask(c.events.read && !actual.read, c.events.write && !actual.write);
      var (kernel, ok) := Ctl(io.kernel, if Any(left) then MOD else DEL, fd, left, refuses);
      if !ok then (io, CtlFailed) else Fire(io.(kernel := kernel), fd, actual)
  }

  // ----- invariant

  ghost predicate ContextsOk(table: seq<FdContext>) {
    forall fd :: 0 <= fd < |table| ==>
      && (table[fd].events.read <==> table[fd].read != Vacant)
      && (table[fd].events.write <==> table[fd].write != Vacant)
  }

  ghost predicate KernelOk(io: Io) {
    && (forall fd :: fd in io.kernel ==> fd < |io.table|)
    && (forall fd :: 0 <= fd < |io.table| ==>
          && (fd in io.kernel <==> Any(io.table[fd].events))
          && (fd in io.kernel ==> io.kernel[fd] == io.table[fd].events))
  }

  function Bits(m: Mask): nat { (if m.read then 1 else 0) + (if m.write then 1 else 0) }

  function Total(table: seq<FdContext>): nat {
    if table == [] then 0 else Bits(table[0].events) + Total(table[1..])
  }

  predicate Registered(table: seq<FdContext>, r: Registration) {
    r.fd < |table| && On(table[r.fd].events, r.event) && Context(table[r.fd], r.event) == r.target
  }

  /** Every registration has fired, was deleted, or is still in the table; the scheduler got the targets of
      those that fired, in order. */
  ghost predicate BooksOk(io: Io) {
    && (forall r: Registration {:trigger io.added[r]} :: io.added[r]
          == multiset(io.fired)[r] + io.deleted[r] + (if Registered(io.table, r) then 1 else 0))
    && |io.scheduled| == |io.fired|
    && forall i :: 0 <= i < |io.fired| ==> io.scheduled[i] == io.fired[i].target
  }

  /** Everything but the kernel. */
  ghost predicate TableOk(io: Io) {
    |io.table| >= 2 && ContextsOk(io.table) && io.pending == Total(io.table) && BooksOk(io)
  }

  ghost predicate Inv(io: Io) { TableOk(io) && KernelOk(io) }

  lemma {:induction false} TotalUpdate(table: seq<FdContext>, fd: nat, c: FdContext)
    requires fd < |table|
    ensures Total(table[fd := c]) == Total(table) - Bits(table[fd].events) + Bits(c.events)
    ensures Total(table) >= Bits(table[fd].events)
  {
    if fd > 0 {
      assert table[fd := c][1..] == table[1..][fd - 1 := c];
      TotalUpdate(table[1..], fd - 1, c);
    } else {
      assert table[fd := c][1..] == table[1..];
    }
  }

  lemma {:induction false} TotalGrow(table: seq<FdContext>, more: nat)
    ensures Total(table + seq(more, i => EMPTY)) == Total(table)
  {
    if table == [] {
      assert table + seq(more, i => EMPTY) == seq(more, i => EMPTY);
      if more > 0 {
        assert seq(more, i => EMPTY)[1..] == seq(more - 1, i => EMPTY);
        TotalGrow([], more - 1);
        assert [] + seq(more - 1, i => EMPTY) == seq(more - 1, i => EMPTY);
      }
    } else {
      TotalGrow(table[1..], more);
      assert (table + seq(more, i => EMPTY))[1..] == table[1..] + seq(more, i => EMPTY);
    }
  }

  lemma FitInv(io: Io, fd: nat)
    requires Inv(io)
    ensures Inv(io.(table := Fit(io.table, fd))) && fd < |Fit(io.table, fd)|
  {
    if |io.table| <= fd {
      TotalGrow(io.table, 3 * fd / 2 - |io.table|);
    }
  }

  /** As long as the table is right, no request to the kernel is illegal. */
  lemma RequestsAreLegal(io: Io, fd: nat, e: Event)
    requires Inv(io) && fd < |io.table|
    ensures !On(io.table[fd].events, e) ==> Legal(io.kernel, if Any(io.table[fd].events) then MOD else ADD, fd)
    ensures On(io.table[fd].events, e) ==> Legal(io.kernel, MOD, fd) && Legal(io.kernel, DEL, fd)
    ensures fd in io.kernel <==> io.table[fd].events.read || io.table[fd].events.write
  {
  }

  /** The kernel adds only what is not there, changes or deletes only what is, and may refuse. */
  lemma KernelAnswers(kernel: map<nat, Mask>, op: Op, fd: nat, m: Mask, refuses: bool)
    ensures var (next, ok) := Ctl(kernel, op, fd, m, refuses);
            && (ok <==> !refuses && (op == ADD <==> fd !in kernel))
            && (!ok ==> next == kernel)
            && (ok ==> (fd in next <==> op != DEL) && (fd in next ==> next[fd] == m))
            && forall k :: k != fd ==> (k in next <==> k in kernel) && (k in kernel ==> next[k] == kernel[k])
  {
  }

  lemma RegisterInv(io: Io, fd: nat, e: Event, t: Target, kernel: map<nat, Mask>)
    requires Inv(io) && fd < |io.table| && !On(io.table[fd].events, e) && t != Vacant
    requires kernel == io.kernel[fd := With(io.table[fd].events, e)]
    ensures Inv(io.(table := io.table[fd := Put(io.table[fd].(events := With(io.table[fd].events, e)), e, t)],
                    kernel := kernel, pending := io.pending + 1,
                    added := io.added + multiset{Registration(fd, e, t)}))
  {
    var c := Put(io.table[fd].(events := With(io.table[fd].events, e)), e, t);
    TotalUpdate(io.table, fd, c);
    RegisterBooks(io, fd, e, t);
    KernelFollows(io, io.(table := io.table[fd := c], kernel := kernel), fd);
  }

  lemma RegisterBooks(io: Io, fd: nat, e: Event, t: Target)
    requires BooksOk(io) && fd < |io.table| && !On(io.table[fd].events, e)
    ensures BooksOk(io.(table := io.table[fd := Put(io.table[fd].(events := With(io.table[fd].events, e)), e, t)],
                        added := io.added + multiset{Registration(fd, e, t)}))
  {
  }

  /** The kernel's map stays the table when both change alike. */
  lemma KernelFollows(io: Io, next: Io, fd: nat)
    requires KernelOk(io) && |next.table| == |io.table| && fd < |io.table|
    requires forall k :: 0 <= k < |io.table| && k != fd ==> next.table[k] == io.table[k]
    requires var events := next.table[fd].events;
             next.kernel == if Any(events) then io.kernel[fd := events] else io.kernel - {fd}
    ensures KernelOk(next)
  {
  }

  lemma AddInv(io: Io, fd: int, e: Event, t: Target, refuses: bool)
    requires Inv(io) && t != Vacant
    ensures Inv(AddEvent(io, fd, e, t, refuses).0)
    ensures AddEvent(io, fd, e, t, refuses).1
        <==> fd >= 0 && !refuses && !(fd < |io.table| && On(io.table[fd].events, e))
  {
    if fd >= 0 {
      FitInv(io, fd);
      var fit := io.(table := Fit(io.table, fd));
      RequestsAreLegal(fit, fd, e);
      if AddEvent(io, fd, e, t, refuses).1 {
        RegisterInv(fit, fd, e, t, AddEvent(io, fd, e, t, refuses).0.kernel);
      }
    }
  }

  lemma DeregisterInv(io: Io, fd: nat, e: Event)
    requires TableOk(io) && fd < |io.table| && On(io.table[fd].events, e)
    ensures TableOk(io.(table := io.table[fd := Reset(io.table[fd], e)],
                        pending := io.pending - 1,
                        deleted := io.deleted + multiset{Registration(fd, e, Context(io.table[fd], e))}))
  {
    TotalUpdate(io.table, fd, Reset(io.table[fd], e));
    DeregisterBooks(io, fd, e);
  }

  lemma DeregisterBooks(io: Io, fd: nat, e: Event)
    requires BooksOk(io) && fd < |io.table| && On(io.table[fd].events, e)
    ensures BooksOk(io.(table := io.table[fd := Reset(io.table[fd], e)],
                        deleted := io.deleted + multiset{Registration(fd, e, Context(io.table[fd], e))}))
  {
  }

  lemma DelInv(io: Io, fd: nat, e: Event, refuses: bool)
    requires Inv(io)
    ensures Inv(DelEvent(io, fd, e, refuses).0)
    ensures DelEvent(io, fd, e, refuses).1 <==> fd < |io.table| && On(io.table[fd].events, e) && !refuses
    ensures DelEvent(io, fd, e, refuses).0.scheduled == io.scheduled
  {
    if fd < |io.table| && On(io.table[fd].events, e) {
      RequestsAreLegal(io, fd, e);
      DeregisterInv(io.(kernel := Withdraw(io, fd, e, refuses).0), fd, e);
    }
  }

  lemma TriggerOk(io: Io, fd: nat, e: Event, yes: bool)
    requires TableOk(io) && fd < |io.table| && (yes ==> On(io.table[fd].events, e))
    ensures TableOk(TriggerIf(io, fd, e, yes))
    ensures yes ==> Context(io.table[fd], e) != Vacant
  {
    TotalUpdate(io.table, fd, Reset(io.table[fd], e));
  }

  lemma CancelInv(io: Io, fd: nat, e: Event, refuses: bool)
    requires Inv(io)
    ensures Inv(CancelEvent(io, fd, e, refuses).0)
    ensures CancelEvent(io, fd, e, refuses).1 <==> fd < |io.table| && On(io.table[fd].events, e) && !refuses
    ensures CancelEvent(io, fd, e, refuses).0.scheduled
         == io.scheduled + (if CancelEvent(io, fd, e, refuses).1 then [Context(io.table[fd], e)] else [])
  {
    if fd < |io.table| && On(io.table[fd].events, e) {
      RequestsAreLegal(io, fd, e);
      TriggerOk(io.(kernel := Withdraw(io, fd, e, refuses).0), fd, e, true);
    }
  }

  /** The targets registered for the given events. */
  function Targets(c: FdContext, events: Mask): seq<Target> {
    (if events.read then [c.read] else []) + (if events.write then [c.write] else [])
  }

  /** Both triggers of `cancelAll` or of a readiness report, after the kernel was told. */
  lemma BothTriggers(io: Io, fd: nat, kernel: map<nat, Mask>, events: Mask)
    requires Inv(io) && fd < |io.table|
    requires (events.read ==> io.table[fd].events.read) && (events.write ==> io.table[fd].events.write)
    requires var left := Mask(io.table[fd].events.read && !events.read, io.table[fd].events.write && !events.write);
             kernel == if Any(left) then io.kernel[fd := left] else io.kernel - {fd}
    ensures Inv(TriggerBoth(io.(kernel := kernel), fd, events))
    ensures TriggerBoth(io.(kernel := kernel), fd, events).scheduled == io.scheduled + Targets(io.table[fd], events)
  {
    BothKeepTable(io.(kernel := kernel), fd, events);
    BothReach(io.(kernel := kernel), fd, events);
    KernelFollows(io, TriggerBoth(io.(kernel := kernel), fd, events), fd);
  }

  lemma BothKeepTable(io: Io, fd: nat, events: Mask)
    requires TableOk(io) && fd < |io.table|
    requires (events.read ==> io.table[fd].events.read) && (events.write ==> io.table[fd].events.write)
    ensures TableOk(TriggerBoth(io, fd, events))
  {
    TriggerOk(io, fd, READ, events.read);
    TriggerOk(TriggerIf(io, fd, READ, events.read), fd, WRITE, events.write);
  }

  lemma BothReach(io: Io, fd: nat, events: Mask)
    requires fd < |io.table|
    requires (events.read ==> io.table[fd].events.read) && (events.write ==> io.table[fd].events.write)
    ensures var next := TriggerBoth(io, fd, events); var c := io.table[fd];
            && next.scheduled == io.scheduled + Targets(c, events)
            && next.kernel == io.kernel && |next.table| == |io.table|
            && next.table[fd].events == Mask(c.events.read && !events.read, c.events.write && !events.write)
            && forall k :: 0 <= k < |io.table| && k != fd ==> next.table[k] == io.table[k]
  {
  }

  lemma CancelAllDone(io: Io, fd: nat)
    requires Inv(io) && fd < |io.table| && Any(io.table[fd].events)
    ensures var (next, ok) := CancelAll(io, fd, false);
            && ok && Inv(next) && fd < |next.table| && !Any(next.table[fd].events)
            && next.scheduled == io.scheduled + Targets(io.table[fd], io.table[fd].events)
  {
    RequestsAreLegal(io, fd, if io.table[fd].events.read then READ else WRITE);
    BothTriggers(io, fd, io.kernel - {fd}, io.table[fd].events);
    BothReach(io.(kernel := io.kernel - {fd}), fd, io.table[fd].events);
  }

  lemma CancelAllInv(io: Io, fd: nat, refuses: bool)
    requires Inv(io)
    ensures Inv(CancelAll(io, fd, refuses).0)
    ensures CancelAll(io, fd, refuses).1 <==> fd < |io.table| && Any(io.table[fd].events) && !refuses
    ensures CancelAll(io, fd, refuses).1 ==> !Any(CancelAll(io, fd, refuses).0.table[fd].events)
    ensures CancelAll(io, fd, refuses).0.scheduled
         == io.scheduled + (if CancelAll(io, fd, refuses).1 then Targets(io.table[fd], io.table[fd].events) else [])
  {
    if fd < |io.table| && Any(io.table[fd].events) && !refuses {
      CancelAllDone(io, fd);
    }
  }

  /** The report names nothing beyond what is registered, apart from errors and hang-ups. */
  predicate Within(c: FdContext, r: Report) {
    (r.input ==> c.events.read) && (r.output ==> c.events.write)
  }

  /** Reading is registered and reported, by readiness, error or hang-up. */
  predicate ReadDue(c: FdContext, r: Report) { c.events.read && (r.input || r.error || r.hangup) }

  predicate WriteDue(c: FdContext, r: Report) { c.events.write && (r.output || r.error || r.hangup) }

  /** The report names a registered event, and one that is not registered. */
  predicate Clashes(c: FdContext, r: Report) {
    || (r.input && !c.events.read && WriteDue(c, r))
    || (r.output && !c.events.write && ReadDue(c, r))
  }

  /** The assertion in the trigger fails exactly when the report clashes with the table and the kernel does
      not refuse the change. */
  lemma AssertionFailsExactly(io: Io, fd: nat, r: Report, refuses: bool)
    requires Inv(io) && fd < |io.table|
    ensures Ready(io, fd, r, refuses).1 == AssertionFails <==> !refuses && Clashes(io.table[fd], r)
  {
    RequestsAreLegal(io, fd, READ);
    RequestsAreLegal(io, fd, WRITE);
  }

  /** What the poller can report while `kernel` is its interest map: readiness within the interest, errors and
      hang-ups always. */
  predicate Receivable(kernel: map<nat, Mask>, fd: nat, r: Report) {
    fd in kernel && (r.input ==> kernel[fd].read) && (r.output ==> kernel[fd].write)
  }

  /** A report that is processed before anything changes meets no failing assertion. */
  lemma FreshReportNeverFails(io: Io, fd: nat, r: Report, refuses: bool)
    requires Inv(io) && Receivable(io.kernel, fd, r)
    ensures fd < |io.table| && Within(io.table[fd], r) && Ready(io, fd, r, refuses).1 != AssertionFails
  {
    AssertionFailsExactly(io, fd, r, refuses);
  }

  /** The kernel was told that nothing is registered any more, yet writing still is. */
  lemma FailedTrigger(io: Io, fd: nat, kernel: map<nat, Mask>)
    requires Inv(io) && fd < |io.table| && kernel == io.kernel - {fd}
    ensures TableOk(io.(kernel := kernel))
    ensures Any(io.table[fd].events) ==> !KernelOk(io.(kernel := kernel))
  {
  }

  /** What a turn of the readiness loop keeps, and whom it schedules. A failing assertion leaves the table and
      the kernel apart, unless reading, which comes first, was what was registered. */
  lemma ReadyInv(io: Io, fd: nat, r: Report, refuses: bool)
    requires Inv(io) && fd < |io.table|
    ensures var (next, outcome) := Ready(io, fd, r, refuses); var c := io.table[fd];
            && TableOk(next)
            && (outcome != AssertionFails ==> Inv(next))
            && (outcome == AssertionFails ==> (Inv(next) <==> c.events.read))
            && (outcome == Skipped || outcome == CtlFailed ==> next == io)
            && (outcome == CtlFailed ==> refuses)
            && (outcome == Fired ==> next.scheduled == io.scheduled + Targets(c, Actual(c, r)))
            && (outcome == AssertionFails ==> next.scheduled == io.scheduled + (if c.events.read then [c.read] else []))
    ensures Within(io.table[fd], r) ==> Ready(io, fd, r, refuses).1 != AssertionFails
  {
    RequestsAreLegal(io, fd, READ);
    RequestsAreLegal(io, fd, WRITE);
    var c := io.table[fd];
    var actual := Actual(c, r);
    var left := Mask(c.events.read && !actual.read, c.events.write && !actual.write);
    var kernel := Ctl(io.kernel, if Any(left) then MOD else DEL, fd, left, refuses).0;
    if Ready(io, fd, r, refuses).1 == Fired {
      BothTriggers(io, fd, kernel, actual);
    } else if Ready(io, fd, r, refuses).1 == AssertionFails {
      FireFails(io, fd, actual);
    }
  }

  lemma FireFails(io: Io, fd: nat, reported: Mask)
    requires Inv(io) && fd < |io.table| && reported == Mask(true, true)
    requires io.table[fd].events.read != io.table[fd].events.write
    ensures var next := Fire(io.(kernel := io.kernel - {fd}), fd, reported).0;
            && TableOk(next) && (Inv(next) <==> io.table[fd].events.read)
            && next.scheduled == io.scheduled + (if io.table[fd].events.read then [io.table[fd].read] else [])
  {
    if io.table[fd].events.read {
      BothTriggers(io, fd, io.kernel - {fd}, Mask(true, false));
    } else {
      FailedTrigger(io, fd, io.kernel - {fd});
    }
  }

  ghost predicate Init(io: Io) {
    && io == Io(io.table, map[], 0, [], multiset{}, [], multiset{})
    && |io.table| >= 2 && forall i :: 0 <= i < |io.table| ==> io.table[i] == EMPTY
  }

  lemma {:induction false} NothingRegistered(table: seq<FdContext>)
    requires forall i :: 0 <= i < |table| ==> table[i] == EMPTY
    ensures Total(table) == 0
  {
    if table != [] {
      NothingRegistered(table[1..]);
    }
  }

  lemma InitInv(io: Io)
    requires Init(io)
    ensures Inv(io)
  {
    NothingRegistered(io.table);
  }

  /** A concrete case: both events are registered when the poller reports both; before the report is
      processed, writing is deleted. */
  lemma StaleReportFails(t: Target, u: Target) returns (start: Io, at: Io, io: Io)
    requires t != Vacant && u != Vacant
    ensures Init(start) && at == AddEvent(AddEvent(start, 0, READ, t, false).0, 0, WRITE, u, false).0
    ensures Inv(at) && at.kernel[0] == Mask(true, true)
    ensures var r := Report(true, true, false, false);
            && Receivable(at.kernel, 0, r)
            && io == DelEvent(at, 0, WRITE, false).0
            && Inv(io) && |io.table| > 0 && Ready(io, 0, r, false).1 == AssertionFails
  {
    start := Io([EMPTY, EMPTY], map[], 0, [], multiset{}, [], multiset{});
    InitInv(start);
    AddInv(start, 0, READ, t, false);
    AddInv(AddEvent(start, 0, READ, t, false).0, 0, WRITE, u, false);
    at := AddEvent(AddEvent(start, 0, READ, t, false).0, 0, WRITE, u, false).0;
    DelInv(at, 0, WRITE, false);
    io := DelEvent(at, 0, WRITE, false).0;
    AssertionFailsExactly(io, 0, Report(true, true, false, false), false);
  }

  // ----- whole histories

  datatype Call =
    | Add(fd: int, event: Event, target: Target)
    | Delete(on: nat, event: Event)
    | Cancel(on: nat, event: Event)
    | CancelEverything(on: nat)
    | Readiness(on: nat, report: Report)

  /** A real target for a registration; a report that does not end the process. */
  ghost predicate CanDo(io: Io, call: Call) {
    && |io.table| >= 2
    && match call
       case Add(_, _, t) => t != Vacant
       case Readiness(fd, r) => fd < |io.table| && !Clashes(io.table[fd], r)
       case _ => true
  }

  ghost function Do(io: Io, call: Call, refuses: bool): Io
    requires CanDo(io, call)
  {
    match call
    case Add(fd, e, t) => AddEvent(io, fd, e, t, refuses).0
    case Delete(fd, e) => DelEvent(io, fd, e, refuses).0
    case Cancel(fd, e) => CancelEvent(io, fd, e, refuses).0
    case CancelEverything(fd) => CancelAll(io, fd, refuses).0
    case Readiness(fd, r) => Ready(io, fd, r, refuses).0
  }

  lemma DoInv(io: Io, call: Call, refuses: bool)
    requires Inv(io) && CanDo(io, call)
    ensures Inv(Do(io, call, refuses))
  {
    match call {
      case Add(fd, e, t) => AddInv(io, fd, e, t, refuses);
      case Delete(fd, e) => DelInv(io, fd, e, refuses);
      case Cancel(fd, e) => CancelInv(io, fd, e, refuses);
      case CancelEverything(fd) => CancelAllInv(io, fd, refuses);
      case Readiness(fd, r) => ReadyInv(io, fd, r, refuses); AssertionFailsExactly(io, fd, r, refuses);
    }
  }

  ghost predicate IsHistory(ios: seq<Io>, calls: seq<Call>, refusals: seq<bool>) {
    && |ios| == |calls| + 1 && |refusals| == |calls|
    && forall i {:trigger calls[i]} :: 0 <= i < |calls| ==>
         CanDo(ios[i], calls[i]) && ios[i + 1] == Do(ios[i], calls[i], refusals[i])
  }

  lemma {:induction false} HistoryInv(ios: seq<Io>, calls: seq<Call>, refusals: seq<bool>, n: nat)
    requires IsHistory(ios, calls, refusals) && Init(ios[0]) && n < |ios|
    ensures Inv(ios[n])
  {
    if n == 0 {
      InitInv(ios[0]);
    } else {
      HistoryInv(ios, calls, refusals, n - 1);
      DoInv(ios[n - 1], calls[n - 1], refusals[n - 1]);
    }
  }

  /** At every moment of every history: the pending count is the number of registered bits; a bit is set
      exactly when its context is filled; the kernel's interest map is the table; and every registration has
      ended exactly once, by firing or by deletion, unless it is still in the table. */
  lemma EventsAreConserved(ios: seq<Io>, calls: seq<Call>, refusals: seq<bool>, n: nat, r: Registration)
    requires IsHistory(ios, calls, refusals) && Init(ios[0]) && n < |ios|
    ensures var io := ios[n]; var on := r.fd < |io.table| && On(io.table[r.fd].events, r.event);
            && io.pending == Total(io.table)
            && (r.fd < |io.table| ==> (on <==> Context(io.table[r.fd], r.event) != Vacant))
            && (r.fd in io.kernel <==> r.fd < |io.table| && Any(io.table[r.fd].events))
            && (r.fd in io.kernel ==> io.kernel[r.fd] == io.table[r.fd].events)
            && io.added[r] == multiset(io.fired)[r] + io.deleted[r] + (if Registered(io.table, r) then 1 else 0)
  {
    HistoryInv(ios, calls, refusals, n);
  }

  /** What the scheduler got over a history are the targets of the registrations that fired, one by one. */
  lemma SchedulingsAreFirings(ios: seq<Io>, calls: seq<Call>, refusals: seq<bool>, n: nat)
    requires IsHistory(ios, calls, refusals) && Init(ios[0]) && n < |ios|
    ensures var io := ios[n];
            |io.scheduled| == |io.fired| && forall i :: 0 <= i < |io.fired| ==> io.scheduled[i] == io.fired[i].target
  {
    HistoryInv(ios, calls, refusals, n);
  }

  // ----- what the operations do, event by event

  /** Who is registered for an event of a descriptor, if anybody. */
  function Watcher(io: Io, fd: nat, e: Event): Target { WatcherIn(io.table, fd, e) }

  function WatcherIn(table: seq<FdContext>, fd: nat, e: Event): Target {
    if fd >= |table| then Vacant
    else
      match e
      case READ => if table[fd].events.read then table[fd].read else Vacant
      case WRITE => if table[fd].events.write then table[fd].write else Vacant
  }

  ghost predicate OthersWatch(io: Io, next: Io, fd: nat, e: Event) {
    forall k: nat, x: Event :: k != fd || x != e ==> Watcher(next, k, x) == Watcher(io, k, x)
  }

  ghost predicate SameWatchers(io: Io, next: Io) {
    forall k: nat, x: Event :: Watcher(next, k, x) == Watcher(io, k, x)
  }

  lemma FitWatches(io: Io, fd: nat)
    requires Inv(io)
    ensures SameWatchers(io, io.(table := Fit(io.table, fd)))
  {
  }

  lemma RegisterAnswers(io: Io, fd: nat, e: Event, t: Target, refuses: bool)
    requires Inv(io) && fd < |io.table| && t != Vacant
    ensures var (next, ok) := Register(io, fd, e, t, refuses);
            && next.scheduled == io.scheduled
            && (ok <==> !refuses && Watcher(io, fd, e) == Vacant)
            && (ok ==> Watcher(next, fd, e) == t && OthersWatch(io, next, fd, e))
            && (!ok ==> next == io)
  {
    RequestsAreLegal(io, fd, e);
  }

  /** After a successful `addEvent` exactly this event is watched by the given target; after a failed one nothing
      is different. Nobody is scheduled. */
  lemma AddAnswers(io: Io, fd: int, e: Event, t: Target, refuses: bool)
    requires Inv(io) && t != Vacant
    ensures var (next, ok) := AddEvent(io, fd, e, t, refuses);
            && next.scheduled == io.scheduled
            && (ok <==> fd >= 0 && !refuses && Watcher(io, fd, e) == Vacant)
            && (ok ==> Watcher(next, fd, e) == t && OthersWatch(io, next, fd, e))
            && (!ok ==> SameWatchers(io, next))
  {
    if fd >= 0 {
      var fit := io.(table := Fit(io.table, fd));
      FitInv(io, fd);
      FitWatches(io, fd);
      RegisterAnswers(fit, fd, e, t, refuses);
      assert Watcher(fit, fd, e) == Watcher(io, fd, e);
      forall k: nat, x: Event
        ensures Watcher(fit, k, x) == Watcher(io, k, x)
      {
      }
    }
  }

  /** Resetting a registration ends this one and no other. */
  lemma ResetWatch(table: seq<FdContext>, fd: nat, e: Event)
    requires fd < |table|
    ensures var table' := table[fd := Reset(table[fd], e)];
            && WatcherIn(table', fd, e) == Vacant
            && forall k: nat, x: Event :: k != fd || x != e ==> WatcherIn(table', k, x) == WatcherIn(table, k, x)
  {
  }

  lemma WatchedIsOn(io: Io, fd: nat, e: Event)
    requires Inv(io)
    ensures Watcher(io, fd, e) != Vacant <==> fd < |io.table| && On(io.table[fd].events, e)
    ensures Watcher(io, fd, e) != Vacant ==> Watcher(io, fd, e) == Context(io.table[fd], e)
  {
  }

  /** After a successful `delEvent` exactly this event is not watched any more, and nobody is scheduled. */
  lemma DelAnswers(io: Io, fd: nat, e: Event, refuses: bool)
    requires Inv(io)
    ensures var (next, ok) := DelEvent(io, fd, e, refuses);
            && next.scheduled == io.scheduled
            && (ok <==> !refuses && Watcher(io, fd, e) != Vacant)
            && (ok ==> Watcher(next, fd, e) == Vacant && OthersWatch(io, next, fd, e))
            && (!ok ==> next == io)
  {
    WatchedIsOn(io, fd, e);
    DelInv(io, fd, e, refuses);
    if Watcher(io, fd, e) != Vacant && !refuses {
      var next := DelEvent(io, fd, e, refuses).0;
      ResetWatch(io.table, fd, e);
      assert next.table == io.table[fd := Reset(io.table[fd], e)];
    }
  }

  /** `cancelEvent` does the same, and schedules exactly the target that was registered. */
  lemma CancelAnswers(io: Io, fd: nat, e: Event, refuses: bool)
    requires Inv(io)
    ensures var (next, ok) := CancelEvent(io, fd, e, refuses);
            && (ok <==> !refuses && Watcher(io, fd, e) != Vacant)
            && (ok ==>
                  && next.scheduled == io.scheduled + [Watcher(io, fd, e)]
                  && Watcher(next, fd, e) == Vacant && OthersWatch(io, next, fd, e))
            && (!ok ==> next == io)
  {
    WatchedIsOn(io, fd, e);
    CancelInv(io, fd, e, refuses);
    if Watcher(io, fd, e) != Vacant && !refuses {
      var next := CancelEvent(io, fd, e, refuses).0;
      ResetWatch(io.table, fd, e);
      assert next.table == io.table[fd := Reset(io.table[fd], e)];
    }
  }

  function OrNobody(t: Target): seq<Target> { if t == Vacant then [] else [t] }

  /** Both triggers end what they are for, and nothing else. */
  lemma BothWatch(io: Io, fd: nat, events: Mask)
    requires fd < |io.table|
    requires (events.read ==> io.table[fd].events.read) && (events.write ==> io.table[fd].events.write)
    ensures var next := TriggerBoth(io, fd, events);
            && Watcher(next, fd, READ) == (if events.read then Vacant else Watcher(io, fd, READ))
            && Watcher(next, fd, WRITE) == (if events.write then Vacant else Watcher(io, fd, WRITE))
            && forall k: nat, x: Event :: k != fd ==> Watcher(next, k, x) == Watcher(io, k, x)
  {
    BothReach(io, fd, events);
  }

  /** `cancelAll` schedules the reader, then the writer, of this descriptor, and no other descriptor changes. */
  lemma CancelAllAnswers(io: Io, fd: nat, refuses: bool)
    requires Inv(io)
    ensures var (next, ok) := CancelAll(io, fd, refuses);
            && (ok <==> !refuses && (Watcher(io, fd, READ) != Vacant || Watcher(io, fd, WRITE) != Vacant))
            && (!ok ==> next == io)
    ensures var (next, ok) := CancelAll(io, fd, refuses);
            ok ==>
              && next.scheduled == io.scheduled + OrNobody(Watcher(io, fd, READ)) + OrNobody(Watcher(io, fd, WRITE))
              && Watcher(next, fd, READ) == Watcher(next, fd, WRITE) == Vacant
              && forall k: nat, x: Event :: k != fd ==> Watcher(next, k, x) == Watcher(io, k, x)
  {
    CancelAllInv(io, fd, refuses);
    if CancelAll(io, fd, refuses).1 {
      CancelAllWatch(io, fd);
    }
  }

  lemma CancelAllWatch(io: Io, fd: nat)
    requires Inv(io) && fd < |io.table| && Any(io.table[fd].events)
    ensures var (next, ok) := CancelAll(io, fd, false);
            && next.scheduled == io.scheduled + OrNobody(Watcher(io, fd, READ)) + OrNobody(Watcher(io, fd, WRITE))
            && Watcher(next, fd, READ) == Watcher(next, fd, WRITE) == Vacant
            && forall k: nat, x: Event :: k != fd ==> Watcher(next, k, x) == Watcher(io, k, x)
  {
    CancelAllDone(io, fd);
    var told := io.(kernel := io.kernel - {fd});
    BothWatch(told, fd, io.table[fd].events);
  }

  /** Whom a readiness report wakes: the reader exactly if reading is registered and the report says readable,
      error or hang-up, then the writer likewise; those registrations end, and no others. */
  lemma ReadyAnswers(io: Io, fd: nat, r: Report, refuses: bool)
    requires Inv(io) && fd < |io.table| && !Clashes(io.table[fd], r)
    ensures var (next, outcome) := Ready(io, fd, r, refuses); var c := io.table[fd];
            var read := c.events.read && (r.input || r.error || r.hangup);
            var write := c.events.write && (r.output || r.error || r.hangup);
            && (outcome == Skipped <==> !read && !write)
            && (outcome == CtlFailed <==> (read || write) && refuses)
            && (outcome == Fired <==> (read || write) && !refuses)
            && (outcome != Fired ==> next == io)
            && (outcome == Fired ==>
                  && next.scheduled
                  == io.scheduled + (if read then [c.read] else []) + (if write then [c.write] else [])
                  && Watcher(next, fd, READ) == (if read then Vacant else Watcher(io, fd, READ))
                  && Watcher(next, fd, WRITE) == (if write then Vacant else Watcher(io, fd, WRITE))
                  && forall k: nat, x: Event :: k != fd ==> Watcher(next, k, x) == Watcher(io, k, x))
  {
    AssertionFailsExactly(io, fd, r, refuses);
    ReadyOutcome(io, fd, r, refuses);
    if Ready(io, fd, r, refuses).1 == Fired {
      ReadyWatch(io, fd, r);
    }
  }

  lemma ReadyOutcome(io: Io, fd: nat, r: Report, refuses: bool)
    requires Inv(io) && fd < |io.table| && Ready(io, fd, r, refuses).1 != AssertionFails
    ensures var (next, outcome) := Ready(io, fd, r, refuses); var c := io.table[fd];
            && (outcome == Skipped <==> !ReadDue(c, r) && !WriteDue(c, r))
            && (outcome == CtlFailed <==> (ReadDue(c, r) || WriteDue(c, r)) && refuses)
            && (outcome != Fired ==> next == io)
  {
    RequestsAreLegal(io, fd, READ);
    RequestsAreLegal(io, fd, WRITE);
  }

  lemma ReadyWatch(io: Io, fd: nat, r: Report)
    requires Inv(io) && fd < |io.table| && Ready(io, fd, r, false).1 == Fired
    ensures var next := Ready(io, fd, r, false).0; var c := io.table[fd];
            && next.scheduled
            == io.scheduled + (if ReadDue(c, r) then [c.read] else []) + (if WriteDue(c, r) then [c.write] else [])
            && Watcher(next, fd, READ) == (if ReadDue(c, r) then Vacant else Watcher(io, fd, READ))
            && Watcher(next, fd, WRITE) == (if WriteDue(c, r) then Vacant else Watcher(io, fd, WRITE))
            && forall k: nat, x: Event :: k != fd ==> Watcher(next, k, x) == Watcher(io, k, x)
  {
    var told := FiredIs(io, fd, r);
    var due := Mask(ReadDue(io.table[fd], r), WriteDue(io.table[fd], r));
    BothWatch(told, fd, due);
    BothReach(told, fd, due);
  }

  lemma FiredIs(io: Io, fd: nat, r: Report) returns (told: Io)
    requires fd < |io.table| && Ready(io, fd, r, false).1 == Fired
    ensures told.table == io.table && told.scheduled == io.scheduled
    ensures var c := io.table[fd];
            Ready(io, fd, r, false).0 == TriggerBoth(told, fd, Mask(ReadDue(c, r), WriteDue(c, r)))
  {
    var c := io.table[fd];
    var actual := Actual(c, r);
    var left := Mask(c.events.read && !actual.read, c.events.write && !actual.write);
    told := io.(kernel := Ctl(io.kernel, if Any(left) then MOD else DEL, fd, left, false).0);
    assert actual == Mask(ReadDue(c, r), WriteDue(c, r));
  }
}

/**
 The hydration group admission as a state machine on values.

 One unbound worker reservation or one shared group may be admitted at a time.
 Requests for the active group's key join it; everything else waits in two
 FIFO queues, and when both wait the roles take turns.  `State` holds the
 allocator's own fields plus three histories that no operation reads:
 how many requests each role made, how many fresh (non-join) admissions each
 role received, and how each request was settled.
 */
module AdmissionSpec {
  import opened Prelude

  datatype Role = WorkerRole | ClassifierRole

  datatype FailureCode = InvalidClock | CounterOverflow

  /** A pending request; `id` stands for the waiter's object identity and grows with every request. */
  datatype Waiter = Waiter(id: nat, role: Role, key: Option<string>, worker: Option<nat>, startedAt: real)

  datatype TicketState = Unbound | Bound | Released

  /** A permit; `key` is the group it was asked for or bound to. */
  datatype Ticket = Ticket(state: TicketState, worker: Option<nat>, key: Option<string>)

  datatype Outstanding = Idle | Waiting(waiter: nat) | Holding(ticket: nat)

  datatype WorkerEntry = WorkerEntry(open: bool, outstanding: Outstanding)

  datatype Group = Group(key: string, references: set<nat>)

  datatype Settlement = Granted | Cancelled | Refused(code: FailureCode)

  /** Every worker ever registered, and which of them are still registered. */
  datatype Pool = Pool(workers: map<nat, WorkerEntry>, registered: set<nat>)

  /** One role's queue and statistics. */
  datatype Side = Side(queue: seq<Waiter>, grants: nat, cancellations: nat,
                       lastWait: Option<nat>, maximumWait: Option<nat>, requests: nat)

  /** What is admitted: the reservation or the group, and every permit issued so far. */
  datatype Held = Held(unbound: Option<nat>, group: Option<Group>, tickets: map<nat, Ticket>)

  datatype Turn = Turn(next: Role, freshWorkers: nat, freshClassifiers: nat)

  datatype Life = Life(lastNow: Option<real>, failure: Option<FailureCode>, closed: bool)

  datatype Peaks = Peaks(pendingWorkers: nat, pendingClassifierGroups: nat, admitted: nat)

  datatype Ids = Ids(next: nat, settled: map<nat, Settlement>)

  datatype State = State(pool: Pool, worker: Side, classifier: Side, held: Held, turn: Turn, life: Life,
                         peaks: Peaks, ids: Ids)

  const NoSide := Side([], 0, 0, None, None, 0)

  const Initial := State(Pool(map[], {}), NoSide, NoSide, Held(None, None, map[]), Turn(WorkerRole, 0, 0),
                         Life(None, None, false), Peaks(0, 0, 0), Ids(0, map[]))

  predicate Failed(s: State) {
    s.life.failure.Some?
  }

  predicate IsIdle(h: Held) {
    h.unbound.None? && h.group.None?
  }

  // ---------------------------------------------------------------- queues

  function SideOf(s: State, role: Role): Side {
    if role.WorkerRole? then s.worker else s.classifier
  }

  function WithSide(s: State, role: Role, side: Side): State {
    if role.WorkerRole? then s.(worker := side) else s.(classifier := side)
  }

  /** The position of the waiter with this identity, or the queue's length when it is not queued. */
  function Position(q: seq<Waiter>, id: nat): (p: nat)
    ensures p <= |q|
    ensures p < |q| ==> q[p].id == id
    ensures forall i :: 0 <= i < p ==> q[i].id != id
  {
    if q == [] then 0 else if q[0].id == id then 0 else 1 + Position(q[1..], id)
  }

  predicate Queued(q: seq<Waiter>, id: nat) {
    Position(q, id) < |q|
  }

  function Without(q: seq<Waiter>, id: nat): seq<Waiter> {
    var p := Position(q, id);
    if p < |q| then q[..p] + q[p + 1..] else q
  }

  /** Sets a worker's outstanding item; a request without a worker changes nothing. */
  function Assign(p: Pool, worker: Option<nat>, item: Outstanding): Pool {
    if worker.Some? && worker.value in p.workers
    then p.(workers := p.workers[worker.value := p.workers[worker.value].(outstanding := item)])
    else p
  }

  /** Clears a worker's outstanding item if it still is this one. */
  function Clear(p: Pool, worker: Option<nat>, item: Outstanding): Pool {
    if worker.Some? && worker.value in p.workers && p.workers[worker.value].outstanding == item
    then Assign(p, worker, Idle)
    else p
  }

  function Unregister(p: Pool, which: set<nat>): Pool {
    Pool(map w | w in p.workers :: if w in which then p.workers[w].(open := false) else p.workers[w],
         p.registered - which)
  }

  // ------------------------------------------------------- failing closed

  /** The waiter leaves its queue with this settlement. */
  function Dismiss(s: State, w: Waiter, how: Settlement): State {
    var side := SideOf(s, w.role);
    WithSide(s, w.role, side.(queue := Without(side.queue, w.id)))
    .(pool := Clear(s.pool, w.worker, Waiting(w.id)), ids := s.ids.(settled := s.ids.settled[w.id := how]))
  }

  function RefuseAll(s: State, waiters: seq<Waiter>, code: FailureCode): (r: State)
    ensures r.life == s.life
    decreases |waiters|
  {
    if waiters == [] then s else RefuseAll(Dismiss(s, waiters[0], Refused(code)), waiters[1..], code)
  }

  function Fail(s: State, code: FailureCode): (r: State)
    ensures Failed(r)
  {
    var first := if Failed(s) then s.life.failure.value else code;
    var s1 := s.(life := s.life.(failure := Some(first), closed := true), pool := Unregister(s.pool, s.pool.registered));
    RefuseAll(s1, s1.worker.queue + s1.classifier.queue, first)
  }

  /** A clock sample: `None` is a throwing, NaN or infinite clock. */
  function ReadClock(s: State, sample: Option<real>): (r: State)
    ensures !Failed(r) ==> r.life.lastNow.Some? && r.life.lastNow == sample
  {
    if Failed(s) then s
    else if sample.None? || (s.life.lastNow.Some? && sample.value < s.life.lastNow.value) then Fail(s, InvalidClock)
    else s.(life := s.life.(lastNow := sample))
  }

  function Elapsed(now: real, startedAt: real): Option<nat> {
    var e := (now - startedAt).Floor;
    if 0 <= e <= MAX_SAFE then Some(e) else None
  }

  predicate CanIncrement(value: nat) {
    value < MAX_SAFE
  }

  function Waited(side: Side, elapsed: nat): Side {
    side.(lastWait := Some(elapsed),
          maximumWait := Some(if side.maximumWait.Some? && side.maximumWait.value > elapsed
                              then side.maximumWait.value else elapsed))
  }

  // ------------------------------------------------ granting and dispatch

  /** The group a keyed grant lands in, before its own reference is added. */
  function GroupFor(h: Held, key: string): Group {
    if h.group.Some? then h.group.value else Group(key, {})
  }

  function Admit(h: Held, w: Waiter): Held {
    if w.key.None? then h.(unbound := Some(w.id), tickets := h.tickets[w.id := Ticket(Unbound, w.worker, None)])
    else
      var g := GroupFor(h, w.key.value);
      h.(group := Some(g.(references := g.references + {w.id})), tickets := h.tickets[w.id := Ticket(Bound, w.worker, w.key)])
  }

  function CountGrant(s: State, w: Waiter, elapsed: nat): State {
    var side := SideOf(s, w.role);
    WithSide(s, w.role, Waited(side.(grants := side.grants + 1, queue := Without(side.queue, w.id)), elapsed))
    .(pool := Assign(s.pool, w.worker, Holding(w.id)))
  }

  function Grant(s: State, w: Waiter, now: real): State {
    var e := Elapsed(now, w.startedAt);
    if e.None? then Fail(s, InvalidClock)
    else if !CanIncrement(SideOf(s, w.role).grants) then Fail(s, CounterOverflow)
    else
      var s1 := CountGrant(s, w, e.value);
      if w.key.Some? && !CanIncrement(|GroupFor(s.held, w.key.value).references|)
      then Fail(s1.(held := s1.held.(group := Some(GroupFor(s.held, w.key.value)))), CounterOverflow)
      else s1.(held := Admit(s.held, w), peaks := s.peaks.(admitted := 1),
               ids := s.ids.(settled := s.ids.settled[w.id := Granted]))
  }

  /** Grants a snapshot of waiters in order, stopping at the first failure. */
  function GrantAll(s: State, waiters: seq<Waiter>, now: real): State
    decreases |waiters|
  {
    if waiters == [] || Failed(s) then s else GrantAll(Grant(s, waiters[0], now), waiters[1..], now)
  }

  /** Grants those of a snapshot whose key is the active group's. */
  function JoinAll(s: State, waiters: seq<Waiter>, now: real): State
    decreases |waiters|
  {
    if waiters == [] || Failed(s) || s.held.group.None? then s
    else if waiters[0].key == Some(s.held.group.value.key) then JoinAll(Grant(s, waiters[0], now), waiters[1..], now)
    else JoinAll(s, waiters[1..], now)
  }

  function JoinClassifiers(s: State, now: real): State {
    if Failed(s) || s.held.group.None? then s
    else if s.classifier.queue != [] && s.classifier.queue[0].key == Some(s.held.group.value.key)
    then GrantAll(s, s.classifier.queue, now)
    else s
  }

  function DispatchJoins(s: State, now: real): State {
    JoinClassifiers(JoinAll(s, s.worker.queue, now), now)
  }

  predicate Contested(s: State) {
    s.worker.queue != [] && s.classifier.queue != []
  }

  /** The role of the next fresh admission when at least one queue is not empty. */
  function NextRole(s: State): Role {
    if Contested(s) then s.turn.next else if s.worker.queue != [] then WorkerRole else ClassifierRole
  }

  function Other(role: Role): Role {
    if role.WorkerRole? then ClassifierRole else WorkerRole
  }

  function TakeTurn(s: State): State {
    var role := NextRole(s);
    s.(turn := Turn(if Contested(s) then Other(role) else s.turn.next,
                    s.turn.freshWorkers + (if role.WorkerRole? then 1 else 0),
                    s.turn.freshClassifiers + (if role.WorkerRole? then 0 else 1)))
  }

  function DispatchFresh(s: State, now: real): State {
    if s.worker.queue != [] && NextRole(s).WorkerRole? then Grant(TakeTurn(s), s.worker.queue[0], now)
    else GrantAll(TakeTurn(s), s.classifier.queue, now)
  }

  function Dispatch(s: State, now: real): State {
    if s.life.closed || s.held.unbound.Some? then s
    else if s.held.group.Some? then DispatchJoins(s, now)
    else if s.worker.queue == [] && s.classifier.queue == [] then s
    else
      var s1 := DispatchFresh(s, now);
      // The grant installed an unbound ticket (nothing more to do) or a group (joins only).
      if s1.life.closed || s1.held.unbound.Some? then s1 else DispatchJoins(s1, now)
  }

  function CountCancellation(s: State, role: Role, elapsed: nat): State {
    var side := SideOf(s, role);
    WithSide(s, role, Waited(side.(cancellations := side.cancellations + 1), elapsed))
  }

  function Cancel(s: State, w: Waiter, now: real): State {
    if !Queued(SideOf(s, w.role).queue, w.id) then s
    else
      var e := Elapsed(now, w.startedAt);
      if e.None? then Fail(s, InvalidClock)
      else if !CanIncrement(SideOf(s, w.role).cancellations) then Fail(s, CounterOverflow)
      else Dispatch(Dismiss(CountCancellation(s, w.role, e.value), w, Cancelled), now)
  }

  function CancelAll(s: State, waiters: seq<Waiter>, now: real): State
    decreases |waiters|
  {
    if waiters == [] || Failed(s) then s else CancelAll(Cancel(s, waiters[0], now), waiters[1..], now)
  }

  function CountRequest(s: State, role: Role): State {
    var side := SideOf(s, role);
    WithSide(s, role, side.(requests := side.requests + 1))
  }

  function Enqueue(s: State, w: Waiter): State {
    var side := SideOf(s, w.role);
    WithSide(s, w.role, side.(queue := side.queue + [w], requests := side.requests + 1))
    .(pool := Assign(s.pool, w.worker, Waiting(w.id)), ids := s.ids.(next := s.ids.next + 1))
  }

  function Raise(p: Peaks, workers: nat, classifiers: nat): Peaks {
    p.(pendingWorkers := Max(p.pendingWorkers, workers),
       pendingClassifierGroups := Max(p.pendingClassifierGroups, if classifiers == 0 then 0 else 1))
  }

  /** The new waiter joins its group at once or waits for a dispatch. */
  function Place(s: State, w: Waiter, now: real): State {
    if w.key.Some? && s.held.group.Some? && s.held.group.value.key == w.key.value then Grant(s, w, now)
    else Dispatch(s, now)
  }

  function Request(s: State, role: Role, key: Option<string>, worker: Option<nat>, aborted: bool, now: real): State {
    if aborted then
      if !CanIncrement(SideOf(s, role).cancellations) then Fail(CountRequest(s, role), CounterOverflow)
      else CountCancellation(CountRequest(s, role), role, 0)
    else
      var w := Waiter(s.ids.next, role, key, worker, now);
      var s1 := Place(Enqueue(s, w), w, now);
      if Failed(s1) then s1 else s1.(peaks := Raise(s1.peaks, |s1.worker.queue|, |s1.classifier.queue|))
  }

  // ---------------------------------------------------- public operations

  /** What the caller sees at once; a `Promise` settles later as recorded in `settled`. */
  datatype Reply =
    | Done
    | Handle(worker: nat)
    | Promise(waiter: nat)
    | Null
    | FailedClosed
    | ErrClosed
    | ErrInvalidKey
    | ErrInvalidPermit
    | ErrWorkerOutstanding
    | ErrPendingGroupConflict

  datatype Event =
    | RegisterWorker(clock: Option<real>)
    | AcquireWorker(worker: nat, key: Option<string>, aborted: bool, clock: Option<real>)
    | AcquireClassifier(groupKey: string, aborted: bool, clock: Option<real>)
    | BindGroup(ticket: nat, groupKey: string, clock: Option<real>)
    | Release(ticket: nat, clock: Option<real>)
    | Abort(waiter: Waiter, clock: Option<real>)
    | CloseWorker(worker: nat, clock: Option<real>)
    | Close(clock: Option<real>)

  function Register(s: State): State {
    s.(pool := Pool(s.pool.workers[s.ids.next := WorkerEntry(true, Idle)], s.pool.registered + {s.ids.next}),
       ids := s.ids.(next := s.ids.next + 1))
  }

  function DoRegister(s: State, clock: Option<real>): (State, Reply) {
    var s1 := ReadClock(s, clock);
    if Failed(s1) then (s1, FailedClosed)
    else if s1.life.closed then (s1, ErrClosed)
    else if !CanIncrement(|s1.pool.registered|) then (Fail(s1, CounterOverflow), FailedClosed)
    else (Register(s1), Handle(s1.ids.next))
  }

  function Answer(s: State, aborted: bool, id: nat): Reply {
    if Failed(s) then FailedClosed else if aborted then Null else Promise(id)
  }

  function DoAcquireWorker(s: State, worker: nat, key: Option<string>, aborted: bool, clock: Option<real>): (State,
                           Reply) {
    var s1 := ReadClock(s, clock);
    if Failed(s1) then (s1, FailedClosed)
    else if s1.life.closed || worker !in s1.pool.workers || !s1.pool.workers[worker].open then (s1, Null)
    else if key == Some("") then (s1, ErrInvalidKey)
    else if s1.pool.workers[worker].outstanding != Idle then (s1, ErrWorkerOutstanding)
    else
      var s2 := Request(s1, WorkerRole, key, Some(worker), aborted, s1.life.lastNow.value);
      (s2, Answer(s2, aborted, s1.ids.next))
  }

  /** A classifier request for another key than the pending classifiers' is refused. */
  predicate Conflicts(s: State, key: string) {
    && !(s.held.group.Some? && s.held.group.value.key == key)
    && s.classifier.queue != [] && s.classifier.queue[0].key != Some(key)
  }

  function DoAcquireClassifier(s: State, key: string, aborted: bool, clock: Option<real>): (State, Reply) {
    var s1 := ReadClock(s, clock);
    if Failed(s1) then (s1, FailedClosed)
    else if s1.life.closed then (s1, Null)
    else if key == "" then (s1, ErrInvalidKey)
    else if !aborted && Conflicts(s1, key) then (s1, ErrPendingGroupConflict)
    else
      var s2 := Request(s1, ClassifierRole, Some(key), None, aborted, s1.life.lastNow.value);
      (s2, Answer(s2, aborted, s1.ids.next))
  }

  function Bind(h: Held, ticket: nat, key: string): Held
    requires ticket in h.tickets
  {
    Held(None, Some(Group(key, {ticket})), h.tickets[ticket := h.tickets[ticket].(state := Bound, key := Some(key))])
  }

  function DoBind(s: State, ticket: nat, key: string, clock: Option<real>): (State, Reply) {
    if ticket !in s.held.tickets || s.held.tickets[ticket].state != Unbound || s.held.unbound != Some(ticket)
    then (s, ErrInvalidPermit)
    else if key == "" then (s, ErrInvalidKey)
    else
      var s1 := ReadClock(s, clock);
      if Failed(s1) then (s1, FailedClosed)
      else
        var s2 := Dispatch(s1.(held := Bind(s.held, ticket, key)), s1.life.lastNow.value);
        (s2, if Failed(s2) then FailedClosed else Done)
  }

  /** The ticket leaves the reservation or the group; nothing else is admitted yet. */
  function Detach(h: Held, ticket: nat): Held
    requires ticket in h.tickets
  {
    var t := h.tickets[ticket];
    var tickets := h.tickets[ticket := t.(state := Released)];
    if t.state.Unbound? then Held(None, h.group, tickets)
    else if h.group.None? then h.(tickets := tickets)
    else
      var refs := h.group.value.references - {ticket};
      Held(h.unbound, if refs == {} then None else Some(h.group.value.(references := refs)), tickets)
  }

  function DoRelease(s: State, ticket: nat, clock: Option<real>): (State, Reply) {
    if ticket !in s.held.tickets || s.held.tickets[ticket].state == Released then (s, Done)
    else
      var s1 := s.(held := Detach(s.held, ticket), pool := Clear(s.pool, s.held.tickets[ticket].worker, Holding(ticket)));
      if s1.life.closed then (s1, Done)
      else
        var s2 := ReadClock(s1, clock);
        if Failed(s2) then (s2, FailedClosed)
        else
          var s3 := Dispatch(s2, s2.life.lastNow.value);
          (s3, if Failed(s3) then FailedClosed else Done)
  }

  function DoAbort(s: State, w: Waiter, clock: Option<real>): (State, Reply) {
    // The listener is removed with the waiter, so an abort of a settled request does nothing.
    if w !in SideOf(s, w.role).queue then (s, Done)
    else
      var s1 := ReadClock(s, clock);
      if Failed(s1) then (s1, Done) else (Cancel(s1, w, s1.life.lastNow.value), Done)
  }

  /** The position of the first waiter of this worker, or the queue's length. */
  function WaiterOf(q: seq<Waiter>, worker: nat): (p: nat)
    ensures p <= |q|
    ensures p < |q| ==> q[p].worker == Some(worker)
    ensures forall i :: 0 <= i < p ==> q[i].worker != Some(worker)
  {
    if q == [] then 0 else if q[0].worker == Some(worker) then 0 else 1 + WaiterOf(q[1..], worker)
  }

  function DoCloseWorker(s: State, worker: nat, clock: Option<real>): (State, Reply) {
    if worker !in s.pool.workers || !s.pool.workers[worker].open then (s, Done)
    else
      var s1 := ReadClock(s, clock);
      if Failed(s1) then (s1, FailedClosed)
      else
        var s2 := s1.(pool := Unregister(s1.pool, {worker}));
        var p := WaiterOf(s2.worker.queue, worker);
        var s3 := if p < |s2.worker.queue| then Cancel(s2, s2.worker.queue[p], s1.life.lastNow.value) else s2;
        (s3, if Failed(s3) then FailedClosed else Done)
  }

  function DoClose(s: State, clock: Option<real>): (State, Reply) {
    if s.life.closed then (s, Done)
    else
      var s1 := ReadClock(s, clock);
      if Failed(s1) then (s1, FailedClosed)
      else
        var s2 := s1.(life := s1.life.(closed := true), pool := Unregister(s1.pool, s1.pool.registered));
        var s3 := CancelAll(s2, s2.worker.queue + s2.classifier.queue, s1.life.lastNow.value);
        (s3, if Failed(s3) then FailedClosed else Done)
  }

  function Step(s: State, e: Event): State {
    match e
    case RegisterWorker(clock) => DoRegister(s, clock).0
    case AcquireWorker(worker, key, aborted, clock) => DoAcquireWorker(s, worker, key, aborted, clock).0
    case AcquireClassifier(key, aborted, clock) => DoAcquireClassifier(s, key, aborted, clock).0
    case BindGroup(ticket, key, clock) => DoBind(s, ticket, key, clock).0
    case Release(ticket, clock) => DoRelease(s, ticket, clock).0
    case Abort(w, clock) => DoAbort(s, w, clock).0
    case CloseWorker(worker, clock) => DoCloseWorker(s, worker, clock).0
    case Close(clock) => DoClose(s, clock).0
  }

  function Run(s: State, events: seq<Event>): State
    decreases |events|
  {
    if events == [] then s else Run(Step(s, events[0]), events[1..])
  }
}

/** Sending on a UDP socket: a bounded channel drained by one worker, readiness
    waiters, and a handle that closes before its queue does (internal/reactor/udp.go). */
module UdpSend {
  import opened Core

  type Ref = Serial

  const CAPACITY := 64
  const MAX_PAYLOAD := 65535

  datatype Datagram = Datagram(data: seq<u8>, peer: nat)

  // Where the worker is in runUDPSends.
  datatype Worker =
    | Receiving
    | Announcing(datagram: Datagram)
    | Sending(datagram: Datagram)
    | Reporting(error: IoError)
    | Exiting
    | Gone

  /** The send fields of datagramState.  `stopped` says that the channel is closed,
      `shut` that the socket is, `forced` that closeNow shut it; `accepted` and
      `attempted` record what TryUDPSend took and what WriteTo was called with. */
  datatype Side = Side(
    handle: Handle,
    queue: seq<Datagram>,
    stopped: bool,
    err: Option<IoError>,
    worker: Worker,
    shut: bool,
    forced: bool,
    accepted: seq<Datagram>,
    attempted: seq<Datagram>)

  function NewSide(handle: Handle): Side {
    Side(handle, [], false, None, Receiving, false, false, [], [])
  }

  function Accept(d: Side, g: Datagram): Side {
    d.(queue := d.queue + [g], accepted := d.accepted + [g])
  }

  // One receive from the channel; on a closed and empty channel the range loop ends.
  function Dequeue(d: Side): Side {
    if d.worker != Receiving then d
    else if d.queue != [] then d.(queue := d.queue[1..], worker := Announcing(d.queue[0]))
    else if d.stopped then d.(worker := Exiting, shut := true)
    else d
  }

  function Attempt(d: Side, err: Option<IoError>): Side {
    if !d.worker.Sending? then d
    else d.(attempted := d.attempted + [d.worker.datagram],
            worker := if err.Some? then Reporting(err.value) else Receiving)
  }

  // closeAfterQueuedSends
  function StopAfterQueue(d: Side): Side {
    d.(stopped := true)
  }

  // closeNow
  function StopNow(d: Side): Side {
    d.(stopped := true, shut := true, forced := true)
  }

  // The datagram that has left the queue and has not been attempted.
  function InHand(d: Side): seq<Datagram> {
    if d.worker.Announcing? || d.worker.Sending? then [d.worker.datagram] else []
  }

  // ---------------------------------------------------------------- the whole table

  /** `stopping` and `forcing` are the sockets some thread has yet to stop, after a
      CloseHandle and after the Close of the reactor. */
  datatype State = State(
    base: Base,
    datagrams: map<Handle, Ref>,
    owners: map<Handle, Ref>,
    sides: map<Ref, Side>,
    draining: set<Ref>,
    stopping: set<Ref>,
    forcing: set<Ref>,
    waiters: map<OpId, Waiter>,
    seen: set<OpId>)

  const Init := State(Core.Fresh, map[], map[], map[], {}, {}, {}, map[], {})

  predicate Live(s: State, ref: Ref) {
    ref in s.sides && s.sides[ref].handle in s.datagrams && s.datagrams[s.sides[ref].handle] == ref
  }

  datatype SendResult = Accepted | Failed(error: CallError) | Broken(cause: IoError)

  function TrySend(s: State, handle: Handle, data: seq<u8>, peer: Option<nat>): (State, SendResult) {
    if peer == None || |data| > MAX_PAYLOAD then (s, Failed(Invalid))
    else if handle !in s.datagrams || s.datagrams[handle] !in s.sides then (s, Failed(Invalid))
    else
      var ref := s.datagrams[handle];
      var d := s.sides[ref];
      if d.err.Some? then (s, Broken(d.err.value))
      else if |d.queue| >= CAPACITY then (s, Failed(WouldBlock))
      else (s.(sides := s.sides[ref := Accept(d, Datagram(data, peer.value))]), Accepted)
  }

  predicate HasWaiter(s: State, handle: Handle) {
    exists op | op in s.waiters :: s.waiters[op].handle == handle
  }

  function Take(s: State, ref: Ref): State {
    if ref !in s.sides then s else s.(sides := s.sides[ref := Dequeue(s.sides[ref])])
  }

  // The critical section that follows a receive from the channel.
  function Announce(s: State, ref: Ref): State {
    if ref !in s.sides || !s.sides[ref].worker.Announcing? then s
    else
      var d := s.sides[ref];
      s.(base := Owe(s.base, HasWaiter(s, d.handle)),
         waiters := Wake(s.waiters, d.handle),
         sides := s.sides[ref := d.(worker := Sending(d.worker.datagram))])
  }

  function WriteTo(s: State, ref: Ref, err: Option<IoError>): State {
    if ref !in s.sides then s else s.(sides := s.sides[ref := Attempt(s.sides[ref], err)])
  }

  // The critical section that follows a failed send.
  function Report(s: State, ref: Ref): State {
    if ref !in s.sides || !s.sides[ref].worker.Reporting? then s
    else
      var d := s.sides[ref];
      var back := s.(sides := s.sides[ref := d.(worker := Receiving)]);
      if !Live(s, ref) then back
      else
        back.(base := Owe(s.base, HasWaiter(s, d.handle)),
              waiters := Wake(s.waiters, d.handle),
              sides := s.sides[ref := d.(worker := Receiving, err := Some(d.worker.error))])
  }

  // finishUDPSends
  function Exit(s: State, ref: Ref): State {
    if ref !in s.sides || s.sides[ref].worker != Exiting then s
    else s.(draining := s.draining - {ref}, sides := s.sides[ref := s.sides[ref].(worker := Gone)])
  }

  function StartReady(s: State, handle: Handle, op: OpId): (State, Option<CallError>) {
    if handle !in s.datagrams || s.datagrams[handle] !in s.sides then (s, Some(Invalid))
    else
      match Claim(s.base, op, UdpWrite)
      case None => (s, Some(Invalid))
      case Some(b) =>
        var d := s.sides[s.datagrams[handle]];
        var ready := |d.queue| < CAPACITY || d.err.Some?;
        (s.(base := Owe(b, ready), waiters := s.waiters[op := Waiter(handle, ready)]), None)
  }

  datatype ReadyResult = NotReady(error: CallError) | Ready | ReadyWith(cause: IoError)

  function TakeReady(s: State, op: OpId): (State, ReadyResult) {
    if op !in s.waiters || !Holds(s.base, op, UdpWrite) then (s, NotReady(Invalid))
    else if !s.waiters[op].ready then (s, NotReady(Pending))
    else
      var handle := s.waiters[op].handle;
      var t := s.(waiters := s.waiters - {op}, base := Release(s.base, op, UdpWrite));
      if handle !in s.datagrams || s.datagrams[handle] !in s.sides then (t, NotReady(Invalid))
      else
        match s.sides[s.datagrams[handle]].err
        case None => (t, Ready)
        case Some(e) => (t, ReadyWith(e))
  }

  function CancelReady(s: State, op: OpId): State {
    if op !in s.waiters || !Holds(s.base, op, UdpWrite) then s
    else s.(waiters := s.waiters - {op}, base := Release(s.base, op, UdpWrite))
  }

  function OpenDatagram(s: State, handle: Handle, ref: Ref): State {
    if s.base.closed || handle in s.owners || ref in s.sides then s
    else s.(datagrams := s.datagrams[handle := ref],
            owners := s.owners[handle := ref],
            sides := s.sides[ref := NewSide(handle)])
  }

  function CloseHandle(s: State, handle: Handle): State {
    if handle !in s.datagrams then s
    else s.(datagrams := s.datagrams - {handle},
            draining := s.draining + {s.datagrams[handle]},
            stopping := s.stopping + {s.datagrams[handle]})
  }

  function CloseAll(s: State): State {
    if s.base.closed then s
    else s.(base := s.base.(closed := true, operations := map[]),
            datagrams := map[],
            draining := {},
            forcing := s.forcing + s.datagrams.Values + s.draining,
            waiters := map[])
  }

  // The threads that closed a handle or the reactor stop the sockets after unlocking.
  function Stop(s: State, ref: Ref): State {
    if ref !in s.stopping || ref !in s.sides then s
    else s.(stopping := s.stopping - {ref}, sides := s.sides[ref := StopAfterQueue(s.sides[ref])])
  }

  function Force(s: State, ref: Ref): State {
    if ref !in s.forcing || ref !in s.sides then s
    else s.(forcing := s.forcing - {ref}, sides := s.sides[ref := StopNow(s.sides[ref])])
  }

  function Consume(s: State): State {
    if !s.base.token then s
    else s.(base := s.base.(token := false), seen := set op | op in s.waiters && s.waiters[op].ready)
  }

  function Prune(s: State): State {
    s.(seen := set op | op in s.seen && op in s.waiters && s.waiters[op].ready)
  }

  datatype Step =
    | DoTrySend(handle: Handle, data: seq<u8>, peer: Option<nat>)
    | DoTake(ref: Ref)
    | DoAnnounce(ref: Ref)
    | DoWriteTo(ref: Ref, err: Option<IoError>)
    | DoReport(ref: Ref)
    | DoExit(ref: Ref)
    | DoStartReady(handle: Handle, op: OpId)
    | DoTakeReady(op: OpId)
    | DoCancel(op: OpId)
    | DoOpen(handle: Handle, ref: Ref)
    | DoCloseHandle(handle: Handle)
    | DoCloseAll
    | DoStop(ref: Ref)
    | DoForce(ref: Ref)
    | DoSignal
    | DoConsume
    | Other(operations: map<OpId, Kind>, promised: nat)

  ghost function Act(s: State, e: Step): State {
    match e
    case DoTrySend(h, data, peer) => TrySend(s, h, data, peer).0
    case DoTake(ref) => Take(s, ref)
    case DoAnnounce(ref) => Announce(s, ref)
    case DoWriteTo(ref, err) => WriteTo(s, ref, err)
    case DoReport(ref) => Report(s, ref)
    case DoExit(ref) => Exit(s, ref)
    case DoStartReady(h, op) => StartReady(s, h, op).0
    case DoTakeReady(op) => TakeReady(s, op).0
    case DoCancel(op) => CancelReady(s, op)
    case DoOpen(h, ref) => OpenDatagram(s, h, ref)
    case DoCloseHandle(h) => CloseHandle(s, h)
    case DoCloseAll => CloseAll(s)
    case DoStop(ref) => Stop(s, ref)
    case DoForce(ref) => Force(s, ref)
    case DoSignal => s.(base := Pay(s.base))
    case DoConsume => Consume(s)
    case Other(ops, promised) => s.(base := Interfere(UdpWrite, s.base, ops, promised))
  }

  ghost function Apply(s: State, e: Step): State {
    Prune(Act(s, e))
  }

  ghost function Run(es: seq<Step>): State {
    if es == [] then Init else Apply(Run(es[..|es| - 1]), es[|es| - 1])
  }

  // ---------------------------------------------------------------- invariants

  ghost predicate SideOk(d: Side) {
    && |d.queue| <= CAPACITY
    && d.attempted + InHand(d) + d.queue == d.accepted
    && (d.worker.Exiting? || d.worker.Gone? ==> d.queue == [] && d.stopped && d.shut)
    && (d.shut ==> d.forced || d.worker.Exiting? || d.worker.Gone?)
  }

  ghost predicate RefOk(s: State, ref: Ref)
    requires ref in s.sides
  {
    var d := s.sides[ref];
    && SideOk(d)
    && d.handle in s.owners && s.owners[d.handle] == ref
    && (Live(s, ref) ==> !d.stopped && ref !in s.stopping && ref !in s.forcing && ref !in s.draining)
    && (!Live(s, ref) ==> d.stopped || ref in s.stopping || ref in s.forcing)
    && (!Live(s, ref) ==> ref in s.draining || ref in s.forcing || d.forced || d.worker.Gone?)
    && (ref in s.draining ==> !d.worker.Gone?)
    && (d.forced ==> s.base.closed)
  }

  // A waiter that is not ready will be: the worker still has something to announce.
  ghost predicate WaiterOk(s: State, op: OpId)
    requires op in s.waiters
  {
    var w := s.waiters[op];
    && Holds(s.base, op, UdpWrite)
    && w.handle in s.owners && s.owners[w.handle] in s.sides
    && (!w.ready ==> var d := s.sides[s.owners[w.handle]]; d.queue != [] || d.worker.Announcing?)
  }

  ghost predicate Shape(s: State) {
    && (forall h | h in s.datagrams :: h in s.owners && s.owners[h] == s.datagrams[h])
    && (forall h | h in s.owners :: s.owners[h] in s.sides && s.sides[s.owners[h]].handle == h)
    && (forall op | op in s.base.operations && s.base.operations[op] == UdpWrite :: op in s.waiters)
    && (s.base.closed ==> s.waiters == map[] && s.datagrams == map[] && s.base.operations == map[])
    && s.draining <= s.sides.Keys && s.stopping <= s.sides.Keys && s.forcing <= s.sides.Keys
    && (s.forcing != {} ==> s.base.closed)
  }

  ghost predicate Inv(s: State) {
    && Shape(s)
    && (forall ref | ref in s.sides :: RefOk(s, ref))
    && (forall op | op in s.waiters :: WaiterOk(s, op))
  }

  ghost predicate Announced(s: State) {
    forall op | op in s.waiters && s.waiters[op].ready :: Signalled(s.base) || op in s.seen
  }

  // ---------------------------------------------------------------- one socket

  lemma AcceptOk(d: Side, g: Datagram)
    requires SideOk(d) && |d.queue| < CAPACITY && !d.stopped
    ensures SideOk(Accept(d, g))
  {
    assert d.attempted + InHand(d) + (d.queue + [g]) == d.attempted + InHand(d) + d.queue + [g];
  }

  lemma DequeueOk(d: Side)
    requires SideOk(d)
    ensures SideOk(Dequeue(d))
  {
    if d.worker == Receiving && d.queue != [] {
      assert d.attempted + [] + d.queue == d.attempted + [d.queue[0]] + d.queue[1..];
    }
  }

  lemma AttemptOk(d: Side, err: Option<IoError>)
    requires SideOk(d)
    ensures SideOk(Attempt(d, err))
  {
    if d.worker.Sending? {
      assert d.attempted + [d.worker.datagram] + [] + d.queue == d.attempted + [d.worker.datagram] + d.queue;
    }
  }

  lemma StopOk(d: Side)
    requires SideOk(d)
    ensures SideOk(StopAfterQueue(d)) && SideOk(StopNow(d))
    ensures d.worker.Announcing? ==> SideOk(d.(worker := Sending(d.worker.datagram)))
    ensures d.worker.Reporting? ==> SideOk(d.(worker := Receiving)) && SideOk(d.(worker := Receiving, err := Some(d.worker.error)))
    ensures d.worker.Exiting? ==> SideOk(d.(worker := Gone))
    ensures SideOk(NewSide(d.handle))
  {}

  lemma NewSideOk(h: Handle)
    ensures SideOk(NewSide(h))
  {}

  // ---------------------------------------------------------------- each step keeps the invariant

  // The steps that work on the socket `e.ref` and leave handles and claims alone.
  predicate OnSocket(e: Step) {
    e.DoTake? || e.DoAnnounce? || e.DoWriteTo? || e.DoReport? || e.DoExit? || e.DoStop? || e.DoForce?
  }

  // What such a step leaves alone.
  ghost predicate SameTables(s: State, t: State) {
    && t.datagrams == s.datagrams && t.owners == s.owners
    && t.base.operations == s.base.operations && t.base.closed == s.base.closed
    && t.waiters.Keys == s.waiters.Keys && t.sides.Keys == s.sides.Keys
    && (forall ref | ref in t.sides :: t.sides[ref].handle == s.sides[ref].handle)
    && t.draining <= s.draining && t.stopping <= s.stopping && t.forcing <= s.forcing
  }

  // Other sockets do not notice.
  ghost predicate Elsewhere(s: State, t: State, ref: Ref) {
    forall x | x in s.sides && x in t.sides && x != ref ::
      && t.sides[x] == s.sides[x]
      && (x in t.draining <==> x in s.draining)
      && (x in t.stopping <==> x in s.stopping)
      && (x in t.forcing <==> x in s.forcing)
  }

  ghost predicate OnlyAt(s: State, t: State, ref: Ref) {
    SameTables(s, t) && Elsewhere(s, t, ref)
  }

  lemma TakeAt(s: State, ref: Ref)
    ensures OnlyAt(s, Take(s, ref), ref)
  {}

  lemma AnnounceAt(s: State, ref: Ref)
    ensures OnlyAt(s, Announce(s, ref), ref)
  {
    hide HasWaiter;
  }

  lemma WriteToAt(s: State, ref: Ref, err: Option<IoError>)
    ensures OnlyAt(s, WriteTo(s, ref, err), ref)
  {}

  lemma ReportAt(s: State, ref: Ref)
    ensures OnlyAt(s, Report(s, ref), ref)
  {
    hide HasWaiter;
  }

  lemma ExitAt(s: State, ref: Ref)
    ensures OnlyAt(s, Exit(s, ref), ref)
  {}

  lemma StopAt(s: State, ref: Ref)
    ensures OnlyAt(s, Stop(s, ref), ref)
  {}

  lemma ForceAt(s: State, ref: Ref)
    ensures OnlyAt(s, Force(s, ref), ref)
  {}

  lemma SocketAt(s: State, e: Step)
    requires OnSocket(e)
    ensures OnlyAt(s, Act(s, e), e.ref)
  {
    hide OnlyAt, Take, Announce, WriteTo, Report, Exit, Stop, Force;
    match e
    case DoTake(ref) => TakeAt(s, ref);
    case DoAnnounce(ref) => AnnounceAt(s, ref);
    case DoWriteTo(ref, err) => WriteToAt(s, ref, err);
    case DoReport(ref) => ReportAt(s, ref);
    case DoExit(ref) => ExitAt(s, ref);
    case DoStop(ref) => StopAt(s, ref);
    case DoForce(ref) => ForceAt(s, ref);
  }

  lemma SendAt(s: State, h: Handle, data: seq<u8>, peer: Option<nat>)
    ensures SameTables(s, TrySend(s, h, data, peer).0)
  {}

  lemma TablesShape(s: State, t: State)
    requires Shape(s) && SameTables(s, t)
    ensures Shape(t)
  {}

  // The steps that change neither a socket nor the handles.
  predicate OnWaiters(e: Step) {
    e.DoStartReady? || e.DoTakeReady? || e.DoCancel? || e.DoSignal? || e.DoConsume? || e.Other?
  }

  // What such a step leaves alone.
  ghost predicate SameSockets(s: State, t: State) {
    && t.datagrams == s.datagrams && t.owners == s.owners && t.sides == s.sides
    && t.draining == s.draining && t.stopping == s.stopping && t.forcing == s.forcing
    && t.base.closed == s.base.closed
  }

  lemma WaitersSockets(s: State, e: Step)
    requires OnWaiters(e)
    ensures SameSockets(s, Act(s, e))
  {}

  lemma WaitersShape(s: State, t: State)
    requires Shape(s) && SameSockets(s, t)
    requires forall op | op in t.base.operations && t.base.operations[op] == UdpWrite :: op in t.waiters
    requires t.base.closed ==> t.waiters == map[] && t.base.operations == map[]
    ensures Shape(t)
  {}

  lemma WaitersClaims(s: State, e: Step)
    requires OnWaiters(e)
    requires forall op | op in s.base.operations && s.base.operations[op] == UdpWrite :: op in s.waiters
    requires s.base.closed ==> s.waiters == map[] && s.base.operations == map[]
    ensures var t := Act(s, e);
      && (forall op | op in t.base.operations && t.base.operations[op] == UdpWrite :: op in t.waiters)
      && (t.base.closed ==> t.waiters == map[] && t.base.operations == map[])
  {}

  lemma HandlesShape(s: State, e: Step)
    requires Shape(s) && (e.DoOpen? || e.DoCloseHandle? || e.DoCloseAll?)
    ensures Shape(Act(s, e)) && Act(s, e).waiters.Keys <= s.waiters.Keys
    ensures !e.DoOpen? ==> Act(s, e).sides == s.sides
  {}

  lemma TakeRef(s: State, ref: Ref)
    requires ref in s.sides && RefOk(s, ref)
    ensures ref in Take(s, ref).sides && RefOk(Take(s, ref), ref)
  {
    DequeueOk(s.sides[ref]);
    hide SideOk;
  }

  lemma AnnounceRef(s: State, ref: Ref)
    requires ref in s.sides && RefOk(s, ref)
    ensures ref in Announce(s, ref).sides && RefOk(Announce(s, ref), ref)
  {
    StopOk(s.sides[ref]);
    hide SideOk, HasWaiter;
  }

  lemma WriteToRef(s: State, ref: Ref, err: Option<IoError>)
    requires ref in s.sides && RefOk(s, ref)
    ensures ref in WriteTo(s, ref, err).sides && RefOk(WriteTo(s, ref, err), ref)
  {
    AttemptOk(s.sides[ref], err);
    hide SideOk;
  }

  lemma ReportRef(s: State, ref: Ref)
    requires ref in s.sides && RefOk(s, ref)
    ensures ref in Report(s, ref).sides && RefOk(Report(s, ref), ref)
  {
    StopOk(s.sides[ref]);
    hide SideOk, HasWaiter;
  }

  lemma ExitRef(s: State, ref: Ref)
    requires ref in s.sides && RefOk(s, ref)
    ensures ref in Exit(s, ref).sides && RefOk(Exit(s, ref), ref)
  {
    SideFacts(s.sides[ref]);
    StopOk(s.sides[ref]);
    hide SideOk;
  }

  lemma StopRef(s: State, ref: Ref)
    requires ref in s.sides && RefOk(s, ref)
    ensures ref in Stop(s, ref).sides && RefOk(Stop(s, ref), ref)
    ensures s.base.closed || s.forcing == {} ==> ref in Force(s, ref).sides && RefOk(Force(s, ref), ref)
  {
    StopOk(s.sides[ref]);
    hide SideOk;
  }

  lemma SocketRef(s: State, e: Step)
    requires Inv(s) && OnSocket(e) && e.ref in s.sides
    ensures e.ref in Act(s, e).sides && RefOk(Act(s, e), e.ref)
  {
    assert RefOk(s, e.ref);
    InvForcing(s);
    hide Inv, RefOk, Act;
    if e.DoStop? || e.DoForce? || e.DoExit? {
      EndRef(s, e);
    } else {
      WorkerRef(s, e);
    }
  }

  lemma WorkerRef(s: State, e: Step)
    requires (e.DoTake? || e.DoAnnounce? || e.DoWriteTo? || e.DoReport?) && e.ref in s.sides && RefOk(s, e.ref)
    ensures e.ref in Act(s, e).sides && RefOk(Act(s, e), e.ref)
  {
    hide RefOk, Take, Announce, WriteTo, Report;
    match e
    case DoTake(ref) => TakeRef(s, ref);
    case DoAnnounce(ref) => AnnounceRef(s, ref);
    case DoWriteTo(ref, err) => WriteToRef(s, ref, err);
    case DoReport(ref) => ReportRef(s, ref);
  }

  lemma EndRef(s: State, e: Step)
    requires (e.DoStop? || e.DoForce? || e.DoExit?) && e.ref in s.sides && RefOk(s, e.ref)
    requires s.forcing != {} ==> s.base.closed
    ensures e.ref in Act(s, e).sides && RefOk(Act(s, e), e.ref)
  {
    hide RefOk, Exit, Stop, Force;
    match e
    case DoExit(ref) => ExitRef(s, ref);
    case DoStop(ref) => StopRef(s, ref);
    case DoForce(ref) => StopRef(s, ref);
  }

  lemma InvForcing(s: State)
    requires Inv(s)
    ensures s.forcing != {} ==> s.base.closed
  {}

  lemma SideFacts(d: Side)
    requires SideOk(d)
    ensures d.worker.Exiting? || d.worker.Gone? ==> d.queue == [] && d.stopped && d.shut
  {}

  lemma SendRef(s: State, h: Handle, data: seq<u8>, peer: Option<nat>, ref: Ref)
    requires ref in s.sides && RefOk(s, ref) && Shape(s)
    ensures ref in TrySend(s, h, data, peer).0.sides && RefOk(TrySend(s, h, data, peer).0, ref)
  {
    hide SideOk;
    if TrySend(s, h, data, peer).1.Accepted? && ref == s.datagrams[h] {
      AcceptOk(s.sides[ref], Datagram(data, peer.value));
    }
  }

  lemma OpenRef(s: State, handle: Handle, at: Ref, ref: Ref)
    requires Inv(s) && (ref in s.sides ==> RefOk(s, ref))
    requires ref in Act(s, DoOpen(handle, at)).sides
    ensures RefOk(Act(s, DoOpen(handle, at)), ref)
  {
    NewSideOk(handle);
    hide SideOk, WaiterOk;
  }

  lemma CloseHandleRef(s: State, h: Handle, ref: Ref)
    requires Shape(s) && ref in s.sides && RefOk(s, ref)
    ensures RefOk(Act(s, DoCloseHandle(h)), ref)
  {
    SideFacts(s.sides[ref]);
    hide SideOk;
  }

  lemma CloseAllRef(s: State, ref: Ref)
    requires Shape(s) && ref in s.sides && RefOk(s, ref)
    ensures RefOk(Act(s, DoCloseAll), ref)
  {
    hide SideOk;
  }

  lemma HandlesRef(s: State, e: Step, ref: Ref)
    requires Inv(s) && (e.DoOpen? || e.DoCloseHandle? || e.DoCloseAll?) && ref in Act(s, e).sides
    ensures RefOk(Act(s, e), ref)
  {
    assert Shape(s) && (ref in s.sides ==> RefOk(s, ref));
    hide Inv, Shape, RefOk, Act;
    if !e.DoOpen? { ClosesKeepSides(s, e); }
    match e
    case DoOpen(h, at) => OpenRef(s, h, at, ref);
    case DoCloseHandle(h) => CloseHandleRef(s, h, ref);
    case DoCloseAll => CloseAllRef(s, ref);
  }

  lemma ClosesKeepSides(s: State, e: Step)
    requires e.DoCloseHandle? || e.DoCloseAll?
    ensures Act(s, e).sides == s.sides
  {}

  lemma ElsewhereRef(s: State, t: State, at: Ref, ref: Ref)
    requires OnlyAt(s, t, at) && ref != at && ref in s.sides && RefOk(s, ref)
    ensures ref in t.sides && RefOk(t, ref)
  {
    hide SideOk;
  }

  lemma SameRef(s: State, t: State, ref: Ref)
    requires SameSockets(s, t) && ref in s.sides && RefOk(s, ref)
    ensures RefOk(t, ref)
  {
    hide SideOk;
  }

  lemma ActRef(s: State, e: Step, ref: Ref)
    requires Inv(s) && ref in Act(s, e).sides
    ensures RefOk(Act(s, e), ref)
  {
    if OnSocket(e) {
      SocketAt(s, e);
      if ref == e.ref {
        SocketRef(s, e);
      } else {
        ElsewhereRef(s, Act(s, e), e.ref, ref);
      }
    } else if OnWaiters(e) {
      WaitersSockets(s, e);
      SameRef(s, Act(s, e), ref);
    } else if e.DoTrySend? {
      SendAt(s, e.handle, e.data, e.peer);
      SendRef(s, e.handle, e.data, e.peer, ref);
    } else {
      HandlesRef(s, e, ref);
    }
    hide Act, RefOk, Shape;
  }

  // What a waiter relies on.
  ghost predicate Busy(d: Side) {
    d.queue != [] || d.worker.Announcing?
  }

  lemma QuietWaiter(s: State, t: State, op: OpId)
    requires op in s.waiters && WaiterOk(s, op) && op in t.waiters && t.waiters[op] == s.waiters[op]
    requires Holds(t.base, op, UdpWrite)
    requires forall h | h in s.owners :: h in t.owners && t.owners[h] == s.owners[h]
    requires forall ref | ref in s.sides :: ref in t.sides && (Busy(s.sides[ref]) ==> Busy(t.sides[ref]))
    ensures WaiterOk(t, op)
  {}

  lemma AnnounceWaiter(s: State, ref: Ref, op: OpId)
    requires op in s.waiters && WaiterOk(s, op)
    requires forall h | h in s.owners && s.owners[h] in s.sides :: s.sides[s.owners[h]].handle == h
    ensures op in Announce(s, ref).waiters && WaiterOk(Announce(s, ref), op)
    ensures op in Report(s, ref).waiters && WaiterOk(Report(s, ref), op)
  {
    hide HasWaiter;
  }

  lemma BusyStays(s: State, e: Step, ref: Ref)
    requires ref in s.sides && (ref in Act(s, e).sides) && Busy(s.sides[ref])
    requires !e.DoAnnounce? && !e.DoReport? && (e.DoOpen? ==> e.ref !in s.sides)
    requires SideOk(s.sides[ref])
    ensures Busy(Act(s, e).sides[ref])
  {}

  lemma ActWaiter(s: State, e: Step, op: OpId)
    requires Inv(s) && op in Act(s, e).waiters
    ensures WaiterOk(Act(s, e), op)
  {
    assert op in s.waiters ==> WaiterOk(s, op);
    if e.DoAnnounce? || e.DoReport? {
      SocketAt(s, e);
      AnnounceWaiter(s, e.ref, op);
    } else if op !in s.waiters {
      NewWaiter(s, e, op);
    } else {
      KeptTables(s, e, op);
      forall ref | ref in s.sides ensures ref in Act(s, e).sides && (Busy(s.sides[ref]) ==> Busy(Act(s, e).sides[ref])) {
        assert RefOk(s, ref);
        if Busy(s.sides[ref]) && !(e.DoOpen? && e.ref in s.sides) {
          BusyStays(s, e, ref);
        }
      }
      QuietWaiter(s, Act(s, e), op);
    }
    hide Act, WaiterOk, RefOk, Shape;
  }

  lemma StartWaiter(s: State, h: Handle, op: OpId)
    requires Shape(s) && op !in s.waiters && op in StartReady(s, h, op).0.waiters
    ensures WaiterOk(StartReady(s, h, op).0, op)
  {}

  lemma OnlyStarts(s: State, e: Step, op: OpId)
    requires op !in s.waiters && op in Act(s, e).waiters
    ensures e.DoStartReady? && e.op == op
  {
    hide HasWaiter;
  }

  lemma NewWaiter(s: State, e: Step, op: OpId)
    requires Shape(s) && op !in s.waiters && op in Act(s, e).waiters
    ensures WaiterOk(Act(s, e), op)
  {
    OnlyStarts(s, e, op);
    StartWaiter(s, e.handle, op);
    hide Shape, WaiterOk, StartReady;
  }

  lemma KeptBySocket(s: State, e: Step, op: OpId)
    requires op in s.waiters && Holds(s.base, op, UdpWrite) && OnSocket(e) && !e.DoAnnounce? && !e.DoReport?
    ensures Act(s, e).waiters == s.waiters && Act(s, e).base == s.base && Act(s, e).owners == s.owners
    ensures Act(s, e).sides.Keys == s.sides.Keys
  {}

  lemma KeptWaiter(s: State, e: Step, op: OpId)
    requires op in s.waiters && Holds(s.base, op, UdpWrite) && op in Act(s, e).waiters && !OnSocket(e)
    ensures Act(s, e).waiters[op] == s.waiters[op] && Holds(Act(s, e).base, op, UdpWrite)
  {}

  lemma KeptOwners(s: State, e: Step)
    requires !OnSocket(e)
    ensures forall h | h in s.owners :: h in Act(s, e).owners && Act(s, e).owners[h] == s.owners[h]
    ensures s.sides.Keys <= Act(s, e).sides.Keys
    ensures e.DoOpen? && e.ref in s.sides ==> Act(s, e) == s
  {
    hide Interfere;
  }

  lemma KeptTables(s: State, e: Step, op: OpId)
    requires op in s.waiters && Holds(s.base, op, UdpWrite) && op in Act(s, e).waiters
    requires !e.DoAnnounce? && !e.DoReport?
    ensures Act(s, e).waiters[op] == s.waiters[op] && Holds(Act(s, e).base, op, UdpWrite)
    ensures forall h | h in s.owners :: h in Act(s, e).owners && Act(s, e).owners[h] == s.owners[h]
    ensures s.sides.Keys <= Act(s, e).sides.Keys
    ensures e.DoOpen? && e.ref in s.sides ==> Act(s, e) == s
  {
    if OnSocket(e) {
      KeptBySocket(s, e, op);
    } else {
      KeptWaiter(s, e, op);
      KeptOwners(s, e);
    }
    hide Act;
  }

  lemma ActShape(s: State, e: Step)
    requires Shape(s)
    ensures Shape(Act(s, e))
  {
    if OnSocket(e) {
      SocketAt(s, e);
      TablesShape(s, Act(s, e));
    } else if OnWaiters(e) {
      WaitersSockets(s, e);
      WaitersClaims(s, e);
      WaitersShape(s, Act(s, e));
    } else if e.DoTrySend? {
      SendAt(s, e.handle, e.data, e.peer);
      TablesShape(s, Act(s, e));
    } else {
      HandlesShape(s, e);
    }
  }

  lemma ActInv(s: State, e: Step)
    requires Inv(s)
    ensures Inv(Act(s, e))
  {
    ActShape(s, e);
    hide RefOk, WaiterOk, Shape, Act;
    forall ref | ref in Act(s, e).sides ensures RefOk(Act(s, e), ref) {
      ActRef(s, e, ref);
    }
    forall op | op in Act(s, e).waiters ensures WaiterOk(Act(s, e), op) {
      ActWaiter(s, e, op);
    }
  }

  // A step drops no signal, and whatever it makes ready it also announces.
  ghost predicate Covers(s: State, t: State) {
    && (Signalled(s.base) ==> Signalled(t.base))
    && t.seen == s.seen
    && forall op | op in t.waiters && t.waiters[op].ready :: Signalled(t.base) || (op in s.waiters && s.waiters[op].ready)
  }

  lemma SocketCovers(s: State, e: Step)
    requires OnSocket(e)
    ensures Covers(s, Act(s, e))
  {}

  lemma OthersCover(s: State, e: Step)
    requires !OnSocket(e) && !e.DoConsume?
    ensures Covers(s, Act(s, e))
  {}

  lemma ActCovers(s: State, e: Step)
    requires !e.DoConsume?
    ensures Covers(s, Act(s, e))
  {
    if OnSocket(e) { SocketCovers(s, e); } else { OthersCover(s, e); }
    hide Act, Covers;
  }

  lemma PruneInv(s: State)
    requires Inv(s)
    ensures Inv(Prune(s))
  {
    var t := Prune(s);
    hide SideOk;
    forall ref | ref in t.sides ensures RefOk(t, ref) {
      assert RefOk(s, ref);
    }
    forall op | op in t.waiters ensures WaiterOk(t, op) {
      assert WaiterOk(s, op);
    }
  }

  lemma ApplyInv(s: State, e: Step)
    requires Inv(s) && Announced(s)
    ensures Inv(Apply(s, e)) && Announced(Apply(s, e))
  {
    ActInv(s, e);
    PruneInv(Act(s, e));
    if e.DoConsume? {
      ConsumeAnnounced(s);
    } else {
      ActCovers(s, e);
      hide Inv, Act;
    }
  }

  lemma ConsumeAnnounced(s: State)
    requires Announced(s)
    ensures Announced(Apply(s, DoConsume))
  {}

  lemma {:induction false} RunInv(es: seq<Step>)
    ensures Inv(Run(es)) && Announced(Run(es))
  {
    if es == [] {
    } else {
      RunInv(es[..|es| - 1]);
      ApplyInv(Run(es[..|es| - 1]), es[|es| - 1]);
    }
  }

  // ---------------------------------------------------------------- what every run guarantees

  /** Every accepted datagram is attempted, being attempted, or queued, in the order of
      acceptance; at most 64 are queued. */
  lemma SendOrderKept(es: seq<Step>, ref: Ref)
    requires ref in Run(es).sides
    ensures var d := Run(es).sides[ref];
      && |d.queue| <= CAPACITY
      && d.attempted + InHand(d) + d.queue == d.accepted
  {
    RunInv(es);
    assert RefOk(Run(es), ref);
    hide Run;
  }

  /** A TryUDPSend that reaches the channel finds it open and with room, so that it
      neither blocks with the mutex held nor panics. */
  lemma SendNeverBlocksOrPanics(es: seq<Step>, handle: Handle, data: seq<u8>, peer: Option<nat>)
    requires TrySend(Run(es), handle, data, peer).1.Accepted?
    ensures var s := Run(es);
      && handle in s.datagrams && s.datagrams[handle] in s.sides
      && !s.sides[s.datagrams[handle]].stopped
      && |s.sides[s.datagrams[handle]].queue| < CAPACITY
  {
    RunInv(es);
    var s := Run(es);
    assert RefOk(s, s.datagrams[handle]);
    hide Run;
  }

  lemma TrySendIsLogged(s: State, e: Step, ref: Ref)
    requires e.DoTrySend? && ref in s.sides
    ensures ref in Apply(s, e).sides && Apply(s, e).sides[ref].attempted == s.sides[ref].attempted
    ensures Apply(s, e).sides[ref].accepted
            == if e.handle in s.datagrams && s.datagrams[e.handle] == ref && TrySend(s, e.handle, e.data, e.peer).1.Accepted?
               then s.sides[ref].accepted + [Datagram(e.data, e.peer.value)] else s.sides[ref].accepted
  {}

  lemma WriteIsLogged(s: State, ref: Ref, err: Option<IoError>)
    requires ref in s.sides
    ensures var t := WriteTo(s, ref, err);
      && ref in t.sides && t.sides[ref].accepted == s.sides[ref].accepted
      && t.sides[ref].attempted == if s.sides[ref].worker.Sending?
                                   then s.sides[ref].attempted + [s.sides[ref].worker.datagram] else s.sides[ref].attempted
  {}

  lemma WorkerLogsNothing(s: State, e: Step)
    requires (e.DoTake? || e.DoAnnounce? || e.DoReport?) && e.ref in s.sides
    ensures e.ref in Act(s, e).sides && Act(s, e).sides[e.ref].accepted == s.sides[e.ref].accepted
    ensures Act(s, e).sides[e.ref].attempted == s.sides[e.ref].attempted
  {
    hide HasWaiter, Wake, Live;
  }

  lemma EndLogsNothing(s: State, e: Step)
    requires (e.DoExit? || e.DoStop? || e.DoForce?) && e.ref in s.sides
    ensures e.ref in Act(s, e).sides && Act(s, e).sides[e.ref].accepted == s.sides[e.ref].accepted
    ensures Act(s, e).sides[e.ref].attempted == s.sides[e.ref].attempted
  {}

  lemma WritesAreLogged(s: State, e: Step, ref: Ref)
    requires OnSocket(e) && ref in s.sides
    ensures ref in Apply(s, e).sides && Apply(s, e).sides[ref].accepted == s.sides[ref].accepted
    ensures Apply(s, e).sides[ref].attempted
            == if e.DoWriteTo? && e.ref == ref && s.sides[ref].worker.Sending?
               then s.sides[ref].attempted + [s.sides[ref].worker.datagram] else s.sides[ref].attempted
  {
    if ref != e.ref {
      SocketAt(s, e);
      hide Act;
    } else if e.DoWriteTo? {
      WriteIsLogged(s, ref, e.err);
      hide WriteTo;
    } else {
      if e.DoTake? || e.DoAnnounce? || e.DoReport? { WorkerLogsNothing(s, e); } else { EndLogsNothing(s, e); }
      hide Act;
    }
  }

  lemma OthersLogNothing(s: State, e: Step, ref: Ref)
    requires !OnSocket(e) && !e.DoTrySend? && ref in s.sides
    ensures ref in Apply(s, e).sides && Apply(s, e).sides[ref].accepted == s.sides[ref].accepted
    ensures Apply(s, e).sides[ref].attempted == s.sides[ref].attempted
  {
    hide Interfere;
  }

  /** The logs are the calls: TryUDPSend records what it accepts, and the worker records the
      datagram in its hand when it calls WriteTo. */
  lemma SendLogsAreCalls(s: State, e: Step, ref: Ref)
    requires ref in s.sides
    ensures ref in Apply(s, e).sides
    ensures Apply(s, e).sides[ref].accepted
            == if e.DoTrySend? && e.handle in s.datagrams && s.datagrams[e.handle] == ref && TrySend(s, e.handle, e.data, e.peer).1.Accepted?
               then s.sides[ref].accepted + [Datagram(e.data, e.peer.value)] else s.sides[ref].accepted
    ensures Apply(s, e).sides[ref].attempted
            == if e.DoWriteTo? && e.ref == ref && s.sides[ref].worker.Sending?
               then s.sides[ref].attempted + [s.sides[ref].worker.datagram] else s.sides[ref].attempted
  {
    hide Apply, TrySend;
    if e.DoTrySend? {
      TrySendIsLogged(s, e, ref);
    } else if OnSocket(e) {
      WritesAreLogged(s, e, ref);
    } else {
      OthersLogNothing(s, e, ref);
    }
  }

  /** A socket that Close did not shut itself has attempted everything it accepted before it
      shut, whether the reactor has closed since or not; and no open handle names it. */
  lemma DrainedBeforeShut(es: seq<Step>, ref: Ref)
    requires ref in Run(es).sides && Run(es).sides[ref].shut && !Run(es).sides[ref].forced
    ensures Run(es).sides[ref].attempted == Run(es).sides[ref].accepted
    ensures !Live(Run(es), ref)
  {
    RunInv(es);
    var d := Run(es).sides[ref];
    assert RefOk(Run(es), ref);
    hide Run;
    assert d.attempted + [] + [] == d.attempted;
  }

  /** A socket whose handle closed is stopped or about to be, and until its worker ends it
      is draining or Close is shutting it. */
  lemma ClosedHandleDrains(es: seq<Step>, ref: Ref)
    requires ref in Run(es).sides && !Live(Run(es), ref)
    ensures var s := Run(es); var d := s.sides[ref];
      && (d.stopped || ref in s.stopping || ref in s.forcing)
      && (ref in s.draining || ref in s.forcing || d.forced || (d.worker.Gone? && d.shut))
      && (ref in s.draining ==> !d.worker.Gone?)
  {
    RunInv(es);
    assert RefOk(Run(es), ref);
    hide Run;
  }

  lemma ClosedHandles(s: State, e: Step, ref: Ref)
    requires Shape(s) && ref in s.sides && RefOk(s, ref) && !Live(s, ref) && !OnSocket(e) && !OnWaiters(e)
    ensures ref in Act(s, e).sides && !Live(Act(s, e), ref)
    ensures Act(s, e).sides[ref].accepted == s.sides[ref].accepted
  {
    hide SideOk;
  }

  lemma ClosedOnSocket(s: State, e: Step, ref: Ref)
    requires ref in s.sides && !Live(s, ref) && OnSocket(e)
    ensures ref in Act(s, e).sides && !Live(Act(s, e), ref)
    ensures Act(s, e).sides[ref].accepted == s.sides[ref].accepted
  {
    SocketAt(s, e);
    WritesAreLogged(s, e, ref);
    hide Act;
  }

  /** After its handle closes a socket accepts nothing more. */
  lemma ClosedHandleAcceptsNothing(s: State, e: Step, ref: Ref)
    requires Inv(s) && ref in s.sides && !Live(s, ref)
    ensures ref in Apply(s, e).sides && !Live(Apply(s, e), ref)
    ensures Apply(s, e).sides[ref].accepted == s.sides[ref].accepted
  {
    assert Shape(s) && RefOk(s, ref);
    hide Inv, Shape, RefOk, Act, OnSocket, OnWaiters;
    if OnSocket(e) {
      ClosedOnSocket(s, e, ref);
    } else if OnWaiters(e) {
      WaitersSockets(s, e);
    } else {
      ClosedHandles(s, e, ref);
    }
  }

  /** A waiter that is not ready is always going to be woken: its socket has a queued
      datagram, or one taken from the queue whose announcement is still to come. */
  lemma SendWaiterWillWake(es: seq<Step>, op: OpId)
    requires op in Run(es).waiters && !Run(es).waiters[op].ready
    ensures var s := Run(es); var h := s.waiters[op].handle;
      && h in s.owners && s.owners[h] in s.sides
      && Busy(s.sides[s.owners[h]])
      && !s.sides[s.owners[h]].worker.Exiting? && !s.sides[s.owners[h]].worker.Gone?
  {
    RunInv(es);
    var s := Run(es);
    assert WaiterOk(s, op);
    assert RefOk(s, s.owners[s.waiters[op].handle]);
    hide Run;
  }

  /** No wakeup is lost: a ready waiter has had a token received since it became ready, or
      the token is there, or a thread is about to send it. */
  lemma NoSendWakeupLost(es: seq<Step>, op: OpId)
    requires op in Run(es).waiters && Run(es).waiters[op].ready
    ensures Signalled(Run(es).base) || op in Run(es).seen
  {
    RunInv(es);
    hide Run, Inv;
  }
}

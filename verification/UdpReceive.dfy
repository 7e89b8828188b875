/** Receiving on a UDP socket: a bounded queue filled by one worker and emptied by
    waiters that are woken together (internal/reactor/udp.go). */
module UdpReceive {
  import opened Core

  type Ref = Serial

  const CAPACITY := 64

  datatype Datagram = Datagram(data: seq<u8>, peer: nat)

  // What one ReadFrom call comes to.
  datatype Arrival = Got(datagram: Datagram) | Lost(error: IoError)

  /** The receive fields of datagramState.  `handle` is the name its worker was started
      with; `arrived` and `taken` record what came in and what was handed out, and `failures`,
      `told` and `replaced` the errors that came in, were handed out, or were overwritten. */
  datatype Side = Side(
    handle: Handle,
    received: seq<Datagram>,
    running: bool,
    err: Option<IoError>,
    worker: bool,
    arrived: seq<Datagram>,
    taken: seq<Datagram>,
    failures: seq<IoError>,
    told: seq<IoError>,
    replaced: seq<IoError>)

  function NewSide(handle: Handle): Side {
    Side(handle, [], false, None, false, [], [], [], [], [])
  }

  function Launch(d: Side, start: bool): Side {
    if start then d.(running := true, worker := true) else d
  }

  // The error waiting to be handed out, if there is one.
  function Stored(d: Side): seq<IoError> {
    if d.err.Some? then [d.err.value] else []
  }

  function Tell(d: Side): Side {
    d.(err := None, told := d.told + Stored(d))
  }

  function Store(d: Side, a: Arrival): Side {
    match a
    case Got(g) => d.(received := d.received + [g], arrived := d.arrived + [g])
    case Lost(e) => d.(err := Some(e), failures := d.failures + [e], replaced := d.replaced + Stored(d))
  }

  // What the worker leaves behind: it goes on, or clears the running flag and ends.
  function Continue(d: Side, goOn: bool): Side {
    if goOn then d else d.(running := false, worker := false)
  }

  function TakeFirst(d: Side): Side
    requires d.received != []
  {
    d.(received := d.received[1..], taken := d.taken + [d.received[0]])
  }

  function Truncate(g: Datagram, capacity: nat): Datagram {
    if |g.data| > capacity then g.(data := g.data[..capacity]) else g
  }

  // ---------------------------------------------------------------- the whole table

  /** `owners` remembers which socket every handle ever named; a handle names one only. */
  datatype State = State(
    base: Base,
    datagrams: map<Handle, Ref>,
    owners: map<Handle, Ref>,
    sides: map<Ref, Side>,
    waiters: map<OpId, Waiter>,
    seen: set<OpId>)

  const Init := State(Core.Fresh, map[], map[], map[], map[], {})

  predicate HasWaiter(s: State, handle: Handle) {
    exists op | op in s.waiters :: s.waiters[op].handle == handle
  }

  predicate Live(s: State, ref: Ref) {
    ref in s.sides && s.sides[ref].handle in s.datagrams && s.datagrams[s.sides[ref].handle] == ref
  }

  predicate Loaded(d: Side) {
    d.received != [] || d.err.Some?
  }

  function StartReceive(s: State, handle: Handle, op: OpId): (State, Option<CallError>) {
    if handle !in s.datagrams || s.datagrams[handle] !in s.sides then (s, Some(Invalid))
    else
      match Claim(s.base, op, UdpRead)
      case None => (s, Some(Invalid))
      case Some(b) =>
        var ref := s.datagrams[handle];
        var d := s.sides[ref];
        var start := d.err == None && |d.received| < CAPACITY && !d.running;
        (s.(base := Owe(b, Loaded(d)),
            waiters := s.waiters[op := Waiter(handle, Loaded(d))],
            sides := s.sides[ref := Launch(d, start)]), None)
  }

  // One turn of the loop of runUDPReceive after ReadFrom returned.
  function Publish(s: State, ref: Ref, a: Arrival): State {
    if ref !in s.sides || !s.sides[ref].worker then s
    else if !Live(s, ref) then s.(sides := s.sides[ref := s.sides[ref].(worker := false)])
    else
      var d := Store(s.sides[ref], a);
      var ready := HasWaiter(s, d.handle);
      s.(base := Owe(s.base, ready),
         waiters := Wake(s.waiters, d.handle),
         sides := s.sides[ref := Continue(d, a.Got? && ready && |d.received| < CAPACITY)])
  }

  datatype TakeResult = Failed(error: CallError) | Broken(cause: IoError) | Taken(datagram: Datagram)

  function TakeReceive(s: State, op: OpId, capacity: nat): (State, TakeResult) {
    if op !in s.waiters || !Holds(s.base, op, UdpRead) then (s, Failed(Invalid))
    else
      var handle := s.waiters[op].handle;
      var t := s.(waiters := s.waiters - {op}, base := Release(s.base, op, UdpRead));
      if handle !in s.datagrams || s.datagrams[handle] !in s.sides then (t, Failed(Invalid))
      else
        var ref := s.datagrams[handle];
        var d := s.sides[ref];
        var more := HasWaiter(t, handle);
        if d.received == [] then
          if d.err == None then (s, Failed(Pending))
          else
            (t.(sides := s.sides[ref := Launch(Tell(d), !d.running && more)]), Broken(d.err.value))
        else
          var rest := TakeFirst(d);
          (t.(sides := s.sides[ref := Launch(rest, |rest.received| < CAPACITY && !d.running && more)]),
           Taken(Truncate(d.received[0], capacity)))
  }

  function CancelReceive(s: State, op: OpId): State {
    if op !in s.waiters || !Holds(s.base, op, UdpRead) then s
    else s.(waiters := s.waiters - {op}, base := Release(s.base, op, UdpRead))
  }

  // A bind stores a new socket under a handle that was never used before.
  function OpenDatagram(s: State, handle: Handle, ref: Ref): State {
    if s.base.closed || handle in s.owners || ref in s.sides then s
    else s.(datagrams := s.datagrams[handle := ref],
            owners := s.owners[handle := ref],
            sides := s.sides[ref := NewSide(handle)])
  }

  function CloseHandle(s: State, handle: Handle): State {
    s.(datagrams := s.datagrams - {handle})
  }

  function CloseAll(s: State): State {
    if s.base.closed then s
    else s.(base := s.base.(closed := true, operations := map[]), datagrams := map[], waiters := map[])
  }

  // TakeReceive would hand something to this waiter of an open handle.
  predicate Takeable(s: State, op: OpId) {
    && op in s.waiters
    && s.waiters[op].handle in s.datagrams
    && s.datagrams[s.waiters[op].handle] in s.sides
    && Loaded(s.sides[s.datagrams[s.waiters[op].handle]])
  }

  // TakeReceive would not leave this waiter pending: there is something to hand out, or its
  // handle is closed.
  predicate Answerable(s: State, op: OpId) {
    op in s.waiters && (s.waiters[op].handle !in s.datagrams || Takeable(s, op))
  }

  function Consume(s: State): State {
    if !s.base.token then s
    else s.(base := s.base.(token := false), seen := set op | op in s.waiters && Answerable(s, op))
  }

  function Prune(s: State): State {
    s.(seen := set op | op in s.seen && Answerable(s, op))
  }

  datatype Step =
    | DoStart(handle: Handle, op: OpId)
    | DoPublish(ref: Ref, arrival: Arrival)
    | DoTake(op: OpId, capacity: nat)
    | DoCancel(op: OpId)
    | DoOpen(handle: Handle, ref: Ref)
    | DoCloseHandle(handle: Handle)
    | DoCloseAll
    | DoSignal
    | DoConsume
    | Other(operations: map<OpId, Kind>, promised: nat)

  ghost function Act(s: State, e: Step): State {
    match e
    case DoStart(h, op) => StartReceive(s, h, op).0
    case DoPublish(ref, a) => Publish(s, ref, a)
    case DoTake(op, capacity) => TakeReceive(s, op, capacity).0
    case DoCancel(op) => CancelReceive(s, op)
    case DoOpen(h, ref) => OpenDatagram(s, h, ref)
    case DoCloseHandle(h) => CloseHandle(s, h)
    case DoCloseAll => CloseAll(s)
    case DoSignal => s.(base := Pay(s.base))
    case DoConsume => Consume(s)
    case Other(ops, promised) => s.(base := Interfere(UdpRead, s.base, ops, promised))
  }

  ghost function Apply(s: State, e: Step): State {
    Prune(Act(s, e))
  }

  ghost function Run(es: seq<Step>): State {
    if es == [] then Init else Apply(Run(es[..|es| - 1]), es[|es| - 1])
  }

  // ---------------------------------------------------------------- invariants

  ghost predicate SideOk(d: Side) {
    && |d.received| <= CAPACITY
    && (d.running ==> |d.received| < CAPACITY)
    && (d.worker ==> d.running)
    && d.taken + d.received == d.arrived
  }

  ghost predicate RefOk(s: State, ref: Ref)
    requires ref in s.sides
  {
    var d := s.sides[ref];
    && SideOk(d)
    && d.handle in s.owners && s.owners[d.handle] == ref
    && (Live(s, ref) ==> d.worker == d.running)
    && (Live(s, ref) && HasWaiter(s, d.handle) ==> d.running || Loaded(d))
  }

  ghost predicate Shape(s: State) {
    && (forall h | h in s.datagrams :: h in s.owners && s.owners[h] == s.datagrams[h])
    && (forall h | h in s.owners :: s.owners[h] in s.sides && s.sides[s.owners[h]].handle == h)
    && (forall op | op in s.waiters :: Holds(s.base, op, UdpRead) && s.waiters[op].handle in s.owners)
    && (forall op | op in s.base.operations && s.base.operations[op] == UdpRead :: op in s.waiters)
    && (s.base.closed ==> s.waiters == map[] && s.datagrams == map[] && s.base.operations == map[])
  }

  ghost predicate Inv(s: State) {
    && Shape(s)
    && (forall ref | ref in s.sides :: RefOk(s, ref))
  }

  ghost predicate Announced(s: State) {
    forall op | op in s.waiters && Takeable(s, op) :: Signalled(s.base) || op in s.seen
  }

  // ---------------------------------------------------------------- each step keeps the invariant

  lemma TakeFirstOk(d: Side)
    requires SideOk(d) && d.received != []
    ensures SideOk(TakeFirst(d))
  {
    assert d.taken + [d.received[0]] + d.received[1..] == d.taken + d.received;
  }

  lemma StoreOk(d: Side, a: Arrival)
    requires SideOk(d) && d.running
    ensures |Store(d, a).received| <= CAPACITY && Store(d, a).taken + Store(d, a).received == Store(d, a).arrived
    ensures Loaded(Store(d, a))
  {
    if a.Got? {
      assert d.taken + (d.received + [a.datagram]) == d.taken + d.received + [a.datagram];
    }
  }

  lemma StartRef(s: State, h: Handle, op: OpId, ref: Ref)
    requires Inv(s) && ref in s.sides
    ensures RefOk(StartReceive(s, h, op).0, ref)
  {
    assert RefOk(s, ref);
    var t := StartReceive(s, h, op).0;
    if t != s && Live(t, ref) && HasWaiter(t, t.sides[ref].handle) && h != t.sides[ref].handle {
      var p :| p in t.waiters && t.waiters[p].handle == t.sides[ref].handle;
      assert p in s.waiters;
    }
  }

  lemma PublishRef(s: State, at: Ref, a: Arrival, ref: Ref)
    requires Inv(s) && ref in s.sides
    ensures RefOk(Publish(s, at, a), ref)
  {
    assert RefOk(s, ref);
    hide Inv, RefOk;
    if at != ref {
      PublishElsewhere(s, at, a, ref);
    } else if s.sides[ref].worker {
      PublishHere(s, ref, a);
    }
  }

  lemma PublishHere(s: State, ref: Ref, a: Arrival)
    requires ref in s.sides && RefOk(s, ref) && s.sides[ref].worker
    ensures RefOk(Publish(s, ref, a), ref)
  {
    StoreOk(s.sides[ref], a);
    SameWaiters(s, ref, a, s.sides[ref].handle);
    hide HasWaiter, Wake, Stored;
  }

  lemma PublishElsewhere(s: State, at: Ref, a: Arrival, ref: Ref)
    requires ref in s.sides && at != ref && RefOk(s, ref)
    ensures RefOk(Publish(s, at, a), ref)
  {
    SameWaiters(s, at, a, s.sides[ref].handle);
    hide SideOk, HasWaiter, Store, Wake;
  }

  lemma SameWaiters(s: State, at: Ref, a: Arrival, handle: Handle)
    ensures HasWaiter(Publish(s, at, a), handle) <==> HasWaiter(s, handle)
  {
    if at in s.sides { WakeWaiters(s, Publish(s, at, a), s.sides[at].handle, handle); }
    hide HasWaiter, Store;
  }

  lemma WakeWaiters(s: State, t: State, woken: Handle, handle: Handle)
    requires t.waiters == s.waiters || t.waiters == Wake(s.waiters, woken)
    ensures HasWaiter(t, handle) <==> HasWaiter(s, handle)
  {
    if HasWaiter(s, handle) {
      var op :| op in s.waiters && s.waiters[op].handle == handle;
      assert t.waiters[op].handle == handle;
    }
  }

  lemma TakeRef(s: State, op: OpId, capacity: nat, ref: Ref)
    requires Inv(s) && ref in s.sides
    ensures RefOk(TakeReceive(s, op, capacity).0, ref)
  {
    assert RefOk(s, ref);
    var t := TakeReceive(s, op, capacity).0;
    if t != s {
      var h := s.waiters[op].handle;
      FewerWaiters(s, t, s.sides[ref].handle);
      if h in s.datagrams && s.datagrams[h] == ref {
        TakeHere(s, op, capacity, ref);
      } else {
        hide HasWaiter, SideOk, Truncate;
      }
    }
  }

  lemma TakeHere(s: State, op: OpId, capacity: nat, ref: Ref)
    requires ref in s.sides && RefOk(s, ref) && Live(s, ref) && op in s.waiters && s.waiters[op].handle == s.sides[ref].handle
    ensures RefOk(TakeReceive(s, op, capacity).0, ref)
  {
    FewerWaiters(s, TakeReceive(s, op, capacity).0, s.sides[ref].handle);
    if s.sides[ref].received != [] { TakeFirstOk(s.sides[ref]); }
    hide Truncate;
  }

  lemma FewerWaiters(s: State, t: State, handle: Handle)
    requires forall op | op in t.waiters :: op in s.waiters && s.waiters[op] == t.waiters[op]
    ensures HasWaiter(t, handle) ==> HasWaiter(s, handle)
  {}

  lemma FewerRef(s: State, t: State, ref: Ref)
    requires Inv(s) && ref in s.sides && Shrinks(s, t)
    ensures RefOk(t, ref)
  {
    assert RefOk(s, ref);
    FewerWaiters(s, t, s.sides[ref].handle);
  }

  lemma OpenRef(s: State, h: Handle, at: Ref, ref: Ref)
    requires Inv(s) && ref in OpenDatagram(s, h, at).sides
    ensures RefOk(OpenDatagram(s, h, at), ref)
  {
    var t := OpenDatagram(s, h, at);
    assert ref in s.sides ==> RefOk(s, ref);
    if t != s {
      assert !HasWaiter(t, h);
      FewerWaiters(s, t, t.sides[ref].handle);
    }
  }

  lemma StartShape(s: State, h: Handle, op: OpId)
    requires Shape(s)
    ensures Shape(StartReceive(s, h, op).0) && StartReceive(s, h, op).0.sides.Keys == s.sides.Keys
  {}

  // The tables after a step that keeps every socket under its handle and the same waiters.
  ghost predicate SameTables(s: State, t: State) {
    && t.base.operations == s.base.operations && t.base.closed == s.base.closed
    && t.waiters.Keys == s.waiters.Keys && (forall op | op in s.waiters :: t.waiters[op].handle == s.waiters[op].handle)
    && t.datagrams == s.datagrams && t.owners == s.owners && SameHandles(s, t)
  }

  ghost predicate SameHandles(s: State, t: State) {
    t.sides.Keys == s.sides.Keys && (forall ref | ref in s.sides :: t.sides[ref].handle == s.sides[ref].handle)
  }

  lemma PublishTables(s: State, ref: Ref, a: Arrival)
    ensures SameTables(s, Publish(s, ref, a))
  {
    hide HasWaiter;
  }

  lemma PublishShape(s: State, ref: Ref, a: Arrival)
    requires Shape(s)
    ensures Shape(Publish(s, ref, a)) && Publish(s, ref, a).sides.Keys == s.sides.Keys
  {
    PublishTables(s, ref, a);
    hide Publish;
    assert forall h | h in s.waiters :: Holds(s.base, h, UdpRead);
  }

  // The tables after an operation is answered.
  ghost predicate Gives(s: State, t: State, op: OpId) {
    && t.base == Release(s.base, op, UdpRead) && t.waiters == s.waiters - {op}
    && t.datagrams == s.datagrams && t.owners == s.owners && SameHandles(s, t)
  }

  lemma TakeGives(s: State, op: OpId, capacity: nat)
    ensures TakeReceive(s, op, capacity).0 == s || Gives(s, TakeReceive(s, op, capacity).0, op)
  {
    hide HasWaiter, Truncate;
  }

  lemma GivesShape(s: State, t: State, op: OpId)
    requires Shape(s) && Gives(s, t, op)
    ensures Shape(t)
  {}

  lemma TakeShape(s: State, op: OpId, capacity: nat)
    requires Shape(s)
    ensures Shape(TakeReceive(s, op, capacity).0) && TakeReceive(s, op, capacity).0.sides.Keys == s.sides.Keys
  {
    TakeGives(s, op, capacity);
    if TakeReceive(s, op, capacity).0 != s { GivesShape(s, TakeReceive(s, op, capacity).0, op); }
    hide Shape, TakeReceive;
  }

  lemma OpenShape(s: State, h: Handle, ref: Ref)
    requires Shape(s)
    ensures Shape(OpenDatagram(s, h, ref))
  {}

  // The steps that only take handles and waiters away, or touch neither.
  predicate Fewer(e: Step) {
    !e.DoStart? && !e.DoPublish? && !e.DoTake? && !e.DoOpen?
  }

  // What such a step leaves: the same sockets known, and no handle or waiter that is new.
  ghost predicate Shrinks(s: State, t: State) {
    && t.sides == s.sides && t.owners == s.owners
    && (forall h | h in t.datagrams :: h in s.datagrams && s.datagrams[h] == t.datagrams[h])
    && (forall op | op in t.waiters :: op in s.waiters && s.waiters[op] == t.waiters[op])
  }

  lemma FewerShrinks(s: State, e: Step)
    requires Fewer(e)
    ensures Shrinks(s, Act(s, e))
  {}

  lemma FewerShape(s: State, e: Step)
    requires Shape(s) && Fewer(e)
    ensures Shape(Act(s, e))
  {}

  lemma ActShape(s: State, e: Step)
    requires Shape(s)
    ensures Shape(Act(s, e))
    ensures !e.DoOpen? ==> Act(s, e).sides.Keys == s.sides.Keys
  {
    hide Shape, StartReceive, Publish, TakeReceive, OpenDatagram, Interfere;
    match e
    case DoStart(h, op) => StartShape(s, h, op);
    case DoPublish(at, a) => PublishShape(s, at, a);
    case DoTake(op, capacity) => TakeShape(s, op, capacity);
    case DoOpen(h, at) => OpenShape(s, h, at);
    case _ => FewerShape(s, e); FewerShrinks(s, e);
  }

  lemma ActRef(s: State, e: Step, ref: Ref)
    requires Inv(s) && ref in Act(s, e).sides
    ensures RefOk(Act(s, e), ref)
  {
    ActShape(s, e);
    if Fewer(e) {
      FewerShrinks(s, e);
      FewerRef(s, Act(s, e), ref);
    } else {
      hide RefOk, Shape, StartReceive, Publish, TakeReceive, OpenDatagram;
      match e
      case DoStart(h, op) => StartRef(s, h, op, ref);
      case DoPublish(at, a) => PublishRef(s, at, a, ref);
      case DoTake(op, capacity) => TakeRef(s, op, capacity, ref);
      case DoOpen(h, at) => OpenRef(s, h, at, ref);
    }
  }

  lemma ActInv(s: State, e: Step)
    requires Inv(s)
    ensures Inv(Act(s, e))
  {
    ActShape(s, e);
    hide RefOk, Shape, Act;
    forall ref | ref in Act(s, e).sides ensures RefOk(Act(s, e), ref) {
      ActRef(s, e, ref);
    }
  }

  // A step drops no signal, and whatever it makes takeable it also announces.
  ghost predicate Covers(s: State, t: State) {
    && (Signalled(s.base) ==> Signalled(t.base))
    && t.seen == s.seen
    && forall op | op in t.waiters && Takeable(t, op) :: Signalled(t.base) || (op in s.waiters && Takeable(s, op))
  }

  lemma StartCovers(s: State, h: Handle, op: OpId)
    requires Shape(s)
    ensures Covers(s, StartReceive(s, h, op).0)
  {}

  lemma OthersCover(s: State, e: Step)
    requires Shape(s) && !e.DoStart? && !e.DoPublish? && !e.DoTake? && !e.DoConsume?
    ensures Covers(s, Act(s, e))
  {}

  lemma ActCovers(s: State, e: Step)
    requires Inv(s) && !e.DoConsume?
    ensures Covers(s, Act(s, e))
  {
    hide Covers, RefOk, Shape, StartReceive, Publish, TakeReceive;
    match e
    case DoStart(h, op) => StartCovers(s, h, op);
    case DoPublish(ref, a) => PublishCovers(s, ref, a);
    case DoTake(op, capacity) => TakeCovers(s, op, capacity);
    case _ => OthersCover(s, e);
  }

  lemma PublishCovers(s: State, ref: Ref, a: Arrival)
    requires Inv(s)
    ensures Covers(s, Publish(s, ref, a))
  {
    hide SideOk;
  }

  lemma TakeCovers(s: State, op: OpId, capacity: nat)
    ensures Covers(s, TakeReceive(s, op, capacity).0)
  {}

  lemma ApplyInv(s: State, e: Step)
    requires Inv(s) && Announced(s)
    ensures Inv(Apply(s, e)) && Announced(Apply(s, e))
  {
    ActInv(s, e);
    PruneInv(Act(s, e));
    hide Inv, Act;
    if e.DoConsume? {
      ConsumeAnnounced(s);
    } else {
      ActCovers(s, e);
    }
  }

  lemma PruneInv(s: State)
    requires Inv(s)
    ensures Inv(Prune(s))
  {
    hide SideOk;
    forall ref | ref in s.sides ensures RefOk(Prune(s), ref) {
      FewerRef(s, Prune(s), ref);
    }
  }

  lemma ConsumeAnnounced(s: State)
    requires Announced(s)
    ensures Announced(Apply(s, DoConsume))
  {}

  lemma {:induction false} RunInv(es: seq<Step>)
    ensures Inv(Run(es)) && Announced(Run(es))
  {
    if es == [] {
    } else {
      RunInv(es[..|es| - 1]);
      ApplyInv(Run(es[..|es| - 1]), es[|es| - 1]);
    }
  }

  // ---------------------------------------------------------------- what every run guarantees

  /** At most 64 datagrams are queued, a running worker always has room for one more, and
      an open socket has a worker exactly while its running flag is set. */
  lemma ReceiveQueueBounded(es: seq<Step>, ref: Ref)
    requires ref in Run(es).sides
    ensures var d := Run(es).sides[ref];
      && |d.received| <= CAPACITY
      && (d.running ==> |d.received| < CAPACITY)
      && (d.worker ==> d.running)
      && (Live(Run(es), ref) ==> d.worker == d.running)
  {
    RunInv(es);
    assert RefOk(Run(es), ref);
    hide Run;
  }

  /** Datagrams are handed out in the order they came, none lost and none twice. */
  lemma ReceivedInOrder(es: seq<Step>, ref: Ref)
    requires ref in Run(es).sides
    ensures Run(es).sides[ref].taken + Run(es).sides[ref].received == Run(es).sides[ref].arrived
  {
    RunInv(es);
    assert RefOk(Run(es), ref);
    hide Run;
  }

  // A socket in the table is there under its own handle.
  ghost predicate Named(s: State, ref: Ref)
    requires ref in s.sides
  {
    && (forall h | h in s.datagrams && s.datagrams[h] == ref :: h == s.sides[ref].handle)
    && (s.sides[ref].handle in s.datagrams ==> s.datagrams[s.sides[ref].handle] == ref)
  }

  lemma InvNamed(s: State, ref: Ref)
    requires Inv(s) && ref in s.sides
    ensures Named(s, ref)
  {
    assert RefOk(s, ref);
  }

  lemma TakeIsLogged(s: State, op: OpId, capacity: nat, ref: Ref)
    requires ref in s.sides && Named(s, ref)
    ensures var (t, r) := TakeReceive(s, op, capacity);
      && ref in t.sides && t.sides[ref].arrived == s.sides[ref].arrived
      && if op in s.waiters && s.waiters[op].handle == s.sides[ref].handle && r.Taken?
         then exists g :: t.sides[ref].taken == s.sides[ref].taken + [g] && r == Taken(Truncate(g, capacity))
         else t.sides[ref].taken == s.sides[ref].taken
  {
    hide HasWaiter;
    if op in s.waiters && s.waiters[op].handle == s.sides[ref].handle && TakeReceive(s, op, capacity).1.Taken? {
      assert TakeReceive(s, op, capacity).1 == Taken(Truncate(s.sides[ref].received[0], capacity));
    }
  }

  lemma PublishIsLogged(s: State, at: Ref, a: Arrival, ref: Ref)
    requires ref in s.sides
    ensures var t := Publish(s, at, a);
      && ref in t.sides && t.sides[ref].taken == s.sides[ref].taken
      && t.sides[ref].arrived == if at == ref && s.sides[ref].worker && Live(s, ref) && a.Got?
                                 then s.sides[ref].arrived + [a.datagram] else s.sides[ref].arrived
  {
    hide HasWaiter;
  }

  lemma OthersLogNothing(s: State, e: Step, ref: Ref)
    requires ref in s.sides && !e.DoTake? && !e.DoPublish?
    ensures ref in Act(s, e).sides
    ensures Act(s, e).sides[ref].taken == s.sides[ref].taken && Act(s, e).sides[ref].arrived == s.sides[ref].arrived
  {
    hide Interfere;
  }

  /** The logs are the calls: on an open socket a worker records every datagram it reads,
      and TakeReceive records, untruncated, the datagram it returns. */
  lemma ReceiveLogsAreCalls(s: State, e: Step, ref: Ref)
    requires Inv(s) && ref in s.sides
    ensures ref in Apply(s, e).sides
    ensures var (d, t) := (s.sides[ref], Apply(s, e).sides[ref]);
      && t.arrived == (if e.DoPublish? && e.ref == ref && d.worker && Live(s, ref) && e.arrival.Got?
                       then d.arrived + [e.arrival.datagram] else d.arrived)
      && (if e.DoTake? && e.op in s.waiters && s.waiters[e.op].handle == d.handle && TakeReceive(s, e.op, e.capacity).1.Taken?
          then exists g :: t.taken == d.taken + [g] && TakeReceive(s, e.op, e.capacity).1 == Taken(Truncate(g, e.capacity))
          else t.taken == d.taken)
  {
    InvNamed(s, ref);
    hide Inv, TakeReceive, Publish, Live, Named;
    if e.DoTake? {
      TakeIsLogged(s, e.op, e.capacity, ref);
    } else if e.DoPublish? {
      PublishIsLogged(s, e.ref, e.arrival, ref);
    } else {
      OthersLogNothing(s, e, ref);
      hide Act;
    }
  }

  /** While a handle is open nobody waits in vain: behind a waiter there is a running
      worker, a queued datagram, or an error to report. */
  lemma ReceiveNeverStalls(es: seq<Step>, op: OpId)
    requires op in Run(es).waiters && Run(es).waiters[op].handle in Run(es).datagrams
    ensures var s := Run(es);
      && s.datagrams[s.waiters[op].handle] in s.sides
      && var d := s.sides[s.datagrams[s.waiters[op].handle]];
      (d.running && d.worker) || d.received != [] || d.err.Some?
  {
    RunInv(es);
    var s := Run(es);
    var ref := s.datagrams[s.waiters[op].handle];
    assert RefOk(s, ref);
    hide Run;
    assert HasWaiter(s, s.waiters[op].handle);
  }

  /** While a handle is open no wakeup is lost: a waiter that has something to take has had
      a token received since, or the token is there, or a thread is about to send it. */
  lemma NoReceiveWakeupLost(es: seq<Step>, op: OpId)
    requires op in Run(es).waiters && Takeable(Run(es), op)
    ensures Signalled(Run(es).base) || op in Run(es).seen
  {
    RunInv(es);
    hide Run, Inv, Takeable;
  }

  // ---------------------------------------------------------------- errors

  // Every error that came in was handed out, was overwritten, or is stored.
  ghost predicate ErrorsOk(d: Side) {
    multiset(d.told) + multiset(d.replaced) + multiset(Stored(d)) == multiset(d.failures)
  }

  // Stored error and error logs are the same.
  predicate SameErrors(d: Side, t: Side) {
    t.err == d.err && t.failures == d.failures && t.told == d.told && t.replaced == d.replaced
  }

  lemma PublishErrors(s: State, at: Ref, a: Arrival, ref: Ref)
    requires ref in s.sides
    ensures var (d, t) := (s.sides[ref], Publish(s, at, a));
      && ref in t.sides
      && if at == ref && d.worker && Live(s, ref) && a.Lost?
         then var u := t.sides[ref]; u.err == Some(a.error) && u.failures == d.failures + [a.error] && u.told == d.told
                                     && u.replaced == d.replaced + Stored(d)
         else SameErrors(d, t.sides[ref])
  {
    hide HasWaiter;
  }

  lemma TakeErrors(s: State, op: OpId, capacity: nat, ref: Ref)
    requires ref in s.sides && Named(s, ref)
    ensures var (d, (t, r)) := (s.sides[ref], TakeReceive(s, op, capacity));
      && ref in t.sides
      && if op in s.waiters && s.waiters[op].handle == d.handle && r.Broken?
         then var u := t.sides[ref]; d.err == Some(r.cause) && u.err == None && u.told == d.told + [r.cause]
                                     && u.failures == d.failures && u.replaced == d.replaced
         else SameErrors(d, t.sides[ref])
  {
    hide HasWaiter;
  }

  lemma OtherErrors(s: State, e: Step, ref: Ref)
    requires ref in s.sides && !e.DoPublish? && !e.DoTake?
    ensures ref in Apply(s, e).sides && SameErrors(s.sides[ref], Apply(s, e).sides[ref])
  {
    hide Interfere;
  }

  /** What happens to errors, step by step: one comes in only with a failed ReadFrom on an open
      socket, is handed out only as the answer of TakeUDPReceive, and is overwritten exactly when
      another comes in while it is stored. */
  lemma ErrorLogsAreCalls(s: State, e: Step, ref: Ref)
    requires Inv(s) && ref in s.sides
    ensures ref in Apply(s, e).sides
    ensures var (d, t) := (s.sides[ref], Apply(s, e).sides[ref]);
      var failed := e.DoPublish? && e.ref == ref && d.worker && Live(s, ref) && e.arrival.Lost?;
      && t.failures == (if failed then d.failures + [e.arrival.error] else d.failures)
      && t.replaced == (if failed && d.err.Some? then d.replaced + [d.err.value] else d.replaced)
      && t.told == (if e.DoTake? && e.op in s.waiters && s.waiters[e.op].handle == d.handle && TakeReceive(s, e.op, e.capacity).1.Broken?
                    then d.told + [TakeReceive(s, e.op, e.capacity).1.cause] else d.told)
  {
    InvNamed(s, ref);
    hide Inv, Publish, TakeReceive, Live, Named;
    if e.DoPublish? {
      PublishErrors(s, e.ref, e.arrival, ref);
    } else if e.DoTake? {
      TakeErrors(s, e.op, e.capacity, ref);
    } else {
      OtherErrors(s, e, ref);
      hide Apply;
    }
  }

  // One error comes in over the stored one, or the stored one is handed out.
  lemma ComesOk(d: Side, t: Side, e: IoError)
    requires ErrorsOk(d) && t.err == Some(e) && t.failures == d.failures + [e] && t.told == d.told
    requires t.replaced == d.replaced + Stored(d)
    ensures ErrorsOk(t)
  {}

  lemma GoesOk(d: Side, t: Side)
    requires ErrorsOk(d) && t.err == None && t.failures == d.failures && t.told == d.told + Stored(d)
    requires t.replaced == d.replaced
    ensures ErrorsOk(t)
  {}

  lemma ErrorsKept(s: State, e: Step, ref: Ref)
    requires Inv(s) && ref in s.sides && ErrorsOk(s.sides[ref])
    ensures ref in Apply(s, e).sides && ErrorsOk(Apply(s, e).sides[ref])
  {
    InvNamed(s, ref);
    hide Inv, Publish, TakeReceive, Live, Named, SameErrors, Answerable, ErrorsOk;
    var d := s.sides[ref];
    if e.DoPublish? {
      PublishErrors(s, e.ref, e.arrival, ref);
      var t := Publish(s, e.ref, e.arrival).sides[ref];
      if SameErrors(d, t) { SameOk(d, t); } else { ComesOk(d, t, e.arrival.error); }
    } else if e.DoTake? {
      TakeErrors(s, e.op, e.capacity, ref);
      var t := TakeReceive(s, e.op, e.capacity).0.sides[ref];
      if SameErrors(d, t) { SameOk(d, t); } else { GoesOk(d, t); }
    } else {
      OtherErrors(s, e, ref);
      SameOk(d, Apply(s, e).sides[ref]);
      hide Apply;
    }
  }

  lemma SameOk(d: Side, t: Side)
    requires ErrorsOk(d) && SameErrors(d, t)
    ensures ErrorsOk(t)
  {}

  /** No error is forgotten otherwise: over any run those that came in are those handed out,
      those overwritten and the one stored. */
  lemma {:induction false} ErrorsAccounted(es: seq<Step>, ref: Ref)
    requires ref in Run(es).sides
    ensures ErrorsOk(Run(es).sides[ref])
  {
    if es != [] {
      var before, e := es[..|es| - 1], es[|es| - 1];
      RunInv(before);
      if ref in Run(before).sides {
        ErrorsAccounted(before, ref);
        ErrorsKept(Run(before), e, ref);
        hide ErrorsOk;
      } else {
        NewErrors(Run(before), e, ref);
      }
    }
  }

  lemma NewErrors(s: State, e: Step, ref: Ref)
    requires ref !in s.sides && ref in Apply(s, e).sides
    ensures Apply(s, e).sides[ref] == NewSide(e.handle)
  {}

  // A worker is reading although an error is stored, which its next failure would overwrite.
  predicate OverError(d: Side) {
    d.running && d.err.Some?
  }

  lemma TakeOverError(s: State, op: OpId, capacity: nat, ref: Ref)
    requires Inv(s) && ref in s.sides && Live(s, ref) && !OverError(s.sides[ref])
    ensures var (d, t) := (s.sides[ref], TakeReceive(s, op, capacity).0);
      && ref in t.sides
      && (OverError(t.sides[ref]) <==>
            && op in s.waiters && s.waiters[op].handle == d.handle && d.received != [] && d.err.Some?
            && exists x :: x in s.waiters && x != op && s.waiters[x].handle == d.handle)
  {
    InvNamed(s, ref);
    assert RefOk(s, ref);
    var t := TakeReceive(s, op, capacity).0;
    if x :| x in s.waiters && x != op && s.waiters[x].handle == s.sides[ref].handle {
      assert op in s.waiters ==> x in (s.waiters - {op});
    }
    if op in s.waiters && Holds(s.base, op, UdpRead) {
      var u := s.(waiters := s.waiters - {op}, base := Release(s.base, op, UdpRead));
      assert HasWaiter(u, s.sides[ref].handle) <==> exists x :: x in s.waiters && x != op && s.waiters[x].handle == s.sides[ref].handle;
    }
  }

  /** Exactly which step puts a stored error at risk: a TakeUDPReceive that returns a datagram
      while an error is stored behind it and another waiter remains, for it starts the worker
      again. */
  lemma RiskOnlyByTake(s: State, e: Step, ref: Ref)
    requires Inv(s) && ref in s.sides && Live(s, ref) && !OverError(s.sides[ref])
    ensures var d := s.sides[ref];
      && ref in Apply(s, e).sides
      && (OverError(Apply(s, e).sides[ref]) <==>
            && e.DoTake? && e.op in s.waiters && s.waiters[e.op].handle == d.handle && d.received != [] && d.err.Some?
            && exists x :: x in s.waiters && x != e.op && s.waiters[x].handle == d.handle)
  {
    if e.DoTake? {
      TakeOverError(s, e.op, e.capacity, ref);
      hide Inv, TakeReceive;
    } else if e.DoPublish? {
      PublishNoRisk(s, e.ref, e.arrival, ref);
      hide Inv, Publish;
    } else {
      OthersNoRisk(s, e, ref);
      hide Inv, Act;
    }
  }

  lemma PublishNoRisk(s: State, at: Ref, a: Arrival, ref: Ref)
    requires Inv(s) && ref in s.sides && !OverError(s.sides[ref])
    ensures ref in Publish(s, at, a).sides && !OverError(Publish(s, at, a).sides[ref])
  {
    assert RefOk(s, ref);
    hide HasWaiter, Wake, Inv;
  }

  lemma OthersNoRisk(s: State, e: Step, ref: Ref)
    requires Shape(s) && ref in s.sides && !OverError(s.sides[ref]) && !e.DoTake? && !e.DoPublish?
    ensures ref in Act(s, e).sides && !OverError(Act(s, e).sides[ref])
  {
    hide HasWaiter, Interfere, Wake;
  }

  lemma RunTo(es: seq<Step>, e: Step, s: State, t: State)
    requires Run(es) == s && Apply(s, e) == t
    ensures Run(es + [e]) == t
  {
    RunSnoc(es, e);
  }

  // Two wait; a datagram comes, then an error, and taking the datagram starts the worker again.
  const GRAM := Datagram([], 0)
  const BOUND := State(Core.Fresh, map[1 := 0], map[1 := 0], map[0 := NewSide(1)], map[], {})
  const ASKED := BOUND.(base := Core.Fresh.(operations := map[7 := UdpRead]), waiters := map[7 := Waiter(1, false)],
                        sides := map[0 := NewSide(1).(running := true, worker := true)])
  const BOTH := ASKED.(base := Core.Fresh.(operations := map[7 := UdpRead, 8 := UdpRead]),
                       waiters := map[7 := Waiter(1, false), 8 := Waiter(1, false)])
  const GOT := BOTH.(base := BOTH.base.(owes := 1), waiters := map[7 := Waiter(1, true), 8 := Waiter(1, true)],
                     sides := map[0 := Side(1, [GRAM], true, None, true, [GRAM], [], [], [], [])])
  const FAILED := GOT.(base := BOTH.base.(owes := 2), sides := map[0 := Side(1, [GRAM], false, Some(EOF), false, [GRAM], [], [EOF], [], [])])
  const TAKEN := FAILED.(base := Core.Fresh.(operations := map[8 := UdpRead], owes := 2), waiters := map[8 := Waiter(1, true)],
                         sides := map[0 := Side(1, [], true, Some(EOF), true, [GRAM], [GRAM], [EOF], [], [])])
  const OVERWRITTEN := TAKEN.(base := Core.Fresh.(operations := map[8 := UdpRead], owes := 3),
                              sides := map[0 := Side(1, [], false, Some(NetClosed), false, [GRAM], [GRAM], [EOF, NetClosed], [], [EOF])])

  lemma AskSteps()
    ensures Apply(Init, DoOpen(1, 0)) == BOUND && Apply(BOUND, DoStart(1, 7)) == ASKED && Apply(ASKED, DoStart(1, 8)) == BOTH
  {}

  lemma Sequences()
    ensures ([] + [GRAM])[..] == [GRAM] && [GRAM][1..] == [] && [EOF] + [NetClosed] == [EOF, NetClosed]
    ensures forall e: IoError :: [] + [e] == [e]
  {}

  lemma ArriveStep()
    ensures Apply(BOTH, DoPublish(0, Got(GRAM))) == GOT
  {
    Sequences();
    assert 7 in BOTH.waiters && BOTH.waiters[7].handle == 1 && HasWaiter(BOTH, 1);
    assert Wake(BOTH.waiters, 1) == GOT.waiters;
    assert Store(BOTH.sides[0], Got(GRAM)) == GOT.sides[0];
  }

  lemma FailStep()
    ensures Apply(GOT, DoPublish(0, Lost(EOF))) == FAILED
  {
    Sequences();
    assert 7 in GOT.waiters && GOT.waiters[7].handle == 1 && HasWaiter(GOT, 1);
    assert Wake(GOT.waiters, 1) == GOT.waiters;
    assert Continue(Store(GOT.sides[0], Lost(EOF)), false) == FAILED.sides[0];
  }

  lemma TakeStep()
    ensures Apply(FAILED, DoTake(7, 0)) == TAKEN
  {
    Sequences();
    var t := FAILED.(waiters := FAILED.waiters - {7}, base := Release(FAILED.base, 7, UdpRead));
    Given();
    assert HasWaiter(t, 1) by { assert 8 in t.waiters; }
    hide HasWaiter, Answerable, Wake;
    assert Launch(TakeFirst(FAILED.sides[0]), true) == TAKEN.sides[0];
  }

  lemma Given()
    ensures FAILED.waiters - {7} == TAKEN.waiters && Release(FAILED.base, 7, UdpRead) == TAKEN.base
  {}

  lemma OverwriteStep()
    ensures Apply(TAKEN, DoPublish(0, Lost(NetClosed))) == OVERWRITTEN
  {
    Sequences();
    assert 8 in TAKEN.waiters && TAKEN.waiters[8].handle == 1 && HasWaiter(TAKEN, 1);
    assert Wake(TAKEN.waiters, 1) == TAKEN.waiters;
    assert Continue(Store(TAKEN.sides[0], Lost(NetClosed)), false) == OVERWRITTEN.sides[0];
  }

  /** It does happen: here the first of two errors is never handed out. */
  lemma ErrorIsOverwritten()
    ensures exists es :: 0 in Run(es).sides && Run(es).sides[0].failures == [EOF, NetClosed] && Run(es).sides[0].replaced == [EOF]
  {
    AskSteps();
    ArriveStep();
    FailStep();
    TakeStep();
    OverwriteStep();
    hide Apply, BOUND, ASKED, BOTH, GOT, FAILED, TAKEN;
    RunTo([], DoOpen(1, 0), Init, BOUND);
    hide Run;
    var es := [] + [DoOpen(1, 0)];
    RunTo(es, DoStart(1, 7), BOUND, ASKED);
    es := es + [DoStart(1, 7)];
    RunTo(es, DoStart(1, 8), ASKED, BOTH);
    es := es + [DoStart(1, 8)];
    RunTo(es, DoPublish(0, Got(GRAM)), BOTH, GOT);
    es := es + [DoPublish(0, Got(GRAM))];
    RunTo(es, DoPublish(0, Lost(EOF)), GOT, FAILED);
    es := es + [DoPublish(0, Lost(EOF))];
    RunTo(es, DoTake(7, 0), FAILED, TAKEN);
    es := es + [DoTake(7, 0)];
    RunTo(es, DoPublish(0, Lost(NetClosed)), TAKEN, OVERWRITTEN);
    es := es + [DoPublish(0, Lost(NetClosed))];
  }

  // ---------------------------------------------------------------- closing a handle

  // The waiter has an answer and no way to learn of it: no token has come since, none is
  // there, and none is promised.
  predicate Untold(s: State, op: OpId) {
    Answerable(s, op) && !Signalled(s.base) && op !in s.seen
  }

  /** What CloseHandle does to a waiter, seen before the call: it waits on the handle, the
      socket has nothing for it, and no signal is on its way. */
  predicate Strands(s: State, e: Step, op: OpId) {
    && e.DoCloseHandle? && e.handle in s.datagrams && op in s.waiters && s.waiters[op].handle == e.handle
    && !Takeable(s, op) && !Signalled(s.base)
  }

  // A step that is no CloseHandle announces whatever it answers.
  ghost predicate Tells(s: State, t: State) {
    && (Signalled(s.base) ==> Signalled(t.base))
    && t.seen == s.seen
    && forall op | Answerable(t, op) :: Signalled(t.base) || Answerable(s, op)
  }

  lemma StartTells(s: State, h: Handle, op: OpId)
    ensures Tells(s, StartReceive(s, h, op).0)
  {}

  lemma PublishTells(s: State, ref: Ref, a: Arrival)
    requires Inv(s)
    ensures Tells(s, Publish(s, ref, a))
  {
    PublishCovers(s, ref, a);
    hide SideOk, Takeable;
  }

  lemma TakeTells(s: State, op: OpId, capacity: nat)
    ensures Tells(s, TakeReceive(s, op, capacity).0)
  {
    hide HasWaiter;
  }

  lemma OthersTell(s: State, e: Step)
    requires Shape(s) && !e.DoStart? && !e.DoPublish? && !e.DoTake? && !e.DoConsume? && !e.DoCloseHandle?
    ensures Tells(s, Act(s, e))
  {}

  lemma ActTells(s: State, e: Step)
    requires Inv(s) && !e.DoConsume? && !e.DoCloseHandle?
    ensures Tells(s, Act(s, e))
  {
    hide Tells, RefOk, StartReceive, Publish, TakeReceive;
    match e
    case DoStart(h, op) => StartTells(s, h, op);
    case DoPublish(ref, a) => PublishTells(s, ref, a);
    case DoTake(op, capacity) => TakeTells(s, op, capacity);
    case _ => OthersTell(s, e);
  }

  lemma ToldStays(s: State, e: Step, op: OpId)
    requires Inv(s) && !Untold(s, op) && !e.DoCloseHandle?
    ensures !Untold(Apply(s, e), op)
  {
    if e.DoConsume? {
      hide Inv;
    } else {
      ActTells(s, e);
      hide Inv, Act;
    }
  }

  lemma CloseTells(s: State, h: Handle, op: OpId)
    requires !Untold(s, op) && (forall x | x in s.seen :: Answerable(s, x))
    ensures Untold(Apply(s, DoCloseHandle(h)), op) <==> Strands(s, DoCloseHandle(h), op)
  {}

  lemma SeenAreAnswerable(es: seq<Step>, op: OpId)
    requires op in Run(es).seen
    ensures Answerable(Run(es), op)
  {}

  /** Exactly which step leaves which waiter untold: CloseHandle, the waiters of a socket that
      holds nothing for them while no signal is on its way; and no other step, ever. */
  lemma UntoldByCloseHandleOnly(es: seq<Step>, e: Step, op: OpId)
    requires !Untold(Run(es), op)
    ensures Untold(Apply(Run(es), e), op) <==> Strands(Run(es), e, op)
  {
    RunInv(es);
    forall x | x in Run(es).seen ensures Answerable(Run(es), x) { SeenAreAnswerable(es, x); }
    hide Run;
    if e.DoCloseHandle? { CloseTells(Run(es), e.handle, op); } else { ToldStays(Run(es), e, op); }
  }

  ghost predicate StrandsNobody(s: State, e: Step) {
    forall op :: !Strands(s, e, op)
  }

  // After every step of the run every waiter with an answer can learn of it.
  ghost predicate AlwaysTold(es: seq<Step>) {
    es == [] || (AlwaysTold(es[..|es| - 1]) && forall op :: !Untold(Run(es), op))
  }

  // No step of the run closes a handle under a waiter in that way.
  ghost predicate NeverStrands(es: seq<Step>) {
    es == [] || (NeverStrands(es[..|es| - 1]) && StrandsNobody(Run(es[..|es| - 1]), es[|es| - 1]))
  }

  /** So over a whole run every waiter with an answer can learn of it if and only if no handle
      is closed under a waiter that the socket has nothing for while no signal is on its way. */
  lemma {:induction false} AllToldUnlessStranded(es: seq<Step>)
    ensures AlwaysTold(es) <==> NeverStrands(es)
  {
    if es != [] {
      var before, e := es[..|es| - 1], es[|es| - 1];
      AllToldUnlessStranded(before);
      if AlwaysTold(before) {
        forall op ensures Untold(Run(es), op) <==> Strands(Run(before), e, op) {
          NoneUntold(before, op);
          UntoldByCloseHandleOnly(before, e, op);
        }
      }
      hide Run, Untold, Strands;
    }
  }

  lemma NoneUntold(es: seq<Step>, op: OpId)
    requires AlwaysTold(es)
    ensures !Untold(Run(es), op)
  {}

  /** It does happen: here one waits whose next TakeUDPReceive would report the closed handle,
      with no token present, promised or ever received. */
  lemma CloseHandleStrandsWaiter()
    ensures var s := Run([DoOpen(1, 0), DoStart(1, 7), DoCloseHandle(1)]);
      && 7 in s.waiters && s.waiters[7].handle !in s.datagrams
      && TakeReceive(s, 7, 0).1 == Failed(Invalid)
      && !Signalled(s.base) && 7 !in s.seen
  {
    var o, w, c := DoOpen(1, 0), DoStart(1, 7), DoCloseHandle(1);
    RunSnoc([], o);
    RunSnoc([o], w);
    RunSnoc([o, w], c);
    assert [] + [o] == [o] && [o] + [w] == [o, w] && [o, w] + [c] == [o, w, c];
    var first := Run([o]);
    assert first.datagrams == map[1 := 0] && first.sides == map[0 := NewSide(1)];
    assert first.base == Core.Fresh && first.waiters == map[] && first.seen == {};
    var second := Run([o, w]);
    assert second.waiters == map[7 := Waiter(1, false)] && !Signalled(second.base) && second.seen == {};
  }

  lemma RunSnoc(es: seq<Step>, e: Step)
    ensures Run(es + [e]) == Apply(Run(es), e)
  {
    assert (es + [e])[..|es|] == es;
  }
}

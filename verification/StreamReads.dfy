/** The read half of a stream: a read-ahead buffer shared by a first-in
    first-out queue of cancellable waiters (internal/reactor/stream.go). */
module StreamReads {
  import opened Core
  import opened Queues

  type Ref = Serial

  datatype Waiter = Waiter(serial: Serial, op: OpId, capacity: nat)

  // One thing connection.Read handed to the reactor: a byte, or the error that ended a call.
  datatype Item = Data(octet: u8) | Fault(error: IoError)

  /** The read fields of streamState.  `task` is the buffer size of the worker in
      flight; `arrived`, `delivered` and `served` record what came from the socket,
      what TakeRead gave out, and which waiters got it. */
  datatype ReadSide = ReadSide(
    closed: bool,
    queue: seq<Waiter>,
    running: bool,
    ready: bool,
    data: seq<u8>,
    err: Option<IoError>,
    task: nat,
    arrived: seq<Item>,
    delivered: seq<Item>,
    served: seq<Serial>)

  const NewSide := ReadSide(false, [], false, false, [], None, 0, [], [], [])

  function Items(bytes: seq<u8>, err: Option<IoError>): seq<Item> {
    seq(|bytes|, i requires 0 <= i < |bytes| => Data(bytes[i]))
    + match err { case None => [] case Some(e) => [Fault(e)] }
  }

  predicate Available(r: ReadSide) {
    r.ready || (r.closed && !r.running)
  }

  function Enqueue(r: ReadSide, w: Waiter): ReadSide {
    r.(queue := r.queue + [w])
  }

  function Prepare(r: ReadSide, reactorClosed: bool): ReadSide {
    if reactorClosed || r.closed || r.running || r.ready || r.queue == [] then r
    else r.(running := true, task := r.queue[0].capacity)
  }

  // The critical section that ends runStreamRead.
  function Publish(r: ReadSide, bytes: seq<u8>, err: Option<IoError>): ReadSide {
    r.(running := false, data := bytes, err := err, ready := true, arrived := r.arrived + Items(bytes, err))
  }

  // The data TakeRead copies out, the error that goes with it, and the side without both.
  function TakeBuffered(r: ReadSide, capacity: nat): (ReadSide, seq<u8>, Option<IoError>) {
    if !r.ready then (r, [], Some(NetClosed))
    else
      var take := if |r.data| > capacity then capacity else |r.data|;
      var chunk := r.data[..take];
      if take == |r.data| then
        (r.(data := [], err := None, ready := false, delivered := r.delivered + Items(chunk, r.err)), chunk, r.err)
      else
        (r.(data := r.data[take..], delivered := r.delivered + Items(chunk, None)), chunk, None)
  }

  function PopHead(r: ReadSide): ReadSide
    requires r.queue != []
  {
    r.(queue := r.queue[1..], served := r.served + [r.queue[0].serial])
  }

  function Remove(r: ReadSide, w: Waiter): ReadSide {
    r.(queue := RemoveFirst(r.queue, w))
  }

  function CloseSide(r: ReadSide): ReadSide {
    r.(closed := true)
  }

  function Shutdown(r: ReadSide): ReadSide {
    r.(closed := true, queue := [])
  }

  // ---------------------------------------------------------------- the whole table

  datatype Entry = Entry(waiter: Waiter, stream: Ref)

  datatype State = State(
    base: Base,
    streams: map<Handle, Ref>,
    sides: map<Ref, ReadSide>,
    readers: map<OpId, Entry>,
    next: Serial,
    seen: set<OpId>)

  const Init := State(Core.Fresh, map[], map[], map[], 0, {})

  datatype TakeResult = Failed(error: CallError) | Taken(data: seq<u8>, err: Option<IoError>)

  function HideEof(err: Option<IoError>): Option<IoError> {
    if err == Some(EOF) then None else err
  }

  function StartRead(s: State, handle: Handle, op: OpId, capacity: nat): (State, Option<CallError>) {
    if handle !in s.streams || s.streams[handle] !in s.sides || capacity == 0 then (s, Some(Invalid))
    else
      match Claim(s.base, op, Read)
      case None => (s, Some(Invalid))
      case Some(b) =>
        var ref := s.streams[handle];
        var w := Waiter.Waiter(s.next, op, capacity);
        var queued := Enqueue(s.sides[ref], w);
        (s.(base := Owe(b, Available(queued)),
            sides := s.sides[ref := Prepare(queued, b.closed)],
            readers := s.readers[op := Entry(w, ref)],
            next := s.next + 1), None)
  }

  function PublishRead(s: State, ref: Ref, bytes: seq<u8>, err: Option<IoError>): State {
    if ref !in s.sides || !s.sides[ref].running || |bytes| > s.sides[ref].task then s
    else
      s.(base := Owe(s.base, s.sides[ref].queue != []),
         sides := s.sides[ref := Publish(s.sides[ref], bytes, err)])
  }

  // TakeRead would hand something to this operation.
  predicate Takeable(s: State, op: OpId) {
    && op in s.readers && Holds(s.base, op, Read)
    && s.readers[op].stream in s.sides
    && var r := s.sides[s.readers[op].stream];
    && r.queue != [] && r.queue[0] == s.readers[op].waiter
    && Available(r)
  }

  function TakeRead(s: State, op: OpId): (State, TakeResult) {
    if op !in s.readers || !Holds(s.base, op, Read) then (s, Failed(Invalid))
    else if !Takeable(s, op) then (s, Failed(Pending))
    else
      var ref := s.readers[op].stream;
      var (emptied, data, err) := TakeBuffered(s.sides[ref], s.readers[op].waiter.capacity);
      var popped := PopHead(emptied);
      var b := Release(s.base, op, Read);
      (s.(base := Owe(b, popped.queue != [] && Available(popped)),
          sides := s.sides[ref := Prepare(popped, b.closed)],
          readers := s.readers - {op}), Taken(data, HideEof(err)))
  }

  function CancelRead(s: State, op: OpId): State {
    if op !in s.readers || !Holds(s.base, op, Read) || s.readers[op].stream !in s.sides then s
    else
      var Entry(w, ref) := s.readers[op];
      var r := s.sides[ref];
      var wasFirst := r.queue != [] && r.queue[0] == w;
      var removed := Remove(r, w);
      var b := Release(s.base, op, Read);
      s.(base := Owe(b, wasFirst && removed.queue != [] && Available(removed)),
         sides := s.sides[ref := Prepare(removed, b.closed)],
         readers := s.readers - {op})
  }

  // A factory or an accept stores a new stream under a handle.
  function OpenStream(s: State, handle: Handle, ref: Ref): State {
    if s.base.closed || ref in s.sides then s
    else s.(streams := s.streams[handle := ref], sides := s.sides[ref := NewSide])
  }

  function CloseHandle(s: State, handle: Handle): State {
    if handle !in s.streams || s.streams[handle] !in s.sides then s
    else
      var ref := s.streams[handle];
      var r := CloseSide(s.sides[ref]);
      s.(base := Owe(s.base, r.queue != [] && Available(r)),
         streams := s.streams - {handle},
         sides := s.sides[ref := r])
  }

  function CloseAll(s: State): State {
    if s.base.closed then s
    else
      s.(base := s.base.(closed := true, operations := map[]),
         streams := map[],
         sides := map ref | ref in s.sides ::
           if ref in s.streams.Values then Shutdown(s.sides[ref]) else s.sides[ref],
         readers := map[])
  }

  // The broadcaster receives the token; every read takeable now has been announced.
  function Consume(s: State): State {
    if !s.base.token then s
    else s.(base := s.base.(token := false), seen := set op | op in s.readers && Takeable(s, op))
  }

  // An announcement counts only while the read stays takeable.
  function Prune(s: State): State {
    s.(seen := set op | op in s.seen && Takeable(s, op))
  }

  datatype Step =
    | DoStartRead(handle: Handle, op: OpId, capacity: nat)
    | DoPublish(ref: Ref, bytes: seq<u8>, err: Option<IoError>)
    | DoTakeRead(op: OpId)
    | DoCancel(op: OpId)
    | DoOpen(handle: Handle, ref: Ref)
    | DoCloseHandle(handle: Handle)
    | DoCloseAll
    | DoSignal
    | DoConsume
    | Other(operations: map<OpId, Kind>, promised: nat)

  ghost function Act(s: State, e: Step): State {
    match e
    case DoStartRead(h, op, capacity) => StartRead(s, h, op, capacity).0
    case DoPublish(ref, bytes, err) => PublishRead(s, ref, bytes, err)
    case DoTakeRead(op) => TakeRead(s, op).0
    case DoCancel(op) => CancelRead(s, op)
    case DoOpen(h, ref) => OpenStream(s, h, ref)
    case DoCloseHandle(h) => CloseHandle(s, h)
    case DoCloseAll => CloseAll(s)
    case DoSignal => s.(base := Pay(s.base))
    case DoConsume => Consume(s)
    case Other(ops, promised) => s.(base := Interfere(Read, s.base, ops, promised))
  }

  ghost function Apply(s: State, e: Step): State {
    Prune(Act(s, e))
  }

  ghost function Run(es: seq<Step>): State {
    if es == [] then Init else Apply(Run(es[..|es| - 1]), es[|es| - 1])
  }

  // ---------------------------------------------------------------- invariants

  ghost predicate InOrder(r: ReadSide) {
    && (forall i, j | 0 <= i < j < |r.queue| :: r.queue[i].serial < r.queue[j].serial)
    && (forall i, j | 0 <= i < j < |r.served| :: r.served[i] < r.served[j])
    && (forall i, j | 0 <= i < |r.served| && 0 <= j < |r.queue| :: r.served[i] < r.queue[j].serial)
  }

  ghost predicate SideOk(r: ReadSide) {
    && !(r.running && r.ready)
    && (!r.ready ==> r.data == [] && r.err == None)
    && r.delivered + Items(r.data, r.err) == r.arrived
    && (r.queue != [] ==> r.running || Available(r))
    && InOrder(r)
  }

  ghost predicate ReadersQueue(s: State) {
    forall op | op in s.readers ::
      && Holds(s.base, op, Read)
      && s.readers[op].waiter.op == op
      && s.readers[op].stream in s.sides
      && s.readers[op].waiter in s.sides[s.readers[op].stream].queue
  }

  ghost predicate ClaimsRead(s: State) {
    forall op | op in s.base.operations && s.base.operations[op] == Read :: op in s.readers
  }

  ghost predicate QueuesRead(s: State) {
    forall ref, w | ref in s.sides && w in s.sides[ref].queue :: w.op in s.readers && s.readers[w.op] == Entry(w, ref)
  }

  ghost predicate Linked(s: State) {
    ReadersQueue(s) && ClaimsRead(s) && (!s.base.closed ==> QueuesRead(s))
  }

  ghost predicate Bounded(s: State) {
    && (forall ref, w | ref in s.sides && w in s.sides[ref].queue :: w.serial < s.next)
    && (forall ref, x | ref in s.sides && x in s.sides[ref].served :: x < s.next)
  }

  ghost predicate Shape(s: State) {
    && (forall h | h in s.streams :: s.streams[h] in s.sides)
    && (s.base.closed ==> s.readers == map[] && s.streams == map[] && s.base.operations == map[])
  }

  ghost predicate Inv(s: State) {
    && Shape(s)
    && (forall ref | ref in s.sides :: SideOk(s.sides[ref]))
    && Linked(s)
    && Bounded(s)
  }

  ghost predicate Announced(s: State) {
    forall op | op in s.readers && Takeable(s, op) :: Signalled(s.base) || op in s.seen
  }

  lemma InitInv()
    ensures Inv(Init) && Announced(Init)
  {}

  lemma ItemsSplit(data: seq<u8>, take: nat, err: Option<IoError>)
    requires take <= |data|
    ensures Items(data[..take], None) + Items(data[take..], err) == Items(data, err)
  {
    assert Items(data[..take], None) + Items(data[take..], err) == Items(data, err);
  }

  // Taking from the buffer moves items from the buffer to the reader and loses none.
  lemma TakeBufferedOk(r: ReadSide, capacity: nat)
    requires SideOk(r) && Available(r)
    ensures
      var (t, data, err) := TakeBuffered(r, capacity);
      && t.delivered + Items(t.data, t.err) == t.arrived == r.arrived
      && (r.ready ==> t.delivered == r.delivered + Items(data, err))
      && (!r.ready ==> t == r && data == [] && err == Some(NetClosed))
      && !(t.running && t.ready) && (!t.ready ==> t.data == [] && t.err == None)
      && (r.ready ==> !t.running)
      && t.queue == r.queue && t.served == r.served && t.closed == r.closed
  {
    if r.ready {
      var take := if |r.data| > capacity then capacity else |r.data|;
      ItemsSplit(r.data, take, r.err);
      if take == |r.data| {
        assert r.data[..take] == r.data;
        assert r.delivered + Items(r.data, r.err) + Items([], None) == r.arrived;
      } else {
        assert r.delivered + Items(r.data[..take], None) + Items(r.data[take..], r.err)
            == r.delivered + (Items(r.data[..take], None) + Items(r.data[take..], r.err));
      }
    }
  }

  // The side of a stream with a new last waiter.
  lemma EnqueueOk(r: ReadSide, w: Waiter)
    requires SideOk(r)
    requires forall x | x in r.queue :: x.serial < w.serial
    requires forall x | x in r.served :: x < w.serial
    ensures SideOk(Prepare(Enqueue(r, w), false))
  {
    EnqueueInOrder(r, w);
    hide Items, InOrder;
  }

  lemma EnqueueInOrder(r: ReadSide, w: Waiter)
    requires InOrder(r)
    requires forall x | x in r.queue :: x.serial < w.serial
    requires forall x | x in r.served :: x < w.serial
    ensures InOrder(Enqueue(r, w))
  {
    assert forall i | 0 <= i < |r.queue| :: r.queue[i] in r.queue;
    assert forall i | 0 <= i < |r.served| :: r.served[i] in r.served;
  }

  lemma PublishOk(r: ReadSide, bytes: seq<u8>, err: Option<IoError>)
    requires SideOk(r) && r.running
    ensures SideOk(Publish(r, bytes, err))
  {
    assert r.delivered + Items(r.data, r.err) == r.delivered;
  }

  function AfterTake(r: ReadSide, capacity: nat): ReadSide
    requires r.queue != []
  {
    Prepare(PopHead(TakeBuffered(r, capacity).0), false)
  }

  lemma TakeOk(r: ReadSide, capacity: nat)
    requires SideOk(r) && Available(r) && r.queue != []
    ensures SideOk(AfterTake(r, capacity))
  {
    TakeBufferedOk(r, capacity);
  }

  lemma RemoveInOrder(r: ReadSide, w: Waiter)
    requires SideOk(r) && w in r.queue
    ensures InOrder(Remove(r, w)) && w !in Remove(r, w).queue
    ensures forall x | x in r.queue && x != w :: x in Remove(r, w).queue
    ensures forall x | x in Remove(r, w).queue :: x in r.queue
    ensures Remove(r, w).queue != [] && r.queue[0] != w ==> Remove(r, w).queue[0] == r.queue[0]
  {
    hide Items, RemoveFirst;
    var key, q := (x: Waiter) => x.serial, RemoveFirst(r.queue, w);
    RemoveFirstMembers(r.queue, w);
    RemoveFirstOrder(r.queue, w, key);
    forall i, j | 0 <= i < j < |q| ensures q[i].serial < q[j].serial { assert key(q[i]) < key(q[j]); }
    assert forall j | 0 <= j < |q| :: q[j] in r.queue;
  }

  lemma RemoveOk(r: ReadSide, w: Waiter)
    requires SideOk(r) && w in r.queue
    ensures SideOk(Prepare(Remove(r, w), false))
  {
    RemoveInOrder(r, w);
  }

  lemma HeadOnce(r: ReadSide)
    requires SideOk(r) && r.queue != []
    ensures r.queue[0] !in r.queue[1..]
    ensures forall x | x in r.queue[1..] :: x in r.queue
    ensures forall x | x in r.queue && x != r.queue[0] :: x in r.queue[1..]
  {
    hide Items;
    assert r.queue == [r.queue[0]] + r.queue[1..];
  }

  lemma CloseOk(r: ReadSide)
    requires SideOk(r)
    ensures SideOk(CloseSide(r)) && SideOk(Shutdown(r))
  {}

  // ---------------------------------------------------------------- each step keeps the invariant

  // A step that replaces one side keeps what is said side by side.
  lemma ReplaceSide(s: State, t: State, ref: Ref, r: ReadSide)
    requires Inv(s) && t.sides == s.sides[ref := r] && SideOk(r) && s.next <= t.next
    requires forall w | w in r.queue :: w.serial < t.next
    requires forall x | x in r.served :: x < t.next
    ensures forall x | x in t.sides :: SideOk(t.sides[x])
    ensures Bounded(t)
  {
    hide SideOk;
  }

  // A queue gains or loses waiters, and the table of readers with it.
  ghost predicate SameElsewhere(s: State, t: State, ref: Ref) {
    && t.base.closed == s.base.closed && t.sides.Keys == s.sides.Keys && ref in s.sides
    && forall x | x in s.sides && x != ref :: t.sides[x].queue == s.sides[x].queue
  }

  ghost predicate Gained(s: State, t: State, op: OpId, w: Waiter, ref: Ref) {
    && op !in s.base.operations && w.op == op
    && t.readers == s.readers[op := Entry(w, ref)] && t.base.operations == s.base.operations[op := Read]
    && SameElsewhere(s, t, ref) && t.sides[ref].queue == s.sides[ref].queue + [w]
  }

  ghost predicate Dropped(s: State, t: State, op: OpId) {
    && op in s.readers && Holds(s.base, op, Read)
    && var Entry(w, ref) := s.readers[op];
    && t.readers == s.readers - {op} && t.base.operations == s.base.operations - {op}
    && SameElsewhere(s, t, ref)
    && (forall y | y in s.sides[ref].queue && y != w :: y in t.sides[ref].queue)
    && (forall y | y in t.sides[ref].queue :: y in s.sides[ref].queue && y != w)
  }

  lemma GainedReaders(s: State, t: State, op: OpId, w: Waiter, ref: Ref)
    requires ReadersQueue(s) && ClaimsRead(s) && Gained(s, t, op, w, ref)
    ensures ReadersQueue(t) && ClaimsRead(t)
  {}

  lemma GainedQueues(s: State, t: State, op: OpId, w: Waiter, ref: Ref)
    requires QueuesRead(s) && ReadersQueue(s) && Gained(s, t, op, w, ref)
    ensures QueuesRead(t)
  {}

  lemma GainedLinked(s: State, t: State, op: OpId, w: Waiter, ref: Ref)
    requires Linked(s) && Gained(s, t, op, w, ref)
    ensures Linked(t)
  {
    GainedReaders(s, t, op, w, ref);
    if !s.base.closed { GainedQueues(s, t, op, w, ref); }
    hide ReadersQueue, ClaimsRead, QueuesRead;
  }

  lemma DroppedReaders(s: State, t: State, op: OpId)
    requires ReadersQueue(s) && ClaimsRead(s) && Dropped(s, t, op)
    ensures ReadersQueue(t) && ClaimsRead(t)
  {}

  lemma DroppedQueues(s: State, t: State, op: OpId)
    requires QueuesRead(s) && ReadersQueue(s) && Dropped(s, t, op)
    ensures QueuesRead(t)
  {}

  lemma DroppedLinked(s: State, t: State, op: OpId)
    requires Linked(s) && Dropped(s, t, op)
    ensures Linked(t)
  {
    DroppedReaders(s, t, op);
    if !s.base.closed { DroppedQueues(s, t, op); }
    hide ReadersQueue, ClaimsRead, QueuesRead;
  }

  lemma StartReadLinked(s: State, h: Handle, op: OpId, capacity: nat)
    requires Linked(s)
    ensures Linked(StartRead(s, h, op, capacity).0)
  {
    var t := StartRead(s, h, op, capacity).0;
    hide Linked;
    if t != s {
      GainedLinked(s, t, op, Waiter.Waiter(s.next, op, capacity), s.streams[h]);
    }
  }

  // A step that keeps the queues and the readers keeps their link.
  ghost predicate SameQueues(s: State, t: State) {
    && t.readers == s.readers && t.next == s.next && t.base.operations == s.base.operations && t.base.closed == s.base.closed
    && t.sides.Keys == s.sides.Keys
    && (forall x | x in s.sides :: t.sides[x].queue == s.sides[x].queue && t.sides[x].served == s.sides[x].served)
  }

  lemma SameQueuesOk(s: State, t: State)
    requires SameQueues(s, t) && Linked(s) && Bounded(s)
    ensures Linked(t) && Bounded(t)
  {}

  lemma StartReadInv(s: State, h: Handle, op: OpId, capacity: nat)
    requires Inv(s)
    ensures Inv(StartRead(s, h, op, capacity).0)
  {
    hide SideOk, Linked;
    var t := StartRead(s, h, op, capacity).0;
    StartReadLinked(s, h, op, capacity);
    if t != s {
      var ref := s.streams[h];
      EnqueueOk(s.sides[ref], Waiter.Waiter(s.next, op, capacity));
      ReplaceSide(s, t, ref, t.sides[ref]);
    }
  }

  lemma PublishInv(s: State, ref: Ref, bytes: seq<u8>, err: Option<IoError>)
    requires Inv(s)
    ensures Inv(PublishRead(s, ref, bytes, err))
  {
    hide SideOk, Items, Linked, Bounded;
    SameQueuesOk(s, PublishRead(s, ref, bytes, err));
    if ref in s.sides && s.sides[ref].running && |bytes| <= s.sides[ref].task {
      PublishOk(s.sides[ref], bytes, err);
    }
  }

  lemma TakeReadLinked(s: State, op: OpId)
    requires Linked(s) && forall ref | ref in s.sides :: SideOk(s.sides[ref])
    ensures Linked(TakeRead(s, op).0)
  {
    hide SideOk, Items, Linked, Prepare;
    if Takeable(s, op) {
      var ref := s.readers[op].stream;
      TakeUnlinks(s, op);
      DroppedLinked(s, TakeRead(s, op).0, op);
    }
  }

  lemma TakeUnlinks(s: State, op: OpId)
    requires Takeable(s, op) && SideOk(s.sides[s.readers[op].stream])
    ensures Dropped(s, TakeRead(s, op).0, op)
  {
    HeadOnce(s.sides[s.readers[op].stream]);
    hide SideOk, Items;
  }

  lemma TakeReadInv(s: State, op: OpId)
    requires Inv(s)
    ensures Inv(TakeRead(s, op).0)
  {
    hide SideOk, Items, Linked;
    TakeReadLinked(s, op);
    if Takeable(s, op) {
      var t := TakeRead(s, op).0;
      var Entry(w, ref) := s.readers[op];
      assert !s.base.closed;
      TakeOk(s.sides[ref], w.capacity);
      HeadOnce(s.sides[ref]);
      assert t.sides[ref] == AfterTake(s.sides[ref], w.capacity);
      ReplaceSide(s, t, ref, t.sides[ref]);
    }
  }

  lemma CancelReadLinked(s: State, op: OpId)
    requires Linked(s) && forall ref | ref in s.sides :: SideOk(s.sides[ref])
    ensures Linked(CancelRead(s, op))
  {
    if op in s.readers {
      assert Holds(s.base, op, Read) && s.readers[op].stream in s.sides;
      CancelUnlinks(s, op);
      DroppedLinked(s, CancelRead(s, op), op);
    }
    hide SideOk, Linked, CancelRead;
  }

  lemma CancelUnlinks(s: State, op: OpId)
    requires op in s.readers && Holds(s.base, op, Read) && s.readers[op].stream in s.sides
    requires var Entry(w, ref) := s.readers[op]; SideOk(s.sides[ref]) && w in s.sides[ref].queue
    ensures Dropped(s, CancelRead(s, op), op)
  {
    RemoveInOrder(s.sides[s.readers[op].stream], s.readers[op].waiter);
    hide SideOk, RemoveFirst, InOrder;
  }

  lemma CancelReadInv(s: State, op: OpId)
    requires Inv(s)
    ensures Inv(CancelRead(s, op))
  {
    hide SideOk, Items, RemoveFirst;
    CancelReadLinked(s, op);
    if op in s.readers {
      var t := CancelRead(s, op);
      var Entry(w, ref) := s.readers[op];
      RemoveOk(s.sides[ref], w);
      RemoveInOrder(s.sides[ref], w);
      ReplaceSide(s, t, ref, t.sides[ref]);
    }
  }

  lemma CloseHandleInv(s: State, h: Handle)
    requires Inv(s)
    ensures Inv(CloseHandle(s, h))
  {
    hide SideOk, Items, Linked, Bounded;
    SameQueuesOk(s, CloseHandle(s, h));
    if h in s.streams {
      CloseOk(s.sides[s.streams[h]]);
    }
  }

  lemma CloseAllInv(s: State)
    requires Inv(s)
    ensures Inv(CloseAll(s))
  {
    hide SideOk, Items;
    forall ref | ref in s.sides {
      CloseOk(s.sides[ref]);
    }
  }

  // ---------------------------------------------------------------- no wakeup is lost

  // A step drops no signal, and whatever it makes takeable it also announces.
  ghost predicate Covers(s: State, t: State) {
    && (Signalled(s.base) ==> Signalled(t.base))
    && t.seen == s.seen
    && forall op | op in t.readers && Takeable(t, op) :: Signalled(t.base) || (op in s.readers && Takeable(s, op))
  }

  lemma StartReadCovers(s: State, h: Handle, op: OpId, capacity: nat)
    requires Inv(s)
    ensures Covers(s, StartRead(s, h, op, capacity).0)
  {
    hide SideOk, Items;
    StartReadInv(s, h, op, capacity);
    var t := StartRead(s, h, op, capacity).0;
    if t != s {
      var ref := s.streams[h];
      assert t.sides[ref].queue == s.sides[ref].queue + [Waiter.Waiter(s.next, op, capacity)];
    }
  }

  lemma PublishCovers(s: State, ref: Ref, bytes: seq<u8>, err: Option<IoError>)
    ensures Covers(s, PublishRead(s, ref, bytes, err))
  {}

  lemma TakeReadCovers(s: State, op: OpId)
    requires Inv(s)
    ensures Covers(s, TakeRead(s, op).0)
  {
    hide SideOk, Items;
  }

  lemma CancelReadCovers(s: State, op: OpId)
    requires Inv(s)
    ensures Covers(s, CancelRead(s, op))
  {
    hide SideOk, Items, RemoveFirst;
    if op in s.readers {
      RemoveInOrder(s.sides[s.readers[op].stream], s.readers[op].waiter);
    }
  }

  lemma CloseHandleCovers(s: State, h: Handle)
    ensures Covers(s, CloseHandle(s, h))
  {}

  lemma OpenInv(s: State, h: Handle, ref: Ref)
    requires Inv(s)
    ensures Inv(OpenStream(s, h, ref))
  {
    NewSideOk();
    hide SideOk, Items;
    var t := OpenStream(s, h, ref);
    if t != s {
      ReplaceSide(s, t, ref, NewSide);
      assert Linked(t) by {
        hide Bounded;
      }
    }
  }

  lemma OpenCovers(s: State, h: Handle, ref: Ref)
    requires Linked(s)
    ensures Covers(s, OpenStream(s, h, ref))
  {}

  lemma NewSideOk()
    ensures SideOk(NewSide)
  {}

  lemma CloseAllCovers(s: State)
    ensures Covers(s, CloseAll(s))
  {}

  // Steps that leave streams and reads alone.
  lemma BaseInv(s: State, base: Base, seen: set<OpId>)
    requires Inv(s) && base.closed == s.base.closed && SameKind(Read, s.base.operations, base.operations)
    requires base.closed ==> base.operations == map[]
    ensures Inv(s.(base := base, seen := seen))
  {
    hide SideOk, Items;
  }

  lemma BaseCovers(s: State, base: Base)
    requires Linked(s) && SameKind(Read, s.base.operations, base.operations) && (Signalled(s.base) ==> Signalled(base))
    ensures Covers(s, s.(base := base))
  {}

  lemma InvLinked(s: State)
    requires Inv(s)
    ensures Linked(s)
  {}

  lemma ActOk(s: State, e: Step)
    requires Inv(s)
    ensures Inv(Act(s, e)) && (!e.DoConsume? ==> Covers(s, Act(s, e)))
  {
    hide Inv, Covers, StartRead, PublishRead, TakeRead, CancelRead, CloseHandle, CloseAll, OpenStream, Takeable;
    match e
    case DoStartRead(h, op, capacity) => StartReadInv(s, h, op, capacity); StartReadCovers(s, h, op, capacity);
    case DoPublish(ref, bytes, err) => PublishInv(s, ref, bytes, err); PublishCovers(s, ref, bytes, err);
    case DoTakeRead(op) => TakeReadInv(s, op); TakeReadCovers(s, op);
    case DoCancel(op) => CancelReadInv(s, op); CancelReadCovers(s, op);
    case DoOpen(h, ref) => InvLinked(s); OpenInv(s, h, ref); OpenCovers(s, h, ref);
    case DoCloseHandle(h) => CloseHandleInv(s, h); CloseHandleCovers(s, h);
    case DoCloseAll => CloseAllInv(s); CloseAllCovers(s);
    case DoSignal => IdleOk(s, Pay(s.base), s.seen);
    case DoConsume => if s.base.token { IdleOk(s, s.base.(token := false), Consume(s).seen); }
    case Other(ops, promised) => IdleOk(s, Interfere(Read, s.base, ops, promised), s.seen);
  }

  lemma IdleOk(s: State, base: Base, seen: set<OpId>)
    requires Inv(s) && base.closed == s.base.closed
    requires SameKind(Read, s.base.operations, base.operations) && (base.closed ==> base.operations == s.base.operations)
    ensures Inv(s.(base := base, seen := seen))
    ensures seen == s.seen && (Signalled(s.base) ==> Signalled(base)) ==> Covers(s, s.(base := base, seen := seen))
  {
    hide SideOk, Items;
    BaseInv(s, base, seen);
    if Signalled(s.base) ==> Signalled(base) {
      BaseCovers(s, base);
    }
  }

  lemma PruneOk(s: State)
    requires Inv(s)
    ensures Inv(Prune(s))
  {
    hide SideOk, Items;
  }

  // From one announced state to the next.
  lemma CoveredAnnounced(s: State, t: State)
    requires Announced(s) && Covers(s, t)
    ensures Announced(Prune(t))
  {
    hide Available;
  }

  lemma ConsumeAnnounced(s: State)
    requires Announced(s)
    ensures Announced(Prune(Consume(s)))
  {
    hide Available;
  }

  lemma ApplyInv(s: State, e: Step)
    requires Inv(s) && Announced(s)
    ensures Inv(Apply(s, e)) && Announced(Apply(s, e))
  {
    hide Inv, Announced, Covers, Prune, Consume;
    ActOk(s, e);
    PruneOk(Act(s, e));
    if e.DoConsume? {
      ConsumeAnnounced(s);
    } else {
      CoveredAnnounced(s, Act(s, e));
    }
  }

  lemma {:induction false} RunInv(es: seq<Step>)
    ensures Inv(Run(es)) && Announced(Run(es))
  {
    if es == [] {
      InitInv();
    } else {
      RunInv(es[..|es| - 1]);
      ApplyInv(Run(es[..|es| - 1]), es[|es| - 1]);
    }
  }

  // ---------------------------------------------------------------- what every run guarantees

  /** Conservation: what TakeRead handed out, then what is buffered, is what the
      socket returned, byte for byte and error for error. */
  lemma ReadBytesConserved(es: seq<Step>, ref: Ref)
    requires ref in Run(es).sides
    ensures var r := Run(es).sides[ref];
      && r.delivered + Items(r.data, r.err) == r.arrived
      && !(r.running && r.ready)
      && (!r.ready ==> r.data == [] && r.err == None)
  {
    RunInv(es);
    hide Run, Items;
  }

  /** The logs of conservation are the calls: only TakeRead adds to `delivered`,
      exactly what it returns; only a worker adds to `arrived`, exactly what it read. */
  lemma LogsAreCalls(s: State, e: Step, ref: Ref)
    requires Inv(s) && ref in s.sides
    ensures ref in Apply(s, e).sides
    ensures var (r, t) := (s.sides[ref], Apply(s, e).sides[ref]);
      && (t.arrived == if e.DoPublish? && e.ref == ref && r.running && |e.bytes| <= r.task
                       then r.arrived + Items(e.bytes, e.err) else r.arrived)
      && (if e.DoTakeRead? && e.op in s.readers && s.readers[e.op].stream == ref && TakeRead(s, e.op).1.Taken? && r.ready
          then exists raw :: HideEof(raw) == TakeRead(s, e.op).1.err
                             && t.delivered == r.delivered + Items(TakeRead(s, e.op).1.data, raw)
          else t.delivered == r.delivered)
  {
    hide Items, SideOk, Linked, Bounded, TakeRead;
    if e.DoTakeRead? {
      TakeIsLogged(s, e.op, ref);
    } else {
      hide Available;
    }
  }

  lemma TakeIsLogged(s: State, op: OpId, ref: Ref)
    requires Inv(s) && ref in s.sides
    ensures var (r, (u, answer)) := (s.sides[ref], TakeRead(s, op));
      && ref in u.sides && u.sides[ref].arrived == r.arrived
      && (if op in s.readers && s.readers[op].stream == ref && answer.Taken? && r.ready
          then exists raw :: HideEof(raw) == answer.err && u.sides[ref].delivered == r.delivered + Items(answer.data, raw)
          else u.sides[ref].delivered == r.delivered)
  {
    hide SideOk, Items, Linked, Bounded;
    if Takeable(s, op) && s.readers[op].stream == ref {
      var (t, data, err) := TakeBuffered(s.sides[ref], s.readers[op].waiter.capacity);
      TakeBufferedOk(s.sides[ref], s.readers[op].waiter.capacity);
      assert HideEof(err) == TakeRead(s, op).1.err && data == TakeRead(s, op).1.data;
    }
  }

  /** A successful TakeRead returns at most the capacity asked for, and an error of the
      socket only once every byte read before it has been handed out. */
  lemma TakeReadAnswer(s: State, op: OpId)
    requires Inv(s) && TakeRead(s, op).1.Taken?
    ensures var (t, got) := TakeRead(s, op);
      var ref := s.readers[op].stream;
      && |got.data| <= s.readers[op].waiter.capacity
      && got.data == s.sides[ref].data[..|got.data|]
      && t.sides[ref].data == s.sides[ref].data[|got.data|..]
      && (got.err.Some? ==> t.sides[ref].data == [])
      && op !in t.readers && op !in t.base.operations
  {
    hide SideOk, Items;
    TakeBufferedOk(s.sides[s.readers[op].stream], s.readers[op].waiter.capacity);
  }

  // Without a claim of the right kind nothing happens.
  lemma CancelForgets(s: State, op: OpId, ref: Ref)
    requires Inv(s) && ref in s.sides && Holds(s.base, op, Read)
    ensures ref in CancelRead(s, op).sides && forall w | w in CancelRead(s, op).sides[ref].queue :: w.op != op
  {
    hide Inv, CancelRead;
    CancelReadInv(s, op);
    CancelLeaves(s, op, ref);
    NotQueued(CancelRead(s, op), op, ref);
  }

  lemma NotQueued(s: State, op: OpId, ref: Ref)
    requires Inv(s) && !s.base.closed && ref in s.sides && op !in s.readers
    ensures forall w | w in s.sides[ref].queue :: w.op != op
  {
    hide SideOk, Bounded, ReadersQueue;
  }

  lemma CancelLeaves(s: State, op: OpId, ref: Ref)
    requires Inv(s) && ref in s.sides && Holds(s.base, op, Read)
    ensures ref in CancelRead(s, op).sides && op !in CancelRead(s, op).readers
    ensures CancelRead(s, op).base.closed == s.base.closed && !s.base.closed
  {
    hide SideOk, Bounded, QueuesRead;
  }

  lemma CancelKeepsOthers(s: State, op: OpId, ref: Ref)
    requires Inv(s) && ref in s.sides
    ensures forall w | w in s.sides[ref].queue && w.op != op :: w in CancelRead(s, op).sides[ref].queue
  {
    hide SideOk, Items, RemoveFirst;
    if op in s.readers {
      var Entry(w, at) := s.readers[op];
      RemoveInOrder(s.sides[at], w);
    }
  }

  /** Cancelling a read takes nothing out of the buffer and forgets no error. */
  lemma CancelLosesNothing(s: State, op: OpId, ref: Ref)
    requires Inv(s) && ref in s.sides
    ensures var (r, t) := (s.sides[ref], CancelRead(s, op).sides[ref]);
      && t.data == r.data && t.err == r.err && t.ready == r.ready
      && t.arrived == r.arrived && t.delivered == r.delivered
      && (forall w | w in r.queue && w.op != op :: w in t.queue)
      && (Holds(s.base, op, Read) ==> forall w | w in t.queue :: w.op != op)
  {
    CancelKeepsOthers(s, op, ref);
    if Holds(s.base, op, Read) { CancelForgets(s, op, ref); }
    hide Inv, RemoveFirst;
  }

  /** The queue never stalls: behind every queued read there is a worker or something to take. */
  lemma ReadQueueNeverStalls(es: seq<Step>, ref: Ref)
    requires ref in Run(es).sides && Run(es).sides[ref].queue != []
    ensures Run(es).sides[ref].running || Available(Run(es).sides[ref])
  {
    RunInv(es);
    hide Run, Items;
  }

  /** Reads are served first in, first out: the reads served on a stream were started
      in that order, and before every read still waiting on it. */
  lemma ReadsServedInOrder(es: seq<Step>, ref: Ref)
    requires ref in Run(es).sides
    ensures var r := Run(es).sides[ref];
      && (forall i, j | 0 <= i < j < |r.served| :: r.served[i] < r.served[j])
      && (forall i, j | 0 <= i < |r.served| && 0 <= j < |r.queue| :: r.served[i] < r.queue[j].serial)
      && (forall i, j | 0 <= i < j < |r.queue| :: r.queue[i].serial < r.queue[j].serial)
  {
    RunInv(es);
    hide Run, Items;
  }

  /** No wakeup is lost: a read that can be taken has had a token received since it
      became so, or the token is there, or a thread is about to send it. */
  lemma NoReadWakeupLost(es: seq<Step>, op: OpId)
    requires op in Run(es).readers && Takeable(Run(es), op)
    ensures Signalled(Run(es).base) || op in Run(es).seen
  {
    RunInv(es);
    hide Run, Inv, Takeable;
  }

  ghost predicate Ready(s: State, op: OpId) {
    op in s.readers && Takeable(s, op)
  }

  lemma StaysOnStart(s: State, op: OpId, h: Handle, other: OpId, capacity: nat)
    requires Linked(s) && Ready(s, op)
    ensures Ready(StartRead(s, h, other, capacity).0, op)
  {
    hide Linked;
  }

  lemma StaysOnTake(s: State, op: OpId, other: OpId)
    requires Linked(s) && Ready(s, op) && other != op
    ensures Ready(TakeRead(s, other).0, op)
  {}

  lemma StaysOnCancel(s: State, op: OpId, other: OpId)
    requires Inv(s) && Ready(s, op) && other != op
    ensures Ready(CancelRead(s, other), op)
  {
    hide SideOk, Items, RemoveFirst;
    if other in s.readers {
      RemoveInOrder(s.sides[s.readers[other].stream], s.readers[other].waiter);
    }
  }

  lemma StaysOnPublish(s: State, op: OpId, ref: Ref, bytes: seq<u8>, err: Option<IoError>)
    requires Ready(s, op) && (ref in s.sides ==> SideOk(s.sides[ref]))
    ensures Ready(PublishRead(s, ref, bytes, err), op)
  {
    hide InOrder, Items;
  }

  lemma StaysOnHandles(s: State, op: OpId, h: Handle, ref: Ref)
    requires Ready(s, op)
    ensures Ready(OpenStream(s, h, ref), op) && Ready(CloseHandle(s, h), op)
  {}

  lemma StaysOnOther(s: State, e: Step, op: OpId)
    requires Ready(s, op) && (e.DoSignal? || e.DoConsume? || e.Other?)
    ensures Ready(Act(s, e), op)
  {
    hide Available;
  }

  // Which steps put waiters in or take them out of a queue.
  predicate MovesWaiters(e: Step) {
    e.DoStartRead? || e.DoTakeRead? || e.DoCancel?
  }

  lemma StaysOnMoves(s: State, e: Step, op: OpId)
    requires Inv(s) && Linked(s) && Ready(s, op) && MovesWaiters(e) && e != DoTakeRead(op) && e != DoCancel(op)
    ensures Ready(Act(s, e), op)
  {
    hide Inv, Linked, Ready, StartRead, TakeRead, CancelRead;
    match e
    case DoStartRead(h, other, capacity) => StaysOnStart(s, op, h, other, capacity);
    case DoTakeRead(other) => StaysOnTake(s, op, other);
    case DoCancel(other) => StaysOnCancel(s, op, other);
  }

  lemma StaysOnAct(s: State, e: Step, op: OpId)
    requires Inv(s) && Linked(s) && Ready(s, op)
    requires e != DoTakeRead(op) && e != DoCancel(op) && e != DoCloseAll
    ensures Ready(Act(s, e), op)
  {
    SidesOk(s);
    hide Inv, Linked, SideOk, Ready, PublishRead, OpenStream, CloseHandle;
    if MovesWaiters(e) {
      StaysOnMoves(s, e, op);
      hide Act;
    } else {
      match e
      case DoPublish(ref, bytes, err) => StaysOnPublish(s, op, ref, bytes, err);
      case DoOpen(h, ref) => StaysOnHandles(s, op, h, ref);
      case DoCloseHandle(h) => StaysOnHandles(s, op, h, 0);
      case _ => StaysOnOther(s, e, op);
    }
  }

  lemma SidesOk(s: State)
    requires Inv(s)
    ensures forall ref | ref in s.sides :: SideOk(s.sides[ref])
  {
    hide SideOk;
  }

  lemma PruneStays(s: State, op: OpId)
    requires Ready(s, op)
    ensures Ready(Prune(s), op)
  {}

  /** Once takeable, a read stays takeable until it is taken, cancelled or the reactor
      closes, so that a token received since then is never out of date. */
  lemma StaysTakeable(s: State, e: Step, op: OpId)
    requires Inv(s) && Ready(s, op)
    requires e != DoTakeRead(op) && e != DoCancel(op) && e != DoCloseAll
    ensures Ready(Apply(s, e), op)
  {
    InvLinked(s);
    hide Inv, Ready, Act, Prune;
    StaysOnAct(s, e, op);
    PruneStays(Act(s, e), op);
  }
}

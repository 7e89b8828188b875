/** The write half of a stream: requests served one at a time by a single worker,
    with cancellation and close (internal/reactor/stream.go). */
module StreamWrites {
  import opened Core
  import opened Queues

  type Ref = Serial

  // The part of a writeOperation that StartWrite fixes.
  datatype Request = Request(serial: Serial, op: OpId, data: seq<u8>)

  // A request that became active, and how many of its bytes the connection took.
  datatype Segment = Segment(request: Serial, data: seq<u8>, sent: nat)

  // Where the worker of a stream is in runStreamWrites.
  datatype Worker =
    | Absent
    | Fetching
    | Writing(request: Request, written: nat)
    | Finishing(request: Request, err: Option<IoError>)

  /** The write fields of streamState.  `wire` is what the connection was given and
      `segments` says request by request where it came from. */
  datatype WriteSide = WriteSide(
    queue: seq<Request>,
    running: bool,
    active: Option<Request>,
    worker: Worker,
    wire: seq<u8>,
    segments: seq<Segment>)

  const NewSide := WriteSide([], false, None, Absent, [], [])

  // The bytes of the segments, one after the other.
  function Flatten(segments: seq<Segment>): seq<u8>
    requires forall g | g in segments :: g.sent <= |g.data|
  {
    if segments == [] then []
    else
      var last := segments[|segments| - 1];
      Flatten(segments[..|segments| - 1]) + last.data[..last.sent]
  }

  function Enqueue(w: WriteSide, q: Request): WriteSide {
    w.(queue := w.queue + [q], running := true, worker := if w.running then w.worker else Fetching)
  }

  // The worker takes the first request, or leaves when there is nothing to do.
  function FetchNext(w: WriteSide, reactorClosed: bool): WriteSide {
    if reactorClosed || w.queue == [] then w.(queue := [], running := false, worker := Absent)
    else
      var q := w.queue[0];
      w.(queue := w.queue[1..],
         active := Some(q),
         worker := if q.data == [] then Finishing(q, None) else Writing(q, 0),
         segments := w.segments + [Segment(q.serial, q.data, 0)])
  }

  predicate CanSend(w: WriteSide, n: nat) {
    w.worker.Writing? && w.worker.written + n <= |w.worker.request.data| && w.segments != []
  }

  // One call of connection.Write that took n bytes.
  function Send(w: WriteSide, n: nat, err: Option<IoError>): WriteSide
    requires CanSend(w, n)
  {
    var Writing(q, written) := w.worker;
    w.(wire := w.wire + q.data[written..written + n],
       segments := w.segments[..|w.segments| - 1] + [w.segments[|w.segments| - 1].(sent := written + n)],
       worker := if err.Some? then Finishing(q, err)
                 else if n == 0 then Finishing(q, Some(ShortWrite))
                 else if written + n == |q.data| then Finishing(q, None)
                 else Writing(q, written + n))
  }

  function Retire(w: WriteSide): WriteSide {
    w.(active := None, worker := Fetching)
  }

  function Remove(w: WriteSide, q: Request): WriteSide {
    w.(queue := RemoveFirst(w.queue, q))
  }

  function Drop(w: WriteSide): WriteSide {
    w.(queue := [])
  }

  // ---------------------------------------------------------------- the whole table

  /** What the map of writes holds: the request, its stream, and its outcome.  Nothing
      reads the outcome of a request that has left the map. */
  datatype Entry = Entry(request: Request, stream: Ref, done: bool, err: Option<IoError>)

  datatype State = State(
    base: Base,
    streams: map<Handle, Ref>,
    sides: map<Ref, WriteSide>,
    writes: map<OpId, Entry>,
    next: Serial,
    seen: set<OpId>)

  const Init := State(Core.Fresh, map[], map[], map[], 0, {})

  function StartWrite(s: State, handle: Handle, op: OpId, data: seq<u8>): (State, Option<CallError>) {
    if handle !in s.streams || s.streams[handle] !in s.sides then (s, Some(Invalid))
    else
      match Claim(s.base, op, Write)
      case None => (s, Some(Invalid))
      case Some(b) =>
        var ref := s.streams[handle];
        var q := Request(s.next, op, data);
        (s.(base := b,
            writes := s.writes[op := Entry(q, ref, false, None)],
            sides := s.sides[ref := Enqueue(s.sides[ref], q)],
            next := s.next + 1), None)
  }

  // The critical section at the top of the loop of runStreamWrites.
  function Fetch(s: State, ref: Ref): State {
    if ref !in s.sides || s.sides[ref].worker != Fetching then s
    else s.(sides := s.sides[ref := FetchNext(s.sides[ref], s.base.closed)])
  }

  function SendChunk(s: State, ref: Ref, n: nat, err: Option<IoError>): State {
    if ref in s.sides && CanSend(s.sides[ref], n)
    then s.(sides := s.sides[ref := Send(s.sides[ref], n, err)])
    else s
  }

  // The request is still the one its operation id stands for.
  predicate Current(s: State, q: Request) {
    q.op in s.writes && s.writes[q.op].request == q && Holds(s.base, q.op, Write)
  }

  // The critical section at the bottom of the loop of runStreamWrites.
  function Finish(s: State, ref: Ref): State {
    if ref !in s.sides || !s.sides[ref].worker.Finishing? then s
    else
      var Finishing(q, err) := s.sides[ref].worker;
      var t := s.(sides := s.sides[ref := Retire(s.sides[ref])]);
      if Current(s, q) then
        t.(base := Owe(s.base, true), writes := s.writes[q.op := s.writes[q.op].(done := true, err := err)])
      else t
  }

  datatype TakeResult = Failed(error: CallError) | Taken(err: Option<IoError>)

  function TakeWrite(s: State, op: OpId): (State, TakeResult) {
    if op !in s.writes || !Holds(s.base, op, Write) then (s, Failed(Invalid))
    else if !s.writes[op].done then (s, Failed(Pending))
    else (s.(writes := s.writes - {op}, base := Release(s.base, op, Write)), Taken(s.writes[op].err))
  }

  function CancelWrite(s: State, op: OpId): State {
    if op !in s.writes || !Holds(s.base, op, Write) || s.writes[op].stream !in s.sides then s
    else
      var Entry(q, ref, _, _) := s.writes[op];
      var t := s.(writes := s.writes - {op}, base := Release(s.base, op, Write));
      if s.sides[ref].active == Some(q) then t
      else t.(sides := s.sides[ref := Remove(s.sides[ref], q)])
  }

  function OpenStream(s: State, handle: Handle, ref: Ref): State {
    if s.base.closed || ref in s.sides then s
    else s.(streams := s.streams[handle := ref], sides := s.sides[ref := NewSide])
  }

  predicate InMap(writes: map<OpId, Entry>, q: Request) {
    q.op in writes && writes[q.op].request == q
  }

  // The loop of closeStreamLocked: every queued request that is still in the map fails.
  function FailQueued(writes: map<OpId, Entry>, queue: seq<Request>): map<OpId, Entry> {
    map op | op in writes ::
      if writes[op].request in queue && writes[op].request.op == op then writes[op].(done := true, err := Some(NetClosed)) else writes[op]
  }

  // closeStreamLocked: queued requests fail with net.ErrClosed; the active one goes on.
  function CloseHandle(s: State, handle: Handle): State {
    if handle !in s.streams || s.streams[handle] !in s.sides then s
    else
      var ref := s.streams[handle];
      var queue := s.sides[ref].queue;
      s.(base := Owe(s.base, exists q | q in queue :: InMap(s.writes, q)),
         streams := s.streams - {handle},
         sides := s.sides[ref := Drop(s.sides[ref])],
         writes := FailQueued(s.writes, queue))
  }

  function CloseAll(s: State): State {
    if s.base.closed then s
    else
      s.(base := s.base.(closed := true, operations := map[]),
         streams := map[],
         sides := map ref | ref in s.sides ::
           if ref in s.streams.Values then Drop(s.sides[ref]) else s.sides[ref],
         writes := map[])
  }

  function Consume(s: State): State {
    if !s.base.token then s
    else s.(base := s.base.(token := false), seen := set op | op in s.writes && s.writes[op].done)
  }

  function Prune(s: State): State {
    s.(seen := set op | op in s.seen && op in s.writes && s.writes[op].done)
  }

  datatype Step =
    | DoStartWrite(handle: Handle, op: OpId, data: seq<u8>)
    | DoFetch(ref: Ref)
    | DoSend(ref: Ref, n: nat, err: Option<IoError>)
    | DoFinish(ref: Ref)
    | DoTakeWrite(op: OpId)
    | DoCancel(op: OpId)
    | DoOpen(handle: Handle, ref: Ref)
    | DoCloseHandle(handle: Handle)
    | DoCloseAll
    | DoSignal
    | DoConsume
    | Other(operations: map<OpId, Kind>, promised: nat)

  ghost function Act(s: State, e: Step): State {
    match e
    case DoStartWrite(h, op, data) => StartWrite(s, h, op, data).0
    case DoFetch(ref) => Fetch(s, ref)
    case DoSend(ref, n, err) => SendChunk(s, ref, n, err)
    case DoFinish(ref) => Finish(s, ref)
    case DoTakeWrite(op) => TakeWrite(s, op).0
    case DoCancel(op) => CancelWrite(s, op)
    case DoOpen(h, ref) => OpenStream(s, h, ref)
    case DoCloseHandle(h) => CloseHandle(s, h)
    case DoCloseAll => CloseAll(s)
    case DoSignal => s.(base := Pay(s.base))
    case DoConsume => Consume(s)
    case Other(ops, promised) => s.(base := Interfere(Write, s.base, ops, promised))
  }

  ghost function Apply(s: State, e: Step): State {
    Prune(Act(s, e))
  }

  ghost function Run(es: seq<Step>): State {
    if es == [] then Init else Apply(Run(es[..|es| - 1]), es[|es| - 1])
  }

  // ---------------------------------------------------------------- invariants

  ghost predicate Ascending(w: WriteSide) {
    && (forall i, j | 0 <= i < j < |w.segments| :: w.segments[i].request < w.segments[j].request)
    && (forall i, j | 0 <= i < j < |w.queue| :: w.queue[i].serial < w.queue[j].serial)
    && (forall i, j | 0 <= i < |w.segments| && 0 <= j < |w.queue| :: w.segments[i].request < w.queue[j].serial)
  }

  // What the worker is doing agrees with the fields and with the last segment.
  ghost predicate WorkerOk(w: WriteSide) {
    && (w.running <==> w.worker != Absent)
    && (w.queue != [] ==> w.running)
    && (w.active == if w.worker.Writing? || w.worker.Finishing? then Some(w.worker.request) else None)
    && (w.active.Some? ==>
          && w.segments != []
          && var last := w.segments[|w.segments| - 1];
          && last.request == w.active.value.serial && last.data == w.active.value.data
          && (w.worker.Writing? ==> last.sent == w.worker.written < |last.data|)
          && (w.worker.Finishing? && w.worker.err == None ==> last.sent == |last.data|))
  }

  ghost predicate WireOk(w: WriteSide) {
    && (forall g | g in w.segments :: g.sent <= |g.data|)
    && w.wire == Flatten(w.segments)
  }

  ghost predicate SideOk(w: WriteSide) {
    Ascending(w) && WorkerOk(w) && WireOk(w)
  }

  ghost predicate SideBounded(w: WriteSide, next: Serial) {
    && (forall q | q in w.queue :: q.serial < next)
    && (forall g | g in w.segments :: g.request < next)
    && (w.active.Some? ==> w.active.value.serial < next)
  }

  // A queued request is the one its operation id stands for.
  ghost predicate Waits(s: State, ref: Ref, q: Request) {
    && q.op in s.writes && s.writes[q.op] == Entry(q, ref, false, None)
    && Holds(s.base, q.op, Write)
  }

  ghost predicate RefOk(s: State, ref: Ref)
    requires ref in s.sides
  {
    var w := s.sides[ref];
    && SideOk(w) && SideBounded(w, s.next)
    && (!s.base.closed ==> forall q | q in w.queue :: Waits(s, ref, q))
    && (w.active.Some? && Current(s, w.active.value) ==> s.writes[w.active.value.op].stream == ref)
  }

  // Each claimed write is waiting, being written, or done; never two of them.
  ghost predicate Placed(s: State, op: OpId)
    requires op in s.writes
  {
    var e := s.writes[op];
    && Holds(s.base, op, Write) && e.request.op == op && e.request.serial < s.next && e.stream in s.sides
    && var w := s.sides[e.stream];
    && (e.request in w.queue ==> !e.done && w.active != Some(e.request))
    && (w.active == Some(e.request) ==> !e.done)
    && (e.request in w.queue || w.active == Some(e.request) || e.done)
  }

  // A request that finished without an error is whole on the wire.
  ghost predicate Whole(s: State, op: OpId)
    requires op in s.writes
  {
    var e := s.writes[op];
    e.done && e.err == None ==>
      && e.stream in s.sides
      && Segment(e.request.serial, e.request.data, |e.request.data|) in s.sides[e.stream].segments
  }

  ghost predicate OpOk(s: State, op: OpId)
    requires op in s.writes
  {
    Placed(s, op) && Whole(s, op)
  }

  ghost predicate Shape(s: State) {
    && (forall h | h in s.streams :: s.streams[h] in s.sides)
    && (s.base.closed ==> s.writes == map[] && s.streams == map[] && s.base.operations == map[])
    && (forall op | op in s.base.operations && s.base.operations[op] == Write :: op in s.writes)
  }

  ghost predicate Inv(s: State) {
    && Shape(s)
    && (forall ref | ref in s.sides :: RefOk(s, ref))
    && (forall op | op in s.writes :: OpOk(s, op))
  }

  ghost predicate Announced(s: State) {
    forall op | op in s.writes && s.writes[op].done :: Signalled(s.base) || op in s.seen
  }

  // ---------------------------------------------------------------- one stream

  // A request that is whole on the wire stays so.
  ghost predicate KeepsComplete(w: WriteSide, v: WriteSide) {
    forall g | g in w.segments && g.sent == |g.data| :: g in v.segments
  }

  lemma FlattenPush(segments: seq<Segment>, g: Segment)
    requires g.sent <= |g.data| && forall x | x in segments :: x.sent <= |x.data|
    ensures Flatten(segments + [g]) == Flatten(segments) + g.data[..g.sent]
  {
    assert (segments + [g])[..|segments|] == segments;
  }

  lemma EnqueueOk(w: WriteSide, q: Request)
    requires SideOk(w) && SideBounded(w, q.serial)
    ensures SideOk(Enqueue(w, q)) && SideBounded(Enqueue(w, q), q.serial + 1)
    ensures w.active != Some(q) && q !in w.queue
  {
    hide Flatten;
    assert forall i | 0 <= i < |w.queue| :: w.queue[i] in w.queue;
    assert forall i | 0 <= i < |w.segments| :: w.segments[i] in w.segments;
  }

  lemma FetchOk(w: WriteSide, reactorClosed: bool)
    requires SideOk(w) && w.worker == Fetching
    ensures SideOk(FetchNext(w, reactorClosed))
  {
    if !reactorClosed && w.queue != [] {
      var q := w.queue[0];
      FlattenPush(w.segments, Segment(q.serial, q.data, 0));
      hide Flatten;
      assert w.wire + q.data[..0] == w.wire;
    }
  }

  lemma FetchMembers(w: WriteSide, reactorClosed: bool, next: Serial)
    requires SideBounded(w, next)
    ensures SideBounded(FetchNext(w, reactorClosed), next)
    ensures KeepsComplete(w, FetchNext(w, reactorClosed))
  {
    if !reactorClosed && w.queue != [] {
      assert w.queue[0] in w.queue;
    }
  }

  lemma SendSegments(w: WriteSide, n: nat, err: Option<IoError>)
    requires WorkerOk(w) && CanSend(w, n)
    ensures WorkerOk(Send(w, n, err))
    ensures |Send(w, n, err).segments| == |w.segments|
    ensures forall i | 0 <= i < |w.segments| - 1 :: Send(w, n, err).segments[i] == w.segments[i]
    ensures Send(w, n, err).segments[|w.segments| - 1] == w.segments[|w.segments| - 1].(sent := w.worker.written + n)
  {}

  lemma JoinSlices(data: seq<u8>, at: nat, n: nat)
    requires at + n <= |data|
    ensures data[..at] + data[at..at + n] == data[..at + n]
  {}

  lemma LastGrows(prefix: seq<Segment>, last: Segment, n: nat)
    requires last.sent + n <= |last.data| && forall x | x in prefix :: x.sent <= |x.data|
    ensures Flatten(prefix + [last.(sent := last.sent + n)]) == Flatten(prefix + [last]) + last.data[last.sent..last.sent + n]
  {
    FlattenPush(prefix, last);
    FlattenPush(prefix, last.(sent := last.sent + n));
    hide Flatten;
    JoinSlices(last.data, last.sent, n);
  }

  lemma SendFlatten(w: WriteSide, n: nat, err: Option<IoError>)
    requires WorkerOk(w) && WireOk(w) && CanSend(w, n)
    ensures forall g | g in Send(w, n, err).segments :: g.sent <= |g.data|
    ensures Send(w, n, err).wire == Flatten(Send(w, n, err).segments)
  {
    hide Flatten;
    var prefix, last := w.segments[..|w.segments| - 1], w.segments[|w.segments| - 1];
    assert w.segments == prefix + [last];
    LastGrows(prefix, last, n);
  }

  lemma SendWire(w: WriteSide, n: nat, err: Option<IoError>)
    requires WorkerOk(w) && WireOk(w) && CanSend(w, n)
    ensures WireOk(Send(w, n, err)) && WorkerOk(Send(w, n, err))
    ensures |Send(w, n, err).segments| == |w.segments|
    ensures forall i | 0 <= i < |w.segments| - 1 :: Send(w, n, err).segments[i] == w.segments[i]
    ensures Send(w, n, err).segments[|w.segments| - 1] == w.segments[|w.segments| - 1].(sent := w.worker.written + n)
  {
    SendSegments(w, n, err);
    SendFlatten(w, n, err);
    hide Flatten, Send;
  }

  lemma SendMembers(w: WriteSide, n: nat, err: Option<IoError>, next: Serial)
    requires WorkerOk(w) && WireOk(w) && CanSend(w, n) && SideBounded(w, next)
    ensures SideBounded(Send(w, n, err), next)
    ensures KeepsComplete(w, Send(w, n, err))
  {
    SendWire(w, n, err);
    hide Flatten;
    var t := Send(w, n, err);
    forall g | g in w.segments && g.sent == |g.data| ensures g in t.segments {
      var i :| 0 <= i < |w.segments| && w.segments[i] == g;
      assert t.segments[i] == g;
    }
    assert forall i | 0 <= i < |t.segments| :: t.segments[i].request == w.segments[i].request && w.segments[i] in w.segments;
  }

  lemma SendOk(w: WriteSide, n: nat, err: Option<IoError>)
    requires SideOk(w) && CanSend(w, n)
    ensures SideOk(Send(w, n, err))
    ensures Send(w, n, err).queue == w.queue && Send(w, n, err).active == w.active == Some(w.worker.request)
  {
    SendWire(w, n, err);
    hide WireOk;
  }

  lemma RetireOk(w: WriteSide)
    requires SideOk(w) && w.worker.Finishing?
    ensures SideOk(Retire(w)) && w.active == Some(w.worker.request)
    ensures w.worker.request !in w.queue
    ensures w.worker.err == None ==>
              Segment(w.worker.request.serial, w.worker.request.data, |w.worker.request.data|) in w.segments
  {
    hide Flatten;
    assert w.segments[|w.segments| - 1] in w.segments;
  }

  lemma DropOk(w: WriteSide)
    requires SideOk(w)
    ensures SideOk(Drop(w))
  {
    hide Flatten;
  }

  lemma RemoveMembers(w: WriteSide, q: Request)
    requires Ascending(w)
    ensures Ascending(Remove(w, q))
    ensures q !in Remove(w, q).queue
    ensures forall x | x in w.queue && x != q :: x in Remove(w, q).queue
    ensures forall x | x in Remove(w, q).queue :: x in w.queue
  {
    hide RemoveFirst;
    var key, rest := (x: Request) => x.serial, RemoveFirst(w.queue, q);
    RemoveFirstMembers(w.queue, q);
    RemoveFirstOrder(w.queue, q, key);
    forall i, j | 0 <= i < j < |rest| ensures rest[i].serial < rest[j].serial { assert key(rest[i]) < key(rest[j]); }
    assert forall j | 0 <= j < |rest| :: rest[j] in w.queue;
  }

  lemma RemoveOk(w: WriteSide, q: Request)
    requires SideOk(w)
    ensures SideOk(Remove(w, q))
    ensures q !in Remove(w, q).queue
    ensures forall x | x in w.queue && x != q :: x in Remove(w, q).queue
    ensures forall x | x in Remove(w, q).queue :: x in w.queue
  {
    hide RemoveFirst, Flatten, Ascending;
    RemoveMembers(w, q);
    var rest := Remove(w, q).queue;
    if rest != [] { assert rest[0] in rest; }
  }

  lemma HeadOnce(w: WriteSide)
    requires SideOk(w) && w.queue != []
    ensures w.queue[0] !in w.queue[1..]
    ensures forall x | x in w.queue :: x == w.queue[0] || x in w.queue[1..]
  {
    hide WireOk, WorkerOk;
    assert w.queue == [w.queue[0]] + w.queue[1..];
  }

  lemma RetireBounded(w: WriteSide, next: Serial)
    requires SideBounded(w, next)
    ensures SideBounded(Retire(w), next) && SideBounded(Drop(w), next)
  {}

  lemma RemoveQueueOnly(w: WriteSide, q: Request)
    ensures Remove(w, q) == w.(queue := Remove(w, q).queue)
  {}

  lemma RemoveBounded(w: WriteSide, q: Request, next: Serial)
    requires SideOk(w) && SideBounded(w, next)
    ensures SideBounded(Remove(w, q), next)
  {
    RemoveOk(w, q);
    hide RemoveFirst, SideOk;
  }

  lemma Grow(w: WriteSide, next: Serial, later: Serial)
    requires SideBounded(w, next) && next <= later
    ensures SideBounded(w, later)
  {}

  // ---------------------------------------------------------------- each step keeps the invariant

  lemma StartWriteRef(s: State, h: Handle, op: OpId, data: seq<u8>, ref: Ref)
    requires ref in s.sides && RefOk(s, ref)
    ensures RefOk(StartWrite(s, h, op, data).0, ref)
  {
    hide SideOk, SideBounded;
    var t := StartWrite(s, h, op, data).0;
    if t != s {
      Grow(s.sides[ref], s.next, s.next + 1);
      var q := Request(s.next, op, data);
      if ref == s.streams[h] {
        EnqueueOk(s.sides[ref], q);
        assert t.sides[ref].queue == s.sides[ref].queue + [q];
      }
      ActiveBounded(s.sides[ref], s.next);
    }
  }

  lemma ActiveBounded(w: WriteSide, next: Serial)
    requires SideBounded(w, next)
    ensures w.active.Some? ==> w.active.value.serial < next
  {}

  lemma StartWriteOp(s: State, h: Handle, op: OpId, data: seq<u8>, p: OpId)
    requires p in StartWrite(s, h, op, data).0.writes
    requires p in s.writes ==> OpOk(s, p)
    requires h in s.streams && s.streams[h] in s.sides ==> RefOk(s, s.streams[h])
    ensures OpOk(StartWrite(s, h, op, data).0, p)
  {
    hide SideOk, SideBounded;
    var t := StartWrite(s, h, op, data).0;
    if t != s {
      var ref := s.streams[h];
      var q := Request(s.next, op, data);
      EnqueueOk(s.sides[ref], q);
      assert t.sides[ref].queue == s.sides[ref].queue + [q];
    }
  }

  lemma FetchRef(s: State, at: Ref, ref: Ref)
    requires ref in s.sides && RefOk(s, ref)
    ensures RefOk(Fetch(s, at), ref)
  {
    hide SideOk, SideBounded;
    if at == ref && s.sides[ref].worker == Fetching {
      FetchOk(s.sides[ref], s.base.closed);
      FetchMembers(s.sides[ref], s.base.closed, s.next);
      if s.sides[ref].queue != [] {
        assert s.sides[ref].queue[0] in s.sides[ref].queue;
        assert forall q | q in s.sides[ref].queue[1..] :: q in s.sides[ref].queue;
      }
    }
  }

  lemma FetchOp(s: State, at: Ref, p: OpId)
    requires p in s.writes && OpOk(s, p) && !s.base.closed
    requires at in s.sides ==> SideOk(s.sides[at])
    ensures OpOk(Fetch(s, at), p)
  {
    hide WireOk, Ascending;
    if at in s.sides && s.sides[at].worker == Fetching {
      FetchMembers2(s.sides[at]);
      if s.sides[at].queue != [] {
        HeadOnce(s.sides[at]);
      }
    }
  }

  lemma FetchMembers2(w: WriteSide)
    ensures KeepsComplete(w, FetchNext(w, false))
  {}

  lemma SendRef(s: State, at: Ref, n: nat, err: Option<IoError>, ref: Ref)
    requires ref in s.sides && RefOk(s, ref)
    ensures RefOk(SendChunk(s, at, n, err), ref)
  {
    hide SideOk, SideBounded, Send;
    if at == ref && CanSend(s.sides[ref], n) {
      SendOk(s.sides[ref], n, err);
      SideParts(s.sides[ref]);
      SendMembers(s.sides[ref], n, err, s.next);
    }
  }

  lemma SendOp(s: State, at: Ref, n: nat, err: Option<IoError>, p: OpId)
    requires p in s.writes && OpOk(s, p)
    requires at in s.sides ==> RefOk(s, at)
    ensures OpOk(SendChunk(s, at, n, err), p)
  {
    hide SideOk, SideBounded, Send;
    if at in s.sides && CanSend(s.sides[at], n) {
      SendOk(s.sides[at], n, err);
      SideParts(s.sides[at]);
      SendMembers(s.sides[at], n, err, s.next);
    }
  }

  lemma SideParts(w: WriteSide)
    requires SideOk(w)
    ensures Ascending(w) && WorkerOk(w) && WireOk(w)
  {}

  lemma FinishRef(s: State, at: Ref, ref: Ref)
    requires ref in s.sides && RefOk(s, ref) && (at in s.sides ==> RefOk(s, at))
    ensures RefOk(Finish(s, at), ref)
  {
    hide SideOk, SideBounded;
    if at in s.sides && s.sides[at].worker.Finishing? {
      RetireOk(s.sides[at]);
      RetireBounded(s.sides[at], s.next);
    }
  }

  lemma FinishOp(s: State, at: Ref, p: OpId)
    requires p in s.writes && OpOk(s, p) && (at in s.sides ==> RefOk(s, at))
    ensures OpOk(Finish(s, at), p)
  {
    hide SideOk, SideBounded;
    if at in s.sides && s.sides[at].worker.Finishing? {
      RetireOk(s.sides[at]);
    }
  }

  lemma TakeWriteRef(s: State, op: OpId, ref: Ref)
    requires ref in s.sides && RefOk(s, ref)
    ensures RefOk(TakeWrite(s, op).0, ref)
  {
    hide SideOk, SideBounded;
  }

  lemma CancelWriteRef(s: State, op: OpId, ref: Ref)
    requires ref in s.sides && RefOk(s, ref) && (op in s.writes ==> OpOk(s, op))
    ensures RefOk(CancelWrite(s, op), ref)
  {
    hide SideOk, SideBounded, Remove;
    if op in s.writes {
      RemoveOk(s.sides[ref], s.writes[op].request);
      RemoveQueueOnly(s.sides[ref], s.writes[op].request);
      RemoveBounded(s.sides[ref], s.writes[op].request, s.next);
    }
  }

  lemma CancelWriteOp(s: State, op: OpId, p: OpId)
    requires p in s.writes && p != op && OpOk(s, p)
    requires op in s.writes && s.writes[op].stream in s.sides ==> OpOk(s, op) && RefOk(s, s.writes[op].stream)
    ensures OpOk(CancelWrite(s, op), p)
  {
    hide SideOk, SideBounded, RemoveFirst;
    if op in s.writes && s.writes[op].stream in s.sides {
      RemoveOk(s.sides[s.writes[op].stream], s.writes[op].request);
    }
  }

  lemma CloseHandleRef(s: State, h: Handle, ref: Ref)
    requires ref in s.sides && RefOk(s, ref) && (h in s.streams && s.streams[h] in s.sides ==> RefOk(s, s.streams[h]))
    ensures RefOk(CloseHandle(s, h), ref)
  {
    hide SideOk, SideBounded;
    DropOk(s.sides[ref]);
    RetireBounded(s.sides[ref], s.next);
  }

  lemma CloseHandleOp(s: State, h: Handle, p: OpId)
    requires p in s.writes && OpOk(s, p) && (h in s.streams && s.streams[h] in s.sides ==> RefOk(s, s.streams[h]))
    requires !s.base.closed
    ensures OpOk(CloseHandle(s, h), p)
  {
    hide SideOk, SideBounded;
  }

  lemma CloseAllRef(s: State, ref: Ref)
    requires ref in s.sides && RefOk(s, ref)
    ensures RefOk(CloseAll(s), ref)
  {
    hide SideOk, SideBounded;
    DropOk(s.sides[ref]);
    RetireBounded(s.sides[ref], s.next);
  }

  lemma NewSideOk(next: Serial)
    ensures SideOk(NewSide) && SideBounded(NewSide, next)
  {}

  lemma ActShape(s: State, e: Step)
    requires Shape(s)
    ensures Shape(Act(s, e))
  {
    hide RemoveFirst, Flatten;
  }

  // The steps that leave streams and writes alone.
  lemma IdleInv(s: State, base: Base, seen: set<OpId>)
    requires Inv(s) && base.closed == s.base.closed && SameKind(Write, s.base.operations, base.operations)
    requires base.closed ==> base.operations == s.base.operations
    ensures Inv(s.(base := base, seen := seen))
  {
    hide SideOk, SideBounded;
    var t := s.(base := base, seen := seen);
    forall ref | ref in t.sides ensures RefOk(t, ref) {
      assert RefOk(s, ref);
    }
    forall op | op in t.writes ensures OpOk(t, op) {
      assert OpOk(s, op);
    }
  }

  lemma OpenRef(s: State, h: Handle, at: Ref, ref: Ref)
    requires ref in OpenStream(s, h, at).sides && (ref in s.sides ==> RefOk(s, ref))
    ensures RefOk(OpenStream(s, h, at), ref)
  {
    NewSideOk(s.next);
    hide SideOk, SideBounded;
  }

  lemma ActKeys(s: State, e: Step)
    ensures !e.DoOpen? ==> Act(s, e).sides.Keys == s.sides.Keys
    ensures !e.DoStartWrite? ==> Act(s, e).writes.Keys <= s.writes.Keys
    ensures e.DoCancel? && e.op in s.writes && OpOk(s, e.op) ==> e.op !in Act(s, e).writes
    ensures e.DoTakeWrite? && e.op in Act(s, e).writes ==> Act(s, e) == s
  {
    hide SideOk, SideBounded, RemoveFirst, Flatten;
  }

  lemma ActRef(s: State, e: Step, ref: Ref)
    requires Inv(s) && ref in Act(s, e).sides
    ensures RefOk(Act(s, e), ref)
  {
    ActKeys(s, e);
    hide RefOk, OpOk, StartWrite, Fetch, SendChunk, Finish, TakeWrite, CancelWrite, CloseHandle, CloseAll, OpenStream;
    match e
    case DoStartWrite(h, op, data) => StartWriteRef(s, h, op, data, ref);
    case DoFetch(at) => FetchRef(s, at, ref);
    case DoSend(at, n, err) => SendRef(s, at, n, err, ref);
    case DoFinish(at) => FinishRef(s, at, ref);
    case DoTakeWrite(op) => TakeWriteRef(s, op, ref);
    case DoCancel(op) => CancelWriteRef(s, op, ref);
    case DoCloseHandle(h) => CloseHandleRef(s, h, ref);
    case DoCloseAll => CloseAllRef(s, ref);
    case DoOpen(h, at) => OpenRef(s, h, at, ref);
    case DoSignal => IdleInv(s, Pay(s.base), s.seen);
    case DoConsume => if s.base.token { IdleInv(s, s.base.(token := false), Consume(s).seen); }
    case Other(ops, promised) => IdleInv(s, Interfere(Write, s.base, ops, promised), s.seen);
  }

  lemma OpenOp(s: State, h: Handle, at: Ref, p: OpId)
    requires p in s.writes && OpOk(s, p)
    ensures OpOk(OpenStream(s, h, at), p)
  {}

  lemma TakeWriteOp(s: State, op: OpId, p: OpId)
    requires p in TakeWrite(s, op).0.writes && OpOk(s, p)
    ensures OpOk(TakeWrite(s, op).0, p)
  {}

  lemma ActOp(s: State, e: Step, p: OpId)
    requires Inv(s) && p in Act(s, e).writes
    ensures OpOk(Act(s, e), p)
  {
    ActKeys(s, e);
    hide OpOk, Placed, SideOk, SideBounded, StartWrite, Fetch, SendChunk, Finish, TakeWrite, CancelWrite, CloseHandle, OpenStream;
    match e
    case DoStartWrite(h, op, data) => StartWriteOp(s, h, op, data, p);
    case DoFetch(at) => FetchOp(s, at, p);
    case DoSend(at, n, err) => SendOp(s, at, n, err, p);
    case DoFinish(at) => FinishOp(s, at, p);
    case DoTakeWrite(op) => TakeWriteOp(s, op, p);
    case DoCancel(op) => CancelWriteOp(s, op, p);
    case DoCloseHandle(h) => CloseHandleOp(s, h, p);
    case DoCloseAll =>
    case DoOpen(h, at) => OpenOp(s, h, at, p);
    case DoSignal => IdleInv(s, Pay(s.base), s.seen);
    case DoConsume => if s.base.token { IdleInv(s, s.base.(token := false), Consume(s).seen); }
    case Other(ops, promised) => IdleInv(s, Interfere(Write, s.base, ops, promised), s.seen);
  }

  lemma ActRefs(s: State, e: Step)
    requires Inv(s)
    ensures forall ref | ref in Act(s, e).sides :: RefOk(Act(s, e), ref)
  {
    hide Inv, RefOk, Act;
    forall ref | ref in Act(s, e).sides ensures RefOk(Act(s, e), ref) {
      ActRef(s, e, ref);
    }
  }

  lemma ActOps(s: State, e: Step)
    requires Inv(s)
    ensures forall op | op in Act(s, e).writes :: OpOk(Act(s, e), op)
  {
    hide Inv, OpOk, Act;
    forall op | op in Act(s, e).writes ensures OpOk(Act(s, e), op) {
      ActOp(s, e, op);
    }
  }

  lemma ActInv(s: State, e: Step)
    requires Inv(s)
    ensures Inv(Act(s, e))
  {
    InvShape(s);
    ActShape(s, e);
    ActRefs(s, e);
    ActOps(s, e);
    hide RefOk, OpOk, Shape, Act;
  }

  lemma InvShape(s: State)
    requires Inv(s)
    ensures Shape(s)
  {}

  // ---------------------------------------------------------------- no wakeup is lost

  // A step drops no signal, and whatever it finishes it also announces.
  ghost predicate Covers(s: State, t: State) {
    && (Signalled(s.base) ==> Signalled(t.base))
    && t.seen == s.seen
    && forall op | op in t.writes && t.writes[op].done :: Signalled(t.base) || (op in s.writes && s.writes[op].done)
  }

  lemma CloseHandleCovers(s: State, h: Handle)
    ensures Covers(s, CloseHandle(s, h))
  {}

  lemma ActCovers(s: State, e: Step)
    requires !e.DoConsume?
    ensures Covers(s, Act(s, e))
  {
    hide RemoveFirst, Flatten, CloseHandle;
    if e.DoCloseHandle? {
      CloseHandleCovers(s, e.handle);
    }
  }

  lemma ApplyInv(s: State, e: Step)
    requires Inv(s) && Announced(s)
    ensures Inv(Apply(s, e)) && Announced(Apply(s, e))
  {
    ActInv(s, e);
    IdleInv(Act(s, e), Act(s, e).base, Prune(Act(s, e)).seen);
    hide Inv, Act;
    if e.DoConsume? {
      ConsumeAnnounced(s);
    } else {
      ActCovers(s, e);
    }
  }

  lemma ConsumeAnnounced(s: State)
    requires Announced(s)
    ensures Announced(Apply(s, DoConsume))
  {
    hide SideOk;
  }

  lemma {:induction false} RunInv(es: seq<Step>)
    ensures Inv(Run(es)) && Announced(Run(es))
  {
    if es == [] {
    } else {
      RunInv(es[..|es| - 1]);
      ApplyInv(Run(es[..|es| - 1]), es[|es| - 1]);
    }
  }

  // ---------------------------------------------------------------- what every run guarantees

  /** The wire carries the requests that became active one after the other, in the order
      they were submitted, a prefix of each, and before anything still queued. */
  lemma WireInSubmissionOrder(es: seq<Step>, ref: Ref)
    requires ref in Run(es).sides
    ensures var w := Run(es).sides[ref];
      && (forall g | g in w.segments :: g.sent <= |g.data|)
      && w.wire == Flatten(w.segments)
      && (forall i, j | 0 <= i < j < |w.segments| :: w.segments[i].request < w.segments[j].request)
      && (forall i, j | 0 <= i < |w.segments| && 0 <= j < |w.queue| :: w.segments[i].request < w.queue[j].serial)
  {
    RunInv(es);
    assert RefOk(Run(es), ref);
    hide Run, Flatten, SideBounded;
  }

  /** One request at a time: a worker exists exactly while the running flag is set, it is
      writing exactly the active request, and queued requests always have a worker. */
  lemma OneWriteWorker(es: seq<Step>, ref: Ref)
    requires ref in Run(es).sides
    ensures var w := Run(es).sides[ref];
      && (w.running <==> w.worker != Absent)
      && (w.queue != [] ==> w.running)
      && (w.active == if w.worker.Writing? || w.worker.Finishing? then Some(w.worker.request) else None)
  {
    RunInv(es);
    assert RefOk(Run(es), ref);
    hide Run, Flatten, SideBounded, WireOk, Ascending;
  }

  /** Every claimed write is in exactly one place: queued, active, or done. */
  lemma EveryWriteInOnePlace(es: seq<Step>, op: OpId)
    requires op in Run(es).writes
    ensures var (s, e) := (Run(es), Run(es).writes[op]);
      && e.stream in s.sides
      && var w := s.sides[e.stream];
      && var queued, active := e.request in w.queue, w.active == Some(e.request);
      && (queued || active || e.done)
      && !(queued && active) && !(queued && e.done) && !(active && e.done)
  {
    RunInv(es);
    assert OpOk(Run(es), op);
    hide Run, SideOk, SideBounded, Whole;
  }

  lemma FlattenSplit(segments: seq<Segment>, i: nat) returns (pre: seq<u8>, post: seq<u8>)
    requires i < |segments| && forall g | g in segments :: g.sent <= |g.data|
    ensures Flatten(segments) == pre + segments[i].data[..segments[i].sent] + post
  {
    var n := |segments| - 1;
    var chunk := segments[i].data[..segments[i].sent];
    if i == n {
      pre, post := Flatten(segments[..i]), [];
    } else {
      var tail;
      pre, tail := FlattenSplit(segments[..n], i);
      post := tail + segments[n].data[..segments[n].sent];
      assert Flatten(segments) == pre + chunk + tail + segments[n].data[..segments[n].sent];
    }
  }

  /** A write that TakeWrite reports as a success is on the wire whole and in one piece. */
  lemma SuccessfulWriteIsWhole(es: seq<Step>, op: OpId)
    requires TakeWrite(Run(es), op).1 == Taken(None)
    ensures var (s, e) := (Run(es), Run(es).writes[op]);
      && e.stream in s.sides
      && exists pre, post :: s.sides[e.stream].wire == pre + e.request.data + post
  {
    RunInv(es);
    assert OpOk(Run(es), op) && RefOk(Run(es), Run(es).writes[op].stream);
    hide Run, Inv;
    WholeIsOnePiece(Run(es), op);
  }

  lemma WholeIsOnePiece(s: State, op: OpId)
    requires op in s.writes && s.writes[op].stream in s.sides && OpOk(s, op) && RefOk(s, s.writes[op].stream)
    requires s.writes[op].done && s.writes[op].err == None
    ensures exists pre, post :: s.sides[s.writes[op].stream].wire == pre + s.writes[op].request.data + post
  {
    hide Flatten, Placed, Ascending, WorkerOk, SideBounded;
    var e := s.writes[op];
    var w := s.sides[e.stream];
    var g := Segment(e.request.serial, e.request.data, |e.request.data|);
    var i :| 0 <= i < |w.segments| && w.segments[i] == g;
    var pre, post := FlattenSplit(w.segments, i);
    assert g.data[..g.sent] == e.request.data;
  }

  /** The data of a request is the argument of the StartWrite that claimed its id, and
      no later step changes it. */
  lemma RequestIsArgument(s: State, h: Handle, op: OpId, data: seq<u8>, e: Step)
    ensures StartWrite(s, h, op, data).1 == None ==>
              op in StartWrite(s, h, op, data).0.writes && StartWrite(s, h, op, data).0.writes[op].request == Request(s.next, op, data)
    ensures StartWrite(s, h, op, data).1 != None ==> StartWrite(s, h, op, data).0 == s
    ensures op in s.writes && op in Apply(s, e).writes && Inv(s) ==> Apply(s, e).writes[op].request == s.writes[op].request
  {
    RequestStored(s, h, op, data);
    hide StartWrite;
    if op in s.writes && Inv(s) {
      assert OpOk(s, op) && Placed(s, op);
      hide Inv, Act;
      if op in Act(s, e).writes { RequestKept(s, op, e); }
    }
  }

  lemma RequestStored(s: State, h: Handle, op: OpId, data: seq<u8>)
    ensures StartWrite(s, h, op, data).1 == None ==>
              op in StartWrite(s, h, op, data).0.writes && StartWrite(s, h, op, data).0.writes[op].request == Request(s.next, op, data)
    ensures StartWrite(s, h, op, data).1 != None ==> StartWrite(s, h, op, data).0 == s
  {
    hide Enqueue;
  }

  lemma RequestKept(s: State, op: OpId, e: Step)
    requires op in s.writes && Holds(s.base, op, Write) && op in Act(s, e).writes
    ensures Act(s, e).writes[op].request == s.writes[op].request
  {
    hide FetchNext, Send, CanSend, Remove;
  }

  // The stream has neither the request with this serial nor any of its bytes.
  ghost predicate Unsent(w: WriteSide, x: Serial) {
    && (forall q | q in w.queue :: q.serial != x)
    && (forall g | g in w.segments :: g.request != x)
  }

  ghost predicate NeverSent(s: State, ref: Ref, x: Serial) {
    ref in s.sides && x < s.next && Unsent(s.sides[ref], x)
  }

  lemma RemoveUnsent(w: WriteSide, q: Request)
    requires SideOk(w) && q in w.queue
    ensures Unsent(Remove(w, q), q.serial)
  {
    RemoveOk(w, q);
    hide RemoveFirst, WireOk, WorkerOk;
    var k :| 0 <= k < |w.queue| && w.queue[k] == q;
    forall x | x in Remove(w, q).queue ensures x.serial != q.serial {
      var j :| 0 <= j < |w.queue| && w.queue[j] == x;
    }
  }

  /** Cancelling a write that is still queued keeps every byte of it off the wire. */
  lemma CancelQueuedWrite(s: State, op: OpId)
    requires Inv(s) && op in s.writes && s.writes[op].stream in s.sides
    requires s.writes[op].request in s.sides[s.writes[op].stream].queue
    ensures NeverSent(CancelWrite(s, op), s.writes[op].stream, s.writes[op].request.serial)
  {
    assert OpOk(s, op) && RefOk(s, s.writes[op].stream);
    RemoveUnsent(s.sides[s.writes[op].stream], s.writes[op].request);
    hide Inv, RemoveFirst, SideOk, SideBounded, Unsent;
  }

  lemma UnsentStays(w: WriteSide, x: Serial, q: Request, n: nat, err: Option<IoError>, reactorClosed: bool)
    requires SideOk(w) && Unsent(w, x)
    ensures q.serial != x ==> Unsent(Enqueue(w, q), x)
    ensures Unsent(FetchNext(w, reactorClosed), x) && Unsent(Retire(w), x) && Unsent(Drop(w), x) && Unsent(Remove(w, q), x)
    ensures CanSend(w, n) ==> Unsent(Send(w, n, err), x)
  {
    UnsentOnSend(w, x, n, err);
    UnsentOnFetch(w, x, reactorClosed);
    UnsentOnRemove(w, x, q);
    hide RemoveFirst, SideOk, Send, Remove, FetchNext;
  }

  lemma UnsentOnSend(w: WriteSide, x: Serial, n: nat, err: Option<IoError>)
    requires Unsent(w, x)
    ensures CanSend(w, n) ==> Unsent(Send(w, n, err), x)
  {
    if CanSend(w, n) {
      assert w.segments[|w.segments| - 1] in w.segments;
    }
  }

  lemma UnsentOnFetch(w: WriteSide, x: Serial, reactorClosed: bool)
    requires Unsent(w, x)
    ensures Unsent(FetchNext(w, reactorClosed), x)
  {
    if w.queue != [] {
      assert w.queue[0] in w.queue;
    }
  }

  lemma UnsentOnRemove(w: WriteSide, x: Serial, q: Request)
    requires SideOk(w) && Unsent(w, x)
    ensures Unsent(Remove(w, q), x)
  {
    RemoveOk(w, q);
    hide RemoveFirst, SideOk;
  }

  // The ways a step can change one stream.
  lemma SideMoves(s: State, e: Step, ref: Ref) returns (q: Request, closed: bool)
    requires ref in s.sides
    ensures ref in Act(s, e).sides && Act(s, e).next >= s.next
    ensures q.serial >= s.next || (e.DoCancel? && e.op in s.writes && q == s.writes[e.op].request)
    ensures var (w, v) := (s.sides[ref], Act(s, e).sides[ref]);
      || v == w || (v == Enqueue(w, q) && q.serial >= s.next) || v == FetchNext(w, closed) || v == Retire(w) || v == Drop(w)
      || v == Remove(w, q)
      || (e.DoSend? && CanSend(w, e.n) && v == Send(w, e.n, e.err))
  {
    hide Enqueue, FetchNext, Retire, Drop, Remove, Send, CanSend;
    closed := s.base.closed;
    q := if e.DoCancel? && e.op in s.writes then s.writes[e.op].request
         else if e.DoStartWrite? then Request(s.next, e.op, e.data) else Request(s.next, 0, []);
  }

  /** What was cancelled before its turn is never sent, whatever happens next. */
  lemma NeverSentStays(s: State, e: Step, ref: Ref, x: Serial)
    requires Inv(s) && NeverSent(s, ref, x)
    ensures NeverSent(Apply(s, e), ref, x)
  {
    assert RefOk(s, ref);
    var q, closed := SideMoves(s, e, ref);
    var n, err := if e.DoSend? then e.n else 0, if e.DoSend? then e.err else None;
    UnsentStays(s.sides[ref], x, q, n, err, closed);
    hide Inv, RefOk, Unsent, Enqueue, FetchNext, Retire, Drop, Remove, Send, Act;
  }

  /** No wakeup is lost: a finished write has had a token received since it finished, or
      the token is there, or a thread is about to send it. */
  lemma NoWriteWakeupLost(es: seq<Step>, op: OpId)
    requires op in Run(es).writes && Run(es).writes[op].done
    ensures Signalled(Run(es).base) || op in Run(es).seen
  {
    RunInv(es);
    hide Run, Inv;
  }
}

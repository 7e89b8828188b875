/** Who closes every socket.  Sockets come from the factory and from listeners, move
    through pending creates, backlogs and handles, and end closed by whichever thread
    removed them last (internal/reactor/factory.go, listener.go, udp.go, reactor.go). */
module Ownership {
  import opened Core
  import Reactor

  type Socket = nat

  datatype CreateKind = TcpConnect | UdpBind | TcpListen

  // A createOperation; `worker` is the thread that was started for it.
  datatype CreateOp = CreateOp(worker: Serial, kind: CreateKind, done: bool, resource: Option<Socket>, failed: bool)

  /** The threads the reactor waits for on Close.  A Closing worker found its operation or
      listener gone; a Leaving one has closed its socket and has yet to say so. */
  datatype Worker =
    | Creating(op: OpId)
    | Accepting(handle: Handle, listener: Socket)
    | SendingOn(socket: Socket)
    | Leaving(socket: Socket)
    | Closing
    | Busy

  // Who is about to close a socket that is in no table.
  datatype Owner = ByWorker(worker: Serial) | ByCall | ByClose

  /** The one place a socket is at.  Dropped is nobody's: it is only for a connection
      that an Accept call returned together with an error. */
  datatype Place =
    | InCreate(op: OpId)
    | AtStream(handle: Handle)
    | AtDatagram(handle: Handle)
    | AtListener(handle: Handle)
    | InBacklog(handle: Handle)
    | Draining
    | Owed(owner: Owner)
    | Closed
    | Dropped

  /** `place` is where bookkeeping says every socket is; the other fields are the program's. */
  datatype State = State(
    base: Base,
    returned: bool,
    nextHandle: nat,
    creates: map<OpId, CreateOp>,
    streams: map<Handle, Socket>,
    datagrams: map<Handle, Socket>,
    listeners: map<Handle, Socket>,
    backlog: map<Handle, seq<Socket>>,
    draining: set<Socket>,
    owed: map<Socket, Owner>,
    shut: set<Socket>,
    workers: map<Serial, Worker>,
    next: nat,
    place: map<Socket, Place>)

  const Init := State(Core.Fresh, false, Reactor.FIRST_HANDLE, map[], map[], map[], map[], map[], {}, map[], {}, map[], 0, map[])

  function Allocate(s: State): (t: State)
    ensures t.place == s.place && t.nextHandle <= s.nextHandle + 1
  {
    s.(nextHandle := (s.nextHandle + 1) % Reactor.HANDLE_LIMIT)
  }

  function Place1(s: State, k: Socket, p: Place): State {
    s.(place := s.place[k := p])
  }

  // A thread takes on closing sockets that it removed from a table.
  function Take(s: State, ks: set<Socket>, owner: Owner): State {
    s.(owed := map k | k in s.owed.Keys + ks :: if k in ks then owner else s.owed[k],
       place := map k | k in s.place :: if k in ks && s.place[k] != Closed then Owed(owner) else s.place[k])
  }

  // The same for one socket.
  function TakeOne(s: State, k: Socket, owner: Owner): State {
    s.(owed := s.owed[k := owner], place := s.place[k := Owed(owner)])
  }

  function BeginCreate(s: State, op: OpId, kind: CreateKind): (t: State)
    ensures t.place == s.place && t.nextHandle == s.nextHandle
  {
    match Claim(s.base, op, Create)
    case None => s
    case Some(b) =>
      s.(base := b,
         creates := s.creates[op := CreateOp(s.next, kind, false, None, false)],
         workers := s.workers[s.next := Creating(op)],
         next := s.next + 1)
  }

  // A worker holding a socket that nothing wants any more closes it and ends.
  function Discard(s: State, x: Serial, got: bool): (t: State)
    ensures t.nextHandle == s.nextHandle
  {
    if got then
      TakeOne(s.(workers := s.workers[x := Closing], next := s.next + 1), s.next, ByWorker(x))
    else s.(workers := s.workers - {x})
  }

  // A worker stores what the factory returned in its operation, which is still pending.
  function Complete(s: State, x: Serial, op: OpId, got: bool, failed: bool): (t: State)
    requires op in s.creates
    ensures t.nextHandle == s.nextHandle
  {
    var resource := if got then Some(s.next) else None;
    var t := s.(creates := s.creates[op := s.creates[op].(done := true, resource := resource, failed := failed)],
                workers := s.workers - {x}, base := Owe(s.base, true), next := s.next + 1);
    if got then Place1(t, s.next, InCreate(op)) else t
  }

  // The factory has returned, perhaps with a socket and perhaps with an error.
  function FinishCreate(s: State, x: Serial, got: bool, failed: bool): (t: State)
    ensures t.nextHandle == s.nextHandle
  {
    if x !in s.workers || !s.workers[x].Creating? then s
    else
      var op := s.workers[x].op;
      if op in s.creates && s.creates[op].worker == x then Complete(s, x, op, got, failed)
      else Discard(s, x, got)
  }

  function Forget(s: State, op: OpId): State {
    s.(creates := s.creates - {op}, base := Release(s.base, op, Create))
  }

  // The operation is removed, and its socket, if it has one, is for the caller to close.
  function Abandon(s: State, op: OpId): (t: State)
    requires op in s.creates
    ensures t.nextHandle == s.nextHandle
  {
    var t := Forget(s, op);
    if s.creates[op].resource == None then t else TakeOne(t, s.creates[op].resource.value, ByCall)
  }

  function Connect(s: State, k: Socket): (t: State)
    ensures t.nextHandle <= s.nextHandle + 1
  {
    var u := Allocate(s);
    Place1(u.(streams := u.streams[u.nextHandle := k]), k, AtStream(u.nextHandle))
  }

  function Listen(s: State, k: Socket): (t: State)
    ensures t.nextHandle <= s.nextHandle + 1
  {
    var u := Allocate(s);
    Place1(u.(listeners := u.listeners[u.nextHandle := k], backlog := u.backlog[u.nextHandle := []]), k, AtListener(u.nextHandle))
  }

  // The send worker starts with the socket.
  function Bind(s: State, k: Socket): (t: State)
    ensures t.nextHandle <= s.nextHandle + 1
  {
    var u := Allocate(s);
    Place1(u.(datagrams := u.datagrams[u.nextHandle := k], workers := u.workers[u.next := SendingOn(k)], next := u.next + 1),
           k, AtDatagram(u.nextHandle))
  }

  // The operation is removed, and its socket gets a handle.
  function Adopt(s: State, op: OpId): (t: State)
    requires op in s.creates && s.creates[op].resource.Some?
    ensures t.nextHandle <= s.nextHandle + 1
  {
    var k := s.creates[op].resource.value;
    var u := Forget(s, op);
    match s.creates[op].kind
    case TcpConnect => Connect(u, k)
    case TcpListen => Listen(u, k)
    case UdpBind => Bind(u, k)
  }

  // TakeTCPConnect, TakeUDPBind and TakeTCPListen
  function TakeCreate(s: State, op: OpId, kind: CreateKind): (t: State)
    ensures t.nextHandle <= s.nextHandle + 1
  {
    if op !in s.creates || s.creates[op].kind != kind || !Holds(s.base, op, Create) || !s.creates[op].done then s
    else if s.creates[op].failed || s.creates[op].resource == None then Abandon(s, op)
    else Adopt(s, op)
  }

  function CancelCreate(s: State, op: OpId): (t: State)
    ensures t.nextHandle == s.nextHandle
  {
    if op !in s.creates || !Holds(s.base, op, Create) then s else Abandon(s, op)
  }

  function StartAccept(s: State, handle: Handle): (t: State)
    ensures t.place == s.place && t.nextHandle == s.nextHandle
  {
    if handle !in s.listeners || s.base.closed then s
    else s.(workers := s.workers[s.next := Accepting(handle, s.listeners[handle])], next := s.next + 1)
  }

  // A worker publishes what Accept returned to the listener, which is still open.
  function Arrive(s: State, x: Serial, h: Handle, got: bool, failed: bool): (t: State)
    requires h in s.backlog
    ensures t.nextHandle == s.nextHandle
  {
    var t := s.(workers := s.workers - {x}, base := Owe(s.base, true), next := s.next + 1);
    if !got then t
    else if failed then Place1(t, s.next, Dropped)
    else Place1(t.(backlog := s.backlog[h := s.backlog[h] + [s.next]]), s.next, InBacklog(h))
  }

  function FinishAccept(s: State, x: Serial, got: bool, failed: bool): (t: State)
    ensures t.nextHandle == s.nextHandle
  {
    if x !in s.workers || !s.workers[x].Accepting? then s
    else
      var Accepting(h, l) := s.workers[x];
      if h !in s.listeners || s.listeners[h] != l || h !in s.backlog then Discard(s, x, got)
      else Arrive(s, x, h, got, failed)
  }

  // A connection leaves the backlog.
  function Pop(s: State, h: Handle): State
    requires h in s.backlog && s.backlog[h] != []
  {
    s.(backlog := s.backlog[h := s.backlog[h][1..]])
  }

  function TakeAccept(s: State, h: Handle): (t: State)
    ensures t.nextHandle <= s.nextHandle + 1
  {
    if h !in s.listeners || h !in s.backlog || s.backlog[h] == [] then s
    else Connect(Pop(s, h), s.backlog[h][0])
  }

  function DropStream(s: State, h: Handle): State {
    s.(streams := s.streams - {h})
  }

  function DropDatagram(s: State, h: Handle): State {
    s.(datagrams := s.datagrams - {h})
  }

  function Drain(s: State, k: Socket): State {
    Place1(s.(draining := s.draining + {k}), k, Draining)
  }

  function CloseStream(s: State, h: Handle): (t: State)
    requires h in s.streams
    ensures t.nextHandle == s.nextHandle
  {
    TakeOne(DropStream(s, h), s.streams[h], ByCall)
  }

  function CloseDatagram(s: State, h: Handle): (t: State)
    requires h in s.datagrams
    ensures t.nextHandle == s.nextHandle
  {
    Drain(DropDatagram(s, h), s.datagrams[h])
  }

  function CloseListener(s: State, h: Handle): (t: State)
    requires h in s.listeners && h in s.backlog
    ensures t.nextHandle == s.nextHandle
  {
    Take(s.(listeners := s.listeners - {h}, backlog := s.backlog - {h}),
         {s.listeners[h]} + (set k | k in s.backlog[h]), ByCall)
  }

  // A handle names at most one socket, so at most one of the three maps has it.
  function CloseHandle(s: State, h: Handle): (t: State)
    ensures t.nextHandle == s.nextHandle
  {
    if h in s.streams then CloseStream(s, h)
    else if h in s.datagrams then CloseDatagram(s, h)
    else if h in s.listeners && h in s.backlog then CloseListener(s, h)
    else s
  }

  // A send worker leaves its loop, which it does only once its handle is closed.
  function SendCloses(s: State, x: Serial): (t: State)
    ensures t.nextHandle == s.nextHandle
  {
    if x in s.workers && s.workers[x].SendingOn? && s.workers[x].socket !in s.datagrams.Values
    then Place1(s.(workers := s.workers[x := Leaving(s.workers[x].socket)], shut := s.shut + {s.workers[x].socket}),
                s.workers[x].socket, Closed)
    else s
  }

  function SendLeaves(s: State, x: Serial): (t: State)
    ensures t.place == s.place && t.nextHandle == s.nextHandle
  {
    if x in s.workers && s.workers[x].Leaving?
    then s.(workers := s.workers - {x}, draining := s.draining - {s.workers[x].socket})
    else s
  }

  function PayClose(s: State, k: Socket): (t: State)
    ensures t.nextHandle == s.nextHandle
  {
    if k !in s.owed then s
    else Place1(s.(owed := s.owed - {k}, shut := s.shut + {k}), k, Closed)
  }

  function WorkerLeaves(s: State, x: Serial): (t: State)
    ensures t.place == s.place && t.nextHandle == s.nextHandle
  {
    if x in s.workers && (s.workers[x].Busy? || s.workers[x].Closing?)
       && (forall k | k in s.owed :: s.owed[k] != ByWorker(x))
    then s.(workers := s.workers - {x})
    else s
  }

  // The other workers: readers, writers, receivers, lookups.  None starts after Close.
  function StartOther(s: State): (t: State)
    ensures t.place == s.place && t.nextHandle == s.nextHandle
  {
    if s.base.closed then s else s.(workers := s.workers[s.next := Busy], next := s.next + 1)
  }

  // Everything the reactor holds when it closes.
  function Held(s: State): set<Socket> {
    (set op | op in s.creates && s.creates[op].resource.Some? :: s.creates[op].resource.value)
    + s.streams.Values + s.datagrams.Values + s.listeners.Values
    + (set h, k | h in s.backlog && k in s.backlog[h] :: k)
    + s.draining
  }

  function CloseAll(s: State): (t: State)
    ensures t.nextHandle == s.nextHandle
  {
    if s.base.closed then s
    else
      Take(s.(base := s.base.(closed := true, operations := map[]),
              creates := map[], streams := map[], datagrams := map[], listeners := map[], backlog := map[], draining := {}),
           Held(s), ByClose)
  }

  // Close returns once it has closed what it took and every worker has ended.
  function CloseReturns(s: State): (t: State)
    ensures t.place == s.place && t.nextHandle == s.nextHandle
  {
    if s.base.closed && s.workers == map[] && (forall k | k in s.owed :: s.owed[k] != ByClose)
    then s.(returned := true) else s
  }

  datatype Step =
    | DoBeginCreate(op: OpId, kind: CreateKind)
    | DoFinishCreate(worker: Serial, got: bool, failed: bool)
    | DoTakeCreate(op: OpId, kind: CreateKind)
    | DoCancelCreate(op: OpId)
    | DoStartAccept(handle: Handle)
    | DoFinishAccept(worker: Serial, got: bool, failed: bool)
    | DoTakeAccept(handle: Handle)
    | DoCloseHandle(handle: Handle)
    | DoSendCloses(worker: Serial)
    | DoSendLeaves(worker: Serial)
    | DoPayClose(socket: Socket)
    | DoWorkerLeaves(worker: Serial)
    | DoStartOther
    | DoAllocate
    | DoCloseAll
    | DoCloseReturns
    | DoSignal
    | Other(operations: map<OpId, Kind>, promised: nat)

  ghost function Act(s: State, e: Step): (t: State)
    ensures t.nextHandle <= s.nextHandle + 1
  {
    match e
    case DoBeginCreate(op, kind) => BeginCreate(s, op, kind)
    case DoFinishCreate(x, got, failed) => FinishCreate(s, x, got, failed)
    case DoTakeCreate(op, kind) => TakeCreate(s, op, kind)
    case DoCancelCreate(op) => CancelCreate(s, op)
    case DoStartAccept(h) => StartAccept(s, h)
    case DoFinishAccept(x, got, failed) => FinishAccept(s, x, got, failed)
    case DoTakeAccept(h) => TakeAccept(s, h)
    case DoCloseHandle(h) => CloseHandle(s, h)
    case DoSendCloses(x) => SendCloses(s, x)
    case DoSendLeaves(x) => SendLeaves(s, x)
    case DoPayClose(k) => PayClose(s, k)
    case DoWorkerLeaves(x) => WorkerLeaves(s, x)
    case DoStartOther => StartOther(s)
    case DoAllocate => Allocate(s)
    case DoCloseAll => CloseAll(s)
    case DoCloseReturns => CloseReturns(s)
    case DoSignal => s.(base := Pay(s.base))
    case Other(ops, promised) => s.(base := Interfere(Create, s.base, ops, promised))
  }

  ghost function Run(es: seq<Step>): State {
    if es == [] then Init else Act(Run(es[..|es| - 1]), es[|es| - 1])
  }

  // ---------------------------------------------------------------- invariants

  // The tables say that the socket is at this place.
  predicate At(s: State, k: Socket, p: Place) {
    match p
    case Closed => k in s.shut
    case InCreate(op) => k !in s.shut && op in s.creates && s.creates[op].resource == Some(k)
    case AtStream(h) => k !in s.shut && h in s.streams && s.streams[h] == k
    case AtDatagram(h) => k !in s.shut && h in s.datagrams && s.datagrams[h] == k
    case AtListener(h) => k !in s.shut && h in s.listeners && s.listeners[h] == k
    case InBacklog(h) => k !in s.shut && h in s.backlog && k in s.backlog[h]
    case Draining => k !in s.shut && k in s.draining
    case Owed(o) => k !in s.shut && k in s.owed && s.owed[k] == o
    case Dropped => k in s.place && s.place[k] == Dropped
  }

  // Bookkeeping and tables agree on one socket.
  ghost predicate SocketOk(s: State, k: Socket)
    requires k in s.place
  {
    k < s.next && At(s, k, s.place[k])
  }

  predicate In(s: State, k: Socket, p: Place) {
    k in s.place && s.place[k] == p
  }

  // Bookkeeping knows what the tables name.
  ghost predicate OpOk(s: State, op: OpId)
    requires op in s.creates
  {
    && Holds(s.base, op, Create)
    && (s.creates[op].resource.Some? ==> In(s, s.creates[op].resource.value, InCreate(op)))
    && s.creates[op].worker < s.next
    && (s.creates[op].worker in s.workers ==> s.creates[op].resource == None)
  }

  ghost predicate HandleOk(s: State, h: Handle) {
    && (h in s.streams ==> In(s, s.streams[h], AtStream(h)) && h <= s.nextHandle)
    && (h in s.datagrams ==> In(s, s.datagrams[h], AtDatagram(h)) && h <= s.nextHandle)
    && (h in s.listeners ==> In(s, s.listeners[h], AtListener(h)) && h <= s.nextHandle)
    && (h in s.backlog <==> h in s.listeners)
    && (h in s.backlog ==> (forall k | k in s.backlog[h] :: In(s, k, InBacklog(h)))
                           && forall i, j | 0 <= i < j < |s.backlog[h]| :: s.backlog[h][i] != s.backlog[h][j])
    && !(h in s.streams && h in s.datagrams) && !(h in s.streams && h in s.listeners) && !(h in s.datagrams && h in s.listeners)
  }

  ghost predicate WorkerOk(s: State, x: Serial)
    requires x in s.workers
  {
    && x < s.next
    && (s.workers[x].SendingOn? ==>
          var k := s.workers[x].socket;
          k in s.place && (s.place[k].AtDatagram? || s.place[k].Draining? || s.place[k].Owed? || s.place[k].Closed?))
    && (s.workers[x].Leaving? ==> s.workers[x].socket in s.shut)
  }

  ghost predicate Shape(s: State) {
    && (forall k | k in s.owed ::
          && (In(s, k, Owed(s.owed[k])) || In(s, k, Closed))
          && (s.owed[k].ByWorker? ==> s.owed[k].worker in s.workers && s.workers[s.owed[k].worker] == Closing))
    && (forall k | k in s.draining :: In(s, k, Draining) || In(s, k, Closed))
    && (forall k | k in s.shut :: In(s, k, Closed))
    && (s.base.closed ==> s.creates == map[] && s.streams == map[] && s.datagrams == map[] && s.listeners == map[]
                          && s.backlog == map[] && s.draining == {})
    && (s.returned ==> s.base.closed && s.workers == map[] && forall k | k in s.owed :: s.owed[k] != ByClose)
  }

  ghost predicate Inv(s: State) {
    && Shape(s)
    && (forall k | k in s.place :: SocketOk(s, k))
    && (forall op | op in s.creates :: OpOk(s, op))
    && (forall h :: HandleOk(s, h))
    && (forall x | x in s.workers :: WorkerOk(s, x))
  }

  // ---------------------------------------------------------------- each step keeps the invariant

  // What the invariant says of one operation, one handle and one worker.
  ghost predicate Around(s: State, op: OpId, h: Handle, x: Serial) {
    && (op in s.creates ==> OpOk(s, op))
    && HandleOk(s, h)
    && (x in s.workers ==> WorkerOk(s, x))
  }

  // A socket that was just removed from the table it is noted at.
  ghost predicate Loose(s: State, k: Socket) {
    && k in s.place && k < s.next && k !in s.shut && k !in s.owed && k !in s.draining
    && !s.place[k].Closed? && !s.place[k].Dropped? && !s.place[k].Owed? && !s.place[k].Draining?
    && !At(s, k, s.place[k])
  }

  lemma TakeOneSocket(s: State, k0: Socket, k: Socket)
    requires Shape(s) && Loose(s, k0) && (k in s.place && k != k0 ==> SocketOk(s, k))
    requires k in s.place
    ensures SocketOk(TakeOne(s, k0, ByCall), k)
  {}

  lemma TakeOneAround(s: State, k0: Socket, op: OpId, h: Handle, x: Serial)
    requires Shape(s) && Loose(s, k0) && Around(s, op, h, x)
    ensures Around(TakeOne(s, k0, ByCall), op, h, x)
  {}

  lemma TakeOneShape(s: State, k0: Socket)
    requires Shape(s) && Loose(s, k0)
    ensures Shape(TakeOne(s, k0, ByCall))
  {}

  lemma ConnectSocket(s: State, k0: Socket, k: Socket)
    requires Shape(s) && Loose(s, k0) && (k in s.place && k != k0 ==> SocketOk(s, k))
    requires HandleOk(s, s.nextHandle + 1) && s.nextHandle + 1 < Reactor.HANDLE_LIMIT && !s.base.closed && !s.place[k0].AtDatagram?
    requires k in s.place
    ensures SocketOk(Connect(s, k0), k)
  {}

  lemma ConnectAround(s: State, k0: Socket, op: OpId, h: Handle, x: Serial)
    requires Shape(s) && Loose(s, k0) && Around(s, op, h, x)
    requires HandleOk(s, s.nextHandle + 1) && s.nextHandle + 1 < Reactor.HANDLE_LIMIT && !s.base.closed && !s.place[k0].AtDatagram?
    ensures Around(Connect(s, k0), op, h, x)
  {}

  lemma ConnectShape(s: State, k0: Socket)
    requires Shape(s) && Loose(s, k0)
    requires HandleOk(s, s.nextHandle + 1) && s.nextHandle + 1 < Reactor.HANDLE_LIMIT && !s.base.closed && !s.place[k0].AtDatagram?
    ensures Shape(Connect(s, k0))
  {}

  lemma ListenSocket(s: State, k0: Socket, k: Socket)
    requires Shape(s) && Loose(s, k0) && (k in s.place && k != k0 ==> SocketOk(s, k))
    requires HandleOk(s, s.nextHandle + 1) && s.nextHandle + 1 < Reactor.HANDLE_LIMIT && !s.base.closed && !s.place[k0].AtDatagram?
    requires k in s.place
    ensures SocketOk(Listen(s, k0), k)
  {}

  lemma ListenOp(s: State, k0: Socket, op: OpId)
    requires Shape(s) && Loose(s, k0) && (op in s.creates ==> OpOk(s, op))
    requires HandleOk(s, s.nextHandle + 1) && s.nextHandle + 1 < Reactor.HANDLE_LIMIT && !s.base.closed && !s.place[k0].AtDatagram?
    ensures op in Listen(s, k0).creates ==> OpOk(Listen(s, k0), op)
  {}

  lemma ListenHandle(s: State, k0: Socket, h: Handle)
    requires Shape(s) && Loose(s, k0) && HandleOk(s, h)
    requires HandleOk(s, s.nextHandle + 1) && s.nextHandle + 1 < Reactor.HANDLE_LIMIT && !s.base.closed && !s.place[k0].AtDatagram?
    ensures HandleOk(Listen(s, k0), h)
  {}

  lemma ListenWorker(s: State, k0: Socket, x: Serial)
    requires Shape(s) && Loose(s, k0) && (x in s.workers ==> WorkerOk(s, x))
    requires HandleOk(s, s.nextHandle + 1) && s.nextHandle + 1 < Reactor.HANDLE_LIMIT && !s.base.closed && !s.place[k0].AtDatagram?
    ensures x in Listen(s, k0).workers ==> WorkerOk(Listen(s, k0), x)
  {}

  lemma ListenAround(s: State, k0: Socket, op: OpId, h: Handle, x: Serial)
    requires Shape(s) && Loose(s, k0) && Around(s, op, h, x)
    requires HandleOk(s, s.nextHandle + 1) && s.nextHandle + 1 < Reactor.HANDLE_LIMIT && !s.base.closed && !s.place[k0].AtDatagram?
    ensures Around(Listen(s, k0), op, h, x)
  {
    ListenOp(s, k0, op);
    ListenHandle(s, k0, h);
    ListenWorker(s, k0, x);
    hide OpOk, HandleOk, WorkerOk, Listen;
  }

  lemma ListenShape(s: State, k0: Socket)
    requires Shape(s) && Loose(s, k0)
    requires HandleOk(s, s.nextHandle + 1) && s.nextHandle + 1 < Reactor.HANDLE_LIMIT && !s.base.closed && !s.place[k0].AtDatagram?
    ensures Shape(Listen(s, k0))
  {}

  lemma BindSocket(s: State, k0: Socket, k: Socket)
    requires Shape(s) && Loose(s, k0) && (k in s.place && k != k0 ==> SocketOk(s, k))
    requires HandleOk(s, s.nextHandle + 1) && s.nextHandle + 1 < Reactor.HANDLE_LIMIT && !s.base.closed && s.next !in s.workers
    requires k in s.place
    ensures SocketOk(Bind(s, k0), k)
  {}

  lemma BindOp(s: State, k0: Socket, op: OpId)
    requires Shape(s) && Loose(s, k0) && (op in s.creates ==> OpOk(s, op))
    requires HandleOk(s, s.nextHandle + 1) && s.nextHandle + 1 < Reactor.HANDLE_LIMIT && !s.base.closed && s.next !in s.workers
    ensures op in Bind(s, k0).creates ==> OpOk(Bind(s, k0), op)
  {}

  lemma BindHandle(s: State, k0: Socket, h: Handle)
    requires Shape(s) && Loose(s, k0) && HandleOk(s, h)
    requires HandleOk(s, s.nextHandle + 1) && s.nextHandle + 1 < Reactor.HANDLE_LIMIT && !s.base.closed && s.next !in s.workers
    ensures HandleOk(Bind(s, k0), h)
  {}

  lemma BindWorker(s: State, k0: Socket, x: Serial)
    requires Shape(s) && Loose(s, k0) && (x in s.workers ==> WorkerOk(s, x))
    requires HandleOk(s, s.nextHandle + 1) && s.nextHandle + 1 < Reactor.HANDLE_LIMIT && !s.base.closed && s.next !in s.workers
    ensures x in Bind(s, k0).workers ==> WorkerOk(Bind(s, k0), x)
  {}

  lemma BindAround(s: State, k0: Socket, op: OpId, h: Handle, x: Serial)
    requires Shape(s) && Loose(s, k0) && Around(s, op, h, x)
    requires HandleOk(s, s.nextHandle + 1) && s.nextHandle + 1 < Reactor.HANDLE_LIMIT && !s.base.closed && s.next !in s.workers
    ensures Around(Bind(s, k0), op, h, x)
  {
    BindOp(s, k0, op);
    BindHandle(s, k0, h);
    BindWorker(s, k0, x);
    hide OpOk, HandleOk, WorkerOk, Bind;
  }

  lemma BindShape(s: State, k0: Socket)
    requires Shape(s) && Loose(s, k0)
    requires HandleOk(s, s.nextHandle + 1) && s.nextHandle + 1 < Reactor.HANDLE_LIMIT && !s.base.closed && s.next !in s.workers
    ensures Shape(Bind(s, k0))
  {
    ShapeGrows(s, Bind(s, k0));
    hide Shape;
  }

  lemma DrainSocket(s: State, k0: Socket, k: Socket)
    requires Shape(s) && Loose(s, k0) && (k in s.place && k != k0 ==> SocketOk(s, k))
    requires !s.base.closed && !s.place[k0].InCreate? && !s.place[k0].AtStream?
    requires k in s.place
    ensures SocketOk(Drain(s, k0), k)
  {}

  lemma DrainAround(s: State, k0: Socket, op: OpId, h: Handle, x: Serial)
    requires Shape(s) && Loose(s, k0) && Around(s, op, h, x)
    requires !s.base.closed && !s.place[k0].InCreate? && !s.place[k0].AtStream?
    ensures Around(Drain(s, k0), op, h, x)
  {}

  lemma DrainShape(s: State, k0: Socket)
    requires Shape(s) && Loose(s, k0)
    requires !s.base.closed && !s.place[k0].InCreate? && !s.place[k0].AtStream?
    ensures Shape(Drain(s, k0))
  {}

  lemma DiscardSocket(s: State, x0: Serial, got: bool, k: Socket)
    requires Shape(s) && (k in s.place ==> SocketOk(s, k))
    requires s.next !in s.place && s.next !in s.workers && x0 in s.workers && !s.workers[x0].Closing?
    requires k in Discard(s, x0, got).place
    ensures SocketOk(Discard(s, x0, got), k)
  {}

  lemma DiscardOp(s: State, x0: Serial, got: bool, op: OpId)
    requires Shape(s) && (op in s.creates ==> OpOk(s, op))
    requires s.next !in s.place && s.next !in s.workers && x0 in s.workers && !s.workers[x0].Closing?
    ensures op in Discard(s, x0, got).creates ==> OpOk(Discard(s, x0, got), op)
  {}

  lemma DiscardHandle(s: State, x0: Serial, got: bool, h: Handle)
    requires Shape(s) && HandleOk(s, h)
    requires s.next !in s.place && s.next !in s.workers && x0 in s.workers && !s.workers[x0].Closing?
    ensures HandleOk(Discard(s, x0, got), h)
  {}

  lemma DiscardWorker(s: State, x0: Serial, got: bool, x: Serial)
    requires Shape(s) && (x in s.workers ==> WorkerOk(s, x))
    requires s.next !in s.place && s.next !in s.workers && x0 in s.workers && !s.workers[x0].Closing?
    ensures x in Discard(s, x0, got).workers ==> WorkerOk(Discard(s, x0, got), x)
  {}

  lemma DiscardAround(s: State, x0: Serial, got: bool, op: OpId, h: Handle, x: Serial)
    requires Shape(s) && Around(s, op, h, x)
    requires s.next !in s.place && s.next !in s.workers && x0 in s.workers && !s.workers[x0].Closing?
    ensures Around(Discard(s, x0, got), op, h, x)
  {
    DiscardOp(s, x0, got, op);
    DiscardHandle(s, x0, got, h);
    DiscardWorker(s, x0, got, x);
    hide OpOk, HandleOk, WorkerOk, Discard;
  }

  lemma DiscardShape(s: State, x0: Serial, got: bool)
    requires Shape(s)
    requires s.next !in s.place && s.next !in s.workers && x0 in s.workers && !s.workers[x0].Closing?
    ensures Shape(Discard(s, x0, got))
  {}

  // A worker of an open reactor ends and brings in a new socket.
  lemma ShapeGrows(s: State, t: State)
    requires Shape(s) && !t.base.closed && !t.returned
    requires t.owed == s.owed && t.draining == s.draining && t.shut == s.shut
    requires forall k | k in s.place && (k in s.owed || k in s.draining || k in s.shut) :: k in t.place && t.place[k] == s.place[k]
    requires forall x | x in s.workers && s.workers[x] == Closing :: x in t.workers && t.workers[x] == Closing
    ensures Shape(t)
  {}

  lemma CompleteSocket(s: State, x0: Serial, op0: OpId, got: bool, failed: bool, k: Socket)
    requires Shape(s) && (k in s.place ==> SocketOk(s, k))
    requires s.next !in s.place && s.next !in s.workers && op0 in s.creates && s.creates[op0].worker == x0 && OpOk(s, op0) && x0 in s.workers && !s.workers[x0].Closing?
    requires k in Complete(s, x0, op0, got, failed).place
    ensures SocketOk(Complete(s, x0, op0, got, failed), k)
  {}

  lemma CompleteOp(s: State, x0: Serial, op0: OpId, got: bool, failed: bool, op: OpId)
    requires Shape(s) && (op in s.creates ==> OpOk(s, op))
    requires s.next !in s.place && s.next !in s.workers && op0 in s.creates && s.creates[op0].worker == x0 && OpOk(s, op0) && x0 in s.workers && !s.workers[x0].Closing?
    ensures op in Complete(s, x0, op0, got, failed).creates ==> OpOk(Complete(s, x0, op0, got, failed), op)
  {}

  lemma CompleteHandle(s: State, x0: Serial, op0: OpId, got: bool, failed: bool, h: Handle)
    requires Shape(s) && HandleOk(s, h)
    requires s.next !in s.place && s.next !in s.workers && op0 in s.creates && s.creates[op0].worker == x0 && OpOk(s, op0) && x0 in s.workers && !s.workers[x0].Closing?
    ensures HandleOk(Complete(s, x0, op0, got, failed), h)
  {}

  lemma CompleteWorker(s: State, x0: Serial, op0: OpId, got: bool, failed: bool, x: Serial)
    requires Shape(s) && (x in s.workers ==> WorkerOk(s, x))
    requires s.next !in s.place && s.next !in s.workers && op0 in s.creates && s.creates[op0].worker == x0 && OpOk(s, op0) && x0 in s.workers && !s.workers[x0].Closing?
    ensures x in Complete(s, x0, op0, got, failed).workers ==> WorkerOk(Complete(s, x0, op0, got, failed), x)
  {}

  lemma CompleteAround(s: State, x0: Serial, op0: OpId, got: bool, failed: bool, op: OpId, h: Handle, x: Serial)
    requires Shape(s) && Around(s, op, h, x)
    requires s.next !in s.place && s.next !in s.workers && op0 in s.creates && s.creates[op0].worker == x0 && OpOk(s, op0) && x0 in s.workers && !s.workers[x0].Closing?
    ensures Around(Complete(s, x0, op0, got, failed), op, h, x)
  {
    CompleteOp(s, x0, op0, got, failed, op);
    CompleteHandle(s, x0, op0, got, failed, h);
    CompleteWorker(s, x0, op0, got, failed, x);
    hide OpOk, HandleOk, WorkerOk, Complete;
  }

  lemma CompleteShape(s: State, x0: Serial, op0: OpId, got: bool, failed: bool)
    requires Shape(s)
    requires s.next !in s.place && s.next !in s.workers && op0 in s.creates && s.creates[op0].worker == x0 && OpOk(s, op0) && x0 in s.workers && !s.workers[x0].Closing?
    ensures Shape(Complete(s, x0, op0, got, failed))
  {
    ShapeGrows(s, Complete(s, x0, op0, got, failed));
    hide Shape, HandleOk, OpOk;
  }

  lemma ArriveSocket(s: State, x0: Serial, h0: Handle, got: bool, failed: bool, k: Socket)
    requires Shape(s) && (k in s.place ==> SocketOk(s, k))
    requires s.next !in s.place && s.next !in s.workers && h0 in s.backlog && HandleOk(s, h0) && x0 in s.workers && !s.workers[x0].Closing?
    requires k in Arrive(s, x0, h0, got, failed).place
    ensures SocketOk(Arrive(s, x0, h0, got, failed), k)
  {}

  lemma ArriveElsewhere(s: State, x0: Serial, h0: Handle, got: bool, failed: bool, h: Handle)
    requires HandleOk(s, h) && s.next !in s.place && h0 in s.backlog
    requires h != h0 || !got || failed
    ensures HandleOk(Arrive(s, x0, h0, got, failed), h)
  {}

  lemma ArriveHere(s: State, x0: Serial, h: Handle)
    requires HandleOk(s, h) && s.next !in s.place && h in s.backlog
    ensures HandleOk(Arrive(s, x0, h, true, false), h)
  {
    var t := Arrive(s, x0, h, true, false);
    forall k | k in t.backlog[h] ensures In(t, k, InBacklog(h)) {
      assert k in s.backlog[h] || k == s.next;
    }
    forall i, j | 0 <= i < j < |t.backlog[h]| ensures t.backlog[h][i] != t.backlog[h][j] {
      assert s.backlog[h][i] in s.backlog[h];
    }
  }

  lemma ArriveHandle(s: State, x0: Serial, h0: Handle, got: bool, failed: bool, h: Handle)
    requires HandleOk(s, h) && s.next !in s.place && h0 in s.backlog
    ensures HandleOk(Arrive(s, x0, h0, got, failed), h)
  {
    hide HandleOk, Arrive;
    if h != h0 || !got || failed { ArriveElsewhere(s, x0, h0, got, failed, h); } else { ArriveHere(s, x0, h); }
  }

  lemma ArriveOp(s: State, x0: Serial, h0: Handle, got: bool, failed: bool, op: OpId)
    requires (op in s.creates ==> OpOk(s, op)) && s.next !in s.place && h0 in s.backlog
    ensures op in Arrive(s, x0, h0, got, failed).creates ==> OpOk(Arrive(s, x0, h0, got, failed), op)
  {}

  lemma ArriveWorker(s: State, x0: Serial, h0: Handle, got: bool, failed: bool, x: Serial)
    requires (x in s.workers ==> WorkerOk(s, x)) && s.next !in s.place && h0 in s.backlog
    ensures x in Arrive(s, x0, h0, got, failed).workers ==> WorkerOk(Arrive(s, x0, h0, got, failed), x)
  {}

  lemma ArriveAround(s: State, x0: Serial, h0: Handle, got: bool, failed: bool, op: OpId, h: Handle, x: Serial)
    requires Around(s, op, h, x) && s.next !in s.place && h0 in s.backlog
    ensures Around(Arrive(s, x0, h0, got, failed), op, h, x)
  {
    hide OpOk, HandleOk, WorkerOk, Arrive;
    ArriveHandle(s, x0, h0, got, failed, h);
    ArriveOp(s, x0, h0, got, failed, op);
    ArriveWorker(s, x0, h0, got, failed, x);
  }

  lemma ArriveShape(s: State, x0: Serial, h0: Handle, got: bool, failed: bool)
    requires Shape(s)
    requires s.next !in s.place && s.next !in s.workers && h0 in s.backlog && HandleOk(s, h0) && x0 in s.workers && !s.workers[x0].Closing?
    ensures Shape(Arrive(s, x0, h0, got, failed))
  {
    ShapeGrows(s, Arrive(s, x0, h0, got, failed));
    hide Shape, HandleOk, OpOk;
  }

  lemma CloseListenerSocket(s: State, h0: Handle, k: Socket)
    requires Shape(s) && (k in s.place ==> SocketOk(s, k))
    requires h0 in s.listeners && h0 in s.backlog && HandleOk(s, h0)
    requires k in CloseListener(s, h0).place
    ensures SocketOk(CloseListener(s, h0), k)
  {}

  lemma CloseListenerOp(s: State, h0: Handle, op: OpId)
    requires (op in s.creates ==> OpOk(s, op)) && h0 in s.listeners && h0 in s.backlog && HandleOk(s, h0)
    ensures op in CloseListener(s, h0).creates ==> OpOk(CloseListener(s, h0), op)
  {}

  // Only sockets of that listener change their place.
  lemma CloseListenerPlaces(s: State, h0: Handle)
    requires h0 in s.listeners && h0 in s.backlog && HandleOk(s, h0)
    ensures forall k, p | In(s, k, p) && p != AtListener(h0) && p != InBacklog(h0) :: In(CloseListener(s, h0), k, p)
  {}

  lemma CloseListenerTables(s: State, h0: Handle, h: Handle)
    requires h0 in s.listeners && h0 in s.backlog && h != h0
    ensures var t := CloseListener(s, h0);
      && t.streams == s.streams && t.datagrams == s.datagrams && t.nextHandle == s.nextHandle
      && (h in t.listeners <==> h in s.listeners) && (h in s.listeners ==> t.listeners[h] == s.listeners[h])
      && (h in t.backlog <==> h in s.backlog) && (h in s.backlog ==> t.backlog[h] == s.backlog[h])
  {}

  lemma CloseListenerHere(s: State, h0: Handle)
    requires h0 in s.listeners && h0 in s.backlog && HandleOk(s, h0)
    ensures HandleOk(CloseListener(s, h0), h0)
  {
    hide In;
  }

  lemma CloseListenerHandle(s: State, h0: Handle, h: Handle)
    requires HandleOk(s, h) && h0 in s.listeners && h0 in s.backlog && HandleOk(s, h0)
    ensures HandleOk(CloseListener(s, h0), h)
  {
    if h == h0 {
      CloseListenerHere(s, h0);
      hide HandleOk;
    } else {
      CloseListenerPlaces(s, h0);
      CloseListenerTables(s, h0, h);
      hide In, CloseListener;
    }
  }

  lemma CloseListenerWorker(s: State, h0: Handle, x: Serial)
    requires (x in s.workers ==> WorkerOk(s, x)) && h0 in s.listeners && h0 in s.backlog && HandleOk(s, h0)
    ensures x in CloseListener(s, h0).workers ==> WorkerOk(CloseListener(s, h0), x)
  {}

  lemma CloseListenerAround(s: State, h0: Handle, op: OpId, h: Handle, x: Serial)
    requires Around(s, op, h, x)
    requires h0 in s.listeners && h0 in s.backlog && HandleOk(s, h0)
    ensures Around(CloseListener(s, h0), op, h, x)
  {
    hide OpOk, HandleOk, WorkerOk, CloseListener;
    CloseListenerHandle(s, h0, h);
    CloseListenerOp(s, h0, op);
    CloseListenerWorker(s, h0, x);
  }

  lemma TakeShape(s: State, ks: set<Socket>)
    requires Shape(s) && forall k | k in ks :: k in s.place && (s.place[k].AtListener? || s.place[k].InBacklog?)
    ensures Shape(Take(s, ks, ByCall))
  {}

  lemma CloseListenerShape(s: State, h0: Handle)
    requires Shape(s)
    requires h0 in s.listeners && h0 in s.backlog && HandleOk(s, h0)
    ensures Shape(CloseListener(s, h0))
  {
    var u := s.(listeners := s.listeners - {h0}, backlog := s.backlog - {h0});
    assert Shape(u);
    hide Shape;
    TakeShape(u, {s.listeners[h0]} + (set k | k in s.backlog[h0]));
    hide Take;
  }

  lemma SendClosesSocket(s: State, x0: Serial, k: Socket)
    requires Shape(s) && (k in s.place ==> SocketOk(s, k))
    requires (x0 in s.workers ==> WorkerOk(s, x0)) && (x0 in s.workers && s.workers[x0].SendingOn? && s.workers[x0].socket in s.place ==> SocketOk(s, s.workers[x0].socket))
    requires k in SendCloses(s, x0).place
    ensures SocketOk(SendCloses(s, x0), k)
  {}

  lemma SendClosesAround(s: State, x0: Serial, op: OpId, h: Handle, x: Serial)
    requires Shape(s) && Around(s, op, h, x)
    requires (x0 in s.workers ==> WorkerOk(s, x0)) && (x0 in s.workers && s.workers[x0].SendingOn? && s.workers[x0].socket in s.place ==> SocketOk(s, s.workers[x0].socket))
    ensures Around(SendCloses(s, x0), op, h, x)
  {}

  lemma SendClosesShape(s: State, x0: Serial)
    requires Shape(s)
    requires (x0 in s.workers ==> WorkerOk(s, x0)) && (x0 in s.workers && s.workers[x0].SendingOn? && s.workers[x0].socket in s.place ==> SocketOk(s, s.workers[x0].socket))
    ensures Shape(SendCloses(s, x0))
  {}


  lemma ForgetSocket(s: State, op0: OpId, k: Socket)
    requires k in s.place && SocketOk(s, k)
    requires op0 in s.creates && s.creates[op0].resource != Some(k)
    ensures SocketOk(Forget(s, op0), k)
  {}

  lemma ForgetAround(s: State, op0: OpId, op: OpId, h: Handle, x: Serial)
    requires Around(s, op, h, x)
    ensures Around(Forget(s, op0), op, h, x)
  {}

  lemma ForgetShape(s: State, op0: OpId)
    requires Shape(s) && op0 in s.creates && OpOk(s, op0)
    requires forall k | s.creates[op0].resource == Some(k) :: SocketOk(s, k)
    ensures Shape(Forget(s, op0))
    ensures forall k | s.creates[op0].resource == Some(k) :: Loose(Forget(s, op0), k)
  {}

  lemma PopSocket(s: State, h0: Handle, k: Socket)
    requires Shape(s) && k in s.place && SocketOk(s, k)
    requires h0 in s.backlog && s.backlog[h0] != [] && HandleOk(s, h0)
    requires k != s.backlog[h0][0]
    ensures SocketOk(Pop(s, h0), k)
  {
    assert s.backlog[h0] == [s.backlog[h0][0]] + s.backlog[h0][1..] && s.backlog[h0][0] in s.backlog[h0];
    assert forall k | k in s.backlog[h0][1..] :: k in s.backlog[h0];
  }

  lemma PopAround(s: State, h0: Handle, op: OpId, h: Handle, x: Serial)
    requires Shape(s) && Around(s, op, h, x)
    requires h0 in s.backlog && s.backlog[h0] != [] && HandleOk(s, h0)
    ensures Around(Pop(s, h0), op, h, x)
  {
    assert s.backlog[h0] == [s.backlog[h0][0]] + s.backlog[h0][1..] && s.backlog[h0][0] in s.backlog[h0];
    assert forall k | k in s.backlog[h0][1..] :: k in s.backlog[h0];
  }

  lemma PopShape(s: State, h0: Handle)
    requires Shape(s)
    requires h0 in s.backlog && s.backlog[h0] != [] && HandleOk(s, h0) && s.backlog[h0][0] in s.place && SocketOk(s, s.backlog[h0][0])
    ensures Shape(Pop(s, h0)) && Loose(Pop(s, h0), s.backlog[h0][0])
  {
    assert s.backlog[h0] == [s.backlog[h0][0]] + s.backlog[h0][1..] && s.backlog[h0][0] in s.backlog[h0];
    assert forall k | k in s.backlog[h0][1..] :: k in s.backlog[h0];
  }

  lemma DropStreamSocket(s: State, h0: Handle, k: Socket)
    requires Shape(s) && k in s.place && SocketOk(s, k)
    requires h0 in s.streams && HandleOk(s, h0)
    requires k != s.streams[h0]
    ensures SocketOk(DropStream(s, h0), k)
  {}

  lemma DropStreamAround(s: State, h0: Handle, op: OpId, h: Handle, x: Serial)
    requires Shape(s) && Around(s, op, h, x)
    requires h0 in s.streams && HandleOk(s, h0)
    ensures Around(DropStream(s, h0), op, h, x)
  {}

  lemma DropStreamShape(s: State, h0: Handle)
    requires Shape(s)
    requires h0 in s.streams && HandleOk(s, h0) && s.streams[h0] in s.place && SocketOk(s, s.streams[h0])
    ensures Shape(DropStream(s, h0)) && Loose(DropStream(s, h0), s.streams[h0])
  {}

  lemma DropDatagramSocket(s: State, h0: Handle, k: Socket)
    requires Shape(s) && k in s.place && SocketOk(s, k)
    requires h0 in s.datagrams && HandleOk(s, h0)
    requires k != s.datagrams[h0]
    ensures SocketOk(DropDatagram(s, h0), k)
  {}

  lemma DropDatagramAround(s: State, h0: Handle, op: OpId, h: Handle, x: Serial)
    requires Shape(s) && Around(s, op, h, x)
    requires h0 in s.datagrams && HandleOk(s, h0)
    ensures Around(DropDatagram(s, h0), op, h, x)
  {}

  lemma DropDatagramShape(s: State, h0: Handle)
    requires Shape(s)
    requires h0 in s.datagrams && HandleOk(s, h0) && s.datagrams[h0] in s.place && SocketOk(s, s.datagrams[h0])
    ensures Shape(DropDatagram(s, h0)) && Loose(DropDatagram(s, h0), s.datagrams[h0])
  {}

  lemma BeginCreateSocket(s: State, op0: OpId, kind: CreateKind, k: Socket)
    requires Shape(s) && (k in s.place ==> SocketOk(s, k))
    requires s.next !in s.place && s.next !in s.workers && (op0 in s.creates ==> OpOk(s, op0))
    requires k in BeginCreate(s, op0, kind).place
    ensures SocketOk(BeginCreate(s, op0, kind), k)
  {}

  lemma BeginCreateOp(s: State, op0: OpId, kind: CreateKind, op: OpId)
    requires (op in s.creates ==> OpOk(s, op)) && s.next !in s.place && s.next !in s.workers
    ensures op in BeginCreate(s, op0, kind).creates ==> OpOk(BeginCreate(s, op0, kind), op)
  {}

  lemma BeginCreateHandle(s: State, op0: OpId, kind: CreateKind, h: Handle)
    requires HandleOk(s, h)
    ensures HandleOk(BeginCreate(s, op0, kind), h)
  {}

  lemma BeginCreateWorker(s: State, op0: OpId, kind: CreateKind, x: Serial)
    requires (x in s.workers ==> WorkerOk(s, x)) && s.next !in s.workers
    ensures x in BeginCreate(s, op0, kind).workers ==> WorkerOk(BeginCreate(s, op0, kind), x)
  {}

  lemma BeginCreateAround(s: State, op0: OpId, kind: CreateKind, op: OpId, h: Handle, x: Serial)
    requires Around(s, op, h, x)
    requires s.next !in s.place && s.next !in s.workers
    ensures Around(BeginCreate(s, op0, kind), op, h, x)
  {
    hide OpOk, HandleOk, WorkerOk, BeginCreate;
    BeginCreateOp(s, op0, kind, op);
    BeginCreateHandle(s, op0, kind, h);
    BeginCreateWorker(s, op0, kind, x);
  }

  lemma BeginCreateShape(s: State, op0: OpId, kind: CreateKind)
    requires Shape(s)
    requires s.next !in s.place && s.next !in s.workers && (op0 in s.creates ==> OpOk(s, op0))
    ensures Shape(BeginCreate(s, op0, kind))
  {}

  lemma StartAcceptSocket(s: State, h0: Handle, k: Socket)
    requires Shape(s) && (k in s.place ==> SocketOk(s, k))
    requires s.next !in s.place && s.next !in s.workers
    requires k in StartAccept(s, h0).place
    ensures SocketOk(StartAccept(s, h0), k)
  {}

  lemma StartAcceptAround(s: State, h0: Handle, op: OpId, h: Handle, x: Serial)
    requires Shape(s) && Around(s, op, h, x)
    requires s.next !in s.place && s.next !in s.workers
    ensures Around(StartAccept(s, h0), op, h, x)
  {}

  lemma StartAcceptShape(s: State, h0: Handle)
    requires Shape(s)
    requires s.next !in s.place && s.next !in s.workers
    ensures Shape(StartAccept(s, h0))
  {}

  lemma StartOtherSocket(s: State, k: Socket)
    requires Shape(s) && (k in s.place ==> SocketOk(s, k))
    requires s.next !in s.place && s.next !in s.workers
    requires k in StartOther(s).place
    ensures SocketOk(StartOther(s), k)
  {}

  lemma StartOtherAround(s: State, op: OpId, h: Handle, x: Serial)
    requires Shape(s) && Around(s, op, h, x)
    requires s.next !in s.place && s.next !in s.workers
    ensures Around(StartOther(s), op, h, x)
  {}

  lemma StartOtherShape(s: State)
    requires Shape(s)
    requires s.next !in s.place && s.next !in s.workers
    ensures Shape(StartOther(s))
  {}

  lemma CloseAllSocket(s: State, k: Socket)
    requires Shape(s) && (k in s.place ==> SocketOk(s, k))
    requires forall k | k in Held(s) :: k in s.place && !s.place[k].Owed? && !s.place[k].Dropped?
    requires k in CloseAll(s).place
    ensures SocketOk(CloseAll(s), k)
  {}

  lemma CloseAllOp(s: State, op: OpId)
    requires Shape(s) && (op in s.creates ==> OpOk(s, op))
    requires forall k | k in Held(s) :: k in s.place && !s.place[k].Owed? && !s.place[k].Dropped?
    ensures op in CloseAll(s).creates ==> OpOk(CloseAll(s), op)
  {}

  lemma CloseAllHandle(s: State, h: Handle)
    requires Shape(s) && HandleOk(s, h)
    requires forall k | k in Held(s) :: k in s.place && !s.place[k].Owed? && !s.place[k].Dropped?
    ensures HandleOk(CloseAll(s), h)
  {}

  lemma CloseAllWorker(s: State, x: Serial)
    requires Shape(s) && (x in s.workers ==> WorkerOk(s, x))
    requires forall k | k in Held(s) :: k in s.place && !s.place[k].Owed? && !s.place[k].Dropped?
    ensures x in CloseAll(s).workers ==> WorkerOk(CloseAll(s), x)
  {}

  lemma CloseAllAround(s: State, op: OpId, h: Handle, x: Serial)
    requires Shape(s) && Around(s, op, h, x)
    requires forall k | k in Held(s) :: k in s.place && !s.place[k].Owed? && !s.place[k].Dropped?
    ensures Around(CloseAll(s), op, h, x)
  {
    CloseAllOp(s, op);
    CloseAllHandle(s, h);
    CloseAllWorker(s, x);
    hide OpOk, HandleOk, WorkerOk, CloseAll;
  }

  lemma CloseAllShape(s: State)
    requires Shape(s)
    requires forall k | k in Held(s) :: k in s.place && !s.place[k].Owed? && !s.place[k].Dropped?
    ensures Shape(CloseAll(s))
  {}

  // ---------------------------------------------------------------- every step, on the whole state

  ghost predicate InvBut(s: State, k0: Socket) {
    && Shape(s) && Loose(s, k0)
    && (forall k | k in s.place && k != k0 :: SocketOk(s, k))
    && (forall op | op in s.creates :: OpOk(s, op))
    && (forall h :: HandleOk(s, h))
    && (forall x | x in s.workers :: WorkerOk(s, x))
  }

  lemma Everywhere(s: State, op: OpId, h: Handle, x: Serial)
    requires forall op | op in s.creates :: OpOk(s, op)
    requires forall h :: HandleOk(s, h)
    requires forall x | x in s.workers :: WorkerOk(s, x)
    ensures Around(s, op, h, x)
  {}

  lemma Gather(s: State)
    requires forall op, h, x :: Around(s, op, h, x)
    ensures forall op | op in s.creates :: OpOk(s, op)
    ensures forall h :: HandleOk(s, h)
    ensures forall x | x in s.workers :: WorkerOk(s, x)
  {
    hide OpOk, HandleOk, WorkerOk;
    forall op ensures op in s.creates ==> OpOk(s, op) { assert Around(s, op, 0, 0); }
    forall h ensures HandleOk(s, h) { assert Around(s, 0, h, 0); }
    forall x ensures x in s.workers ==> WorkerOk(s, x) { assert Around(s, 0, 0, x); }
  }

  // Nothing carries the number the next object will get.
  lemma NextIsNew(s: State)
    requires Inv(s)
    ensures s.next !in s.place && s.next !in s.workers
  {
    assert s.next in s.place ==> SocketOk(s, s.next);
    assert s.next in s.workers ==> WorkerOk(s, s.next);
  }

  lemma TakeOneInv(s: State, k0: Socket)
    requires InvBut(s, k0)
    ensures Inv(TakeOne(s, k0, ByCall))
  {
    assert k0 in s.place;
    hide SocketOk, OpOk, HandleOk, WorkerOk, Shape, Loose;
    var t := TakeOne(s, k0, ByCall);
    TakeOneShape(s, k0);
    forall k | k in t.place ensures SocketOk(t, k) { TakeOneSocket(s, k0, k); }
    forall op, h, x ensures Around(t, op, h, x) { Everywhere(s, op, h, x); TakeOneAround(s, k0, op, h, x); }
    Gather(t);
  }

  lemma ConnectInv(s: State, k0: Socket)
    requires InvBut(s, k0) && s.nextHandle + 1 < Reactor.HANDLE_LIMIT && !s.base.closed && !s.place[k0].AtDatagram?
    ensures Inv(Connect(s, k0))
  {
    assert k0 in s.place;
    hide SocketOk, OpOk, HandleOk, WorkerOk, Shape, Loose;
    var t := Connect(s, k0);
    ConnectShape(s, k0);
    forall k | k in t.place ensures SocketOk(t, k) { ConnectSocket(s, k0, k); }
    forall op, h, x ensures Around(t, op, h, x) { Everywhere(s, op, h, x); ConnectAround(s, k0, op, h, x); }
    Gather(t);
  }

  lemma ListenInv(s: State, k0: Socket)
    requires InvBut(s, k0) && s.nextHandle + 1 < Reactor.HANDLE_LIMIT && !s.base.closed && !s.place[k0].AtDatagram?
    ensures Inv(Listen(s, k0))
  {
    assert k0 in s.place;
    hide SocketOk, OpOk, HandleOk, WorkerOk, Shape, Loose;
    var t := Listen(s, k0);
    ListenShape(s, k0);
    forall k | k in t.place ensures SocketOk(t, k) { ListenSocket(s, k0, k); }
    forall op, h, x ensures Around(t, op, h, x) { Everywhere(s, op, h, x); ListenAround(s, k0, op, h, x); }
    Gather(t);
  }

  lemma BindInv(s: State, k0: Socket)
    requires InvBut(s, k0) && s.nextHandle + 1 < Reactor.HANDLE_LIMIT && !s.base.closed && s.next !in s.workers
    ensures Inv(Bind(s, k0))
  {
    assert k0 in s.place;
    hide SocketOk, OpOk, HandleOk, WorkerOk, Shape, Loose;
    var t := Bind(s, k0);
    BindShape(s, k0);
    forall k | k in t.place ensures SocketOk(t, k) { BindSocket(s, k0, k); }
    forall op, h, x ensures Around(t, op, h, x) { Everywhere(s, op, h, x); BindAround(s, k0, op, h, x); }
    Gather(t);
  }

  lemma DrainInv(s: State, k0: Socket)
    requires InvBut(s, k0) && !s.base.closed && !s.place[k0].InCreate? && !s.place[k0].AtStream?
    ensures Inv(Drain(s, k0))
  {
    assert k0 in s.place;
    hide SocketOk, OpOk, HandleOk, WorkerOk, Shape, Loose;
    var t := Drain(s, k0);
    DrainShape(s, k0);
    forall k | k in t.place ensures SocketOk(t, k) { DrainSocket(s, k0, k); }
    forall op, h, x ensures Around(t, op, h, x) { Everywhere(s, op, h, x); DrainAround(s, k0, op, h, x); }
    Gather(t);
  }

  lemma DiscardInv(s: State, x0: Serial, got: bool)
    requires Inv(s) && x0 in s.workers && !s.workers[x0].Closing?
    ensures Inv(Discard(s, x0, got))
  {
    hide SocketOk, OpOk, HandleOk, WorkerOk, Shape;
    var t := Discard(s, x0, got);
    NextIsNew(s);
    DiscardShape(s, x0, got);
    forall k | k in t.place ensures SocketOk(t, k) { DiscardSocket(s, x0, got, k); }
    forall op, h, x ensures Around(t, op, h, x) { Everywhere(s, op, h, x); DiscardAround(s, x0, got, op, h, x); }
    Gather(t);
  }

  lemma CompleteInv(s: State, x0: Serial, op0: OpId, got: bool, failed: bool)
    requires Inv(s) && op0 in s.creates && s.creates[op0].worker == x0 && x0 in s.workers && !s.workers[x0].Closing?
    ensures Inv(Complete(s, x0, op0, got, failed))
  {
    hide SocketOk, OpOk, HandleOk, WorkerOk, Shape;
    var t := Complete(s, x0, op0, got, failed);
    NextIsNew(s);
    CompleteShape(s, x0, op0, got, failed);
    forall k | k in t.place ensures SocketOk(t, k) { CompleteSocket(s, x0, op0, got, failed, k); }
    forall op, h, x ensures Around(t, op, h, x) { Everywhere(s, op, h, x); CompleteAround(s, x0, op0, got, failed, op, h, x); }
    Gather(t);
  }

  lemma ArriveInv(s: State, x0: Serial, h0: Handle, got: bool, failed: bool)
    requires Inv(s) && h0 in s.backlog && x0 in s.workers && !s.workers[x0].Closing?
    ensures Inv(Arrive(s, x0, h0, got, failed))
  {
    hide SocketOk, OpOk, HandleOk, WorkerOk, Shape;
    var t := Arrive(s, x0, h0, got, failed);
    NextIsNew(s);
    ArriveShape(s, x0, h0, got, failed);
    forall k | k in t.place ensures SocketOk(t, k) { ArriveSocket(s, x0, h0, got, failed, k); }
    forall op, h, x ensures Around(t, op, h, x) { Everywhere(s, op, h, x); ArriveAround(s, x0, h0, got, failed, op, h, x); }
    Gather(t);
  }

  lemma CloseListenerInv(s: State, h0: Handle)
    requires Inv(s) && h0 in s.listeners && h0 in s.backlog
    ensures Inv(CloseListener(s, h0))
  {
    hide SocketOk, OpOk, HandleOk, WorkerOk, Shape;
    var t := CloseListener(s, h0);
    NextIsNew(s);
    CloseListenerShape(s, h0);
    forall k | k in t.place ensures SocketOk(t, k) { CloseListenerSocket(s, h0, k); }
    forall op, h, x ensures Around(t, op, h, x) { Everywhere(s, op, h, x); CloseListenerAround(s, h0, op, h, x); }
    Gather(t);
  }

  lemma SenderOk(s: State, x: Serial)
    requires Inv(s)
    ensures x in s.workers ==> WorkerOk(s, x)
    ensures x in s.workers && s.workers[x].SendingOn? && s.workers[x].socket in s.place ==> SocketOk(s, s.workers[x].socket)
  {}

  lemma SendClosesInv(s: State, x0: Serial)
    requires Inv(s)
    ensures Inv(SendCloses(s, x0))
  {
    hide SocketOk, OpOk, HandleOk, WorkerOk, Shape;
    var t := SendCloses(s, x0);
    NextIsNew(s);
    SenderOk(s, x0);
    SendClosesShape(s, x0);
    forall k | k in t.place ensures SocketOk(t, k) { SendClosesSocket(s, x0, k); }
    forall op, h, x ensures Around(t, op, h, x) { Everywhere(s, op, h, x); SendClosesAround(s, x0, op, h, x); }
    Gather(t);
  }

  lemma BeginCreateInv(s: State, op0: OpId, kind: CreateKind)
    requires Inv(s)
    ensures Inv(BeginCreate(s, op0, kind))
  {
    hide SocketOk, OpOk, HandleOk, WorkerOk, Shape;
    var t := BeginCreate(s, op0, kind);
    NextIsNew(s);
    BeginCreateShape(s, op0, kind);
    forall k | k in t.place ensures SocketOk(t, k) { BeginCreateSocket(s, op0, kind, k); }
    forall op, h, x ensures Around(t, op, h, x) { Everywhere(s, op, h, x); BeginCreateAround(s, op0, kind, op, h, x); }
    Gather(t);
  }

  lemma StartAcceptInv(s: State, h0: Handle)
    requires Inv(s)
    ensures Inv(StartAccept(s, h0))
  {
    hide SocketOk, OpOk, HandleOk, WorkerOk, Shape;
    var t := StartAccept(s, h0);
    NextIsNew(s);
    StartAcceptShape(s, h0);
    forall k | k in t.place ensures SocketOk(t, k) { StartAcceptSocket(s, h0, k); }
    forall op, h, x ensures Around(t, op, h, x) { Everywhere(s, op, h, x); StartAcceptAround(s, h0, op, h, x); }
    Gather(t);
  }

  lemma StartOtherInv(s: State)
    requires Inv(s)
    ensures Inv(StartOther(s))
  {
    hide SocketOk, OpOk, HandleOk, WorkerOk, Shape;
    var t := StartOther(s);
    NextIsNew(s);
    StartOtherShape(s);
    forall k | k in t.place ensures SocketOk(t, k) { StartOtherSocket(s, k); }
    forall op, h, x ensures Around(t, op, h, x) { Everywhere(s, op, h, x); StartOtherAround(s, op, h, x); }
    Gather(t);
  }

  lemma HeldPlaces(s: State)
    requires Inv(s)
    ensures forall k | k in Held(s) :: k in s.place && !s.place[k].Owed? && !s.place[k].Dropped?
  {
    forall k | k in Held(s) ensures k in s.place && !s.place[k].Owed? && !s.place[k].Dropped? {
      if op :| op in s.creates && s.creates[op].resource == Some(k) {
        assert OpOk(s, op);
      } else if h :| h in s.streams && s.streams[h] == k {
        assert HandleOk(s, h);
      } else if h :| h in s.datagrams && s.datagrams[h] == k {
        assert HandleOk(s, h);
      } else if h :| h in s.listeners && s.listeners[h] == k {
        assert HandleOk(s, h);
      } else if h :| h in s.backlog && k in s.backlog[h] {
        assert HandleOk(s, h);
      }
    }
  }

  lemma CloseAllInv(s: State)
    requires Inv(s)
    ensures Inv(CloseAll(s))
  {
    hide SocketOk, OpOk, HandleOk, WorkerOk, Shape;
    var t := CloseAll(s);
    NextIsNew(s);
    HeldPlaces(s);
    CloseAllShape(s);
    forall k | k in t.place ensures SocketOk(t, k) { CloseAllSocket(s, k); }
    forall op, h, x ensures Around(t, op, h, x) { Everywhere(s, op, h, x); CloseAllAround(s, op, h, x); }
    Gather(t);
  }

  lemma NamedByHandle(s: State, h: Handle)
    requires Inv(s)
    ensures h in s.streams ==> s.streams[h] in s.place && SocketOk(s, s.streams[h]) && s.place[s.streams[h]].AtStream?
    ensures h in s.datagrams ==> s.datagrams[h] in s.place && SocketOk(s, s.datagrams[h]) && s.place[s.datagrams[h]].AtDatagram?
    ensures h in s.backlog && s.backlog[h] != []
            ==> s.backlog[h][0] in s.place && SocketOk(s, s.backlog[h][0]) && s.place[s.backlog[h][0]].InBacklog?
  {
    assert HandleOk(s, h);
    if h in s.backlog && s.backlog[h] != [] { assert s.backlog[h][0] in s.backlog[h]; }
  }

  lemma PopInv(s: State, h0: Handle)
    requires Inv(s) && h0 in s.backlog && s.backlog[h0] != []
    ensures InvBut(Pop(s, h0), s.backlog[h0][0])
  {
    hide SocketOk, OpOk, HandleOk, WorkerOk, Shape, Loose;
    var t := Pop(s, h0);
    NamedByHandle(s, h0);
    PopShape(s, h0);
    forall k | k in t.place && k != s.backlog[h0][0] ensures SocketOk(t, k) { PopSocket(s, h0, k); }
    forall op, h, x ensures Around(t, op, h, x) { Everywhere(s, op, h, x); PopAround(s, h0, op, h, x); }
    Gather(t);
  }

  lemma DropStreamInv(s: State, h0: Handle)
    requires Inv(s) && h0 in s.streams
    ensures InvBut(DropStream(s, h0), s.streams[h0])
  {
    hide SocketOk, OpOk, HandleOk, WorkerOk, Shape, Loose;
    var t := DropStream(s, h0);
    NamedByHandle(s, h0);
    DropStreamShape(s, h0);
    forall k | k in t.place && k != s.streams[h0] ensures SocketOk(t, k) { DropStreamSocket(s, h0, k); }
    forall op, h, x ensures Around(t, op, h, x) { Everywhere(s, op, h, x); DropStreamAround(s, h0, op, h, x); }
    Gather(t);
  }

  lemma DropDatagramInv(s: State, h0: Handle)
    requires Inv(s) && h0 in s.datagrams
    ensures InvBut(DropDatagram(s, h0), s.datagrams[h0])
  {
    hide SocketOk, OpOk, HandleOk, WorkerOk, Shape, Loose;
    var t := DropDatagram(s, h0);
    NamedByHandle(s, h0);
    DropDatagramShape(s, h0);
    forall k | k in t.place && k != s.datagrams[h0] ensures SocketOk(t, k) { DropDatagramSocket(s, h0, k); }
    forall op, h, x ensures Around(t, op, h, x) { Everywhere(s, op, h, x); DropDatagramAround(s, h0, op, h, x); }
    Gather(t);
  }

  lemma ForgetInv(s: State, op0: OpId)
    requires Inv(s) && op0 in s.creates
    ensures s.creates[op0].resource == None ==> Inv(Forget(s, op0))
    ensures s.creates[op0].resource.Some? ==> InvBut(Forget(s, op0), s.creates[op0].resource.value)
                                              && s.place[s.creates[op0].resource.value].InCreate?
  {
    hide SocketOk, HandleOk, WorkerOk, Shape, Loose;
    var t := Forget(s, op0);
    assert OpOk(s, op0);
    ForgetShape(s, op0);
    hide OpOk;
    forall k | k in t.place && s.creates[op0].resource != Some(k) ensures SocketOk(t, k) { ForgetSocket(s, op0, k); }
    forall op, h, x ensures Around(t, op, h, x) { Everywhere(s, op, h, x); ForgetAround(s, op0, op, h, x); }
    Gather(t);
  }

  lemma SendLeavesSocket(s: State, x0: Serial, k: Socket)
    requires Shape(s) && (k in s.place ==> SocketOk(s, k))
    requires x0 in s.workers ==> WorkerOk(s, x0)
    requires k in SendLeaves(s, x0).place
    ensures SocketOk(SendLeaves(s, x0), k)
  {}

  lemma SendLeavesOp(s: State, x0: Serial, op: OpId)
    requires Shape(s) && (op in s.creates ==> OpOk(s, op))
    ensures op in SendLeaves(s, x0).creates ==> OpOk(SendLeaves(s, x0), op)
  {}

  lemma SendLeavesHandle(s: State, x0: Serial, h: Handle)
    requires Shape(s) && HandleOk(s, h)
    ensures HandleOk(SendLeaves(s, x0), h)
  {}

  lemma SendLeavesWorker(s: State, x0: Serial, x: Serial)
    requires Shape(s) && (x in s.workers ==> WorkerOk(s, x))
    ensures x in SendLeaves(s, x0).workers ==> WorkerOk(SendLeaves(s, x0), x)
  {}

  lemma SendLeavesAround(s: State, x0: Serial, op: OpId, h: Handle, x: Serial)
    requires Shape(s) && Around(s, op, h, x)
    ensures Around(SendLeaves(s, x0), op, h, x)
  {
    SendLeavesOp(s, x0, op);
    SendLeavesHandle(s, x0, h);
    SendLeavesWorker(s, x0, x);
    hide OpOk, HandleOk, WorkerOk, SendLeaves;
  }

  lemma SendLeavesShape(s: State, x0: Serial)
    requires Shape(s) && (x0 in s.workers ==> WorkerOk(s, x0))
    ensures Shape(SendLeaves(s, x0))
  {}

  lemma SendLeavesInv(s: State, x0: Serial)
    requires Inv(s)
    ensures Inv(SendLeaves(s, x0))
  {
    hide SocketOk, OpOk, HandleOk, WorkerOk, Shape;
    var t := SendLeaves(s, x0);
    SenderOk(s, x0);
    SendLeavesShape(s, x0);
    forall k | k in t.place ensures SocketOk(t, k) { SendLeavesSocket(s, x0, k); }
    forall op, h, x ensures Around(t, op, h, x) { Everywhere(s, op, h, x); SendLeavesAround(s, x0, op, h, x); }
    Gather(t);
  }

  lemma PayCloseSocket(s: State, k0: Socket, k: Socket)
    requires Shape(s) && (k in s.place ==> SocketOk(s, k))
    requires k in PayClose(s, k0).place
    ensures SocketOk(PayClose(s, k0), k)
  {}

  lemma PayCloseOp(s: State, k0: Socket, op: OpId)
    requires Shape(s) && (op in s.creates ==> OpOk(s, op))
    ensures op in PayClose(s, k0).creates ==> OpOk(PayClose(s, k0), op)
  {}

  lemma PayClosePlaces(s: State, k0: Socket)
    requires Shape(s)
    ensures forall k, p | In(s, k, p) && !p.Owed? :: In(PayClose(s, k0), k, p)
  {}

  lemma PayCloseHandle(s: State, k0: Socket, h: Handle)
    requires Shape(s) && HandleOk(s, h)
    ensures HandleOk(PayClose(s, k0), h)
  {
    PayClosePlaces(s, k0);
    hide In, Shape;
  }

  lemma PayCloseWorker(s: State, k0: Socket, x: Serial)
    requires Shape(s) && (x in s.workers ==> WorkerOk(s, x))
    ensures x in PayClose(s, k0).workers ==> WorkerOk(PayClose(s, k0), x)
  {}

  lemma PayCloseAround(s: State, k0: Socket, op: OpId, h: Handle, x: Serial)
    requires Shape(s) && Around(s, op, h, x)
    ensures Around(PayClose(s, k0), op, h, x)
  {
    PayCloseOp(s, k0, op);
    PayCloseHandle(s, k0, h);
    PayCloseWorker(s, k0, x);
    hide OpOk, HandleOk, WorkerOk, PayClose;
  }

  lemma PayCloseShape(s: State, k0: Socket)
    requires Shape(s)
    ensures Shape(PayClose(s, k0))
  {}

  lemma PayCloseInv(s: State, k0: Socket)
    requires Inv(s)
    ensures Inv(PayClose(s, k0))
  {
    hide SocketOk, OpOk, HandleOk, WorkerOk, Shape;
    var t := PayClose(s, k0);
    PayCloseShape(s, k0);
    forall k | k in t.place ensures SocketOk(t, k) { PayCloseSocket(s, k0, k); }
    forall op, h, x ensures Around(t, op, h, x) { Everywhere(s, op, h, x); PayCloseAround(s, k0, op, h, x); }
    Gather(t);
  }

  lemma WorkerLeavesInv(s: State, x: Serial)
    requires Inv(s)
    ensures Inv(WorkerLeaves(s, x))
  {
    forall h ensures HandleOk(WorkerLeaves(s, x), h) { assert HandleOk(s, h); }
  }

  lemma CloseReturnsInv(s: State)
    requires Inv(s)
    ensures Inv(CloseReturns(s))
  {}

  lemma AllocateInv(s: State)
    requires Inv(s) && s.nextHandle + 1 < Reactor.HANDLE_LIMIT
    ensures Inv(Allocate(s))
  {
    forall h ensures HandleOk(Allocate(s), h) { assert HandleOk(s, h); }
  }

  lemma BaseInv(s: State, b: Base)
    requires Inv(s) && b.closed == s.base.closed
    requires forall op | Holds(s.base, op, Create) :: Holds(b, op, Create)
    ensures Inv(s.(base := b))
  {
    forall h ensures HandleOk(s.(base := b), h) { assert HandleOk(s, h); }
  }

  // ---------------------------------------------------------------- runs

  lemma CreateReady(s: State)
    requires Inv(s)
    ensures s.base.closed ==> s.creates == map[] && s.backlog == map[] && s.listeners == map[] && s.datagrams == map[]
    ensures s.next !in s.workers
  {
    NextIsNew(s);
  }

  lemma ForgetKeeps(s: State, op: OpId)
    ensures Forget(s, op).nextHandle == s.nextHandle && Forget(s, op).base.closed == s.base.closed
    ensures Forget(s, op).workers == s.workers && Forget(s, op).next == s.next && Forget(s, op).place == s.place
  {}

  lemma FinishCreateInv(s: State, x: Serial, got: bool, failed: bool)
    requires Inv(s)
    ensures Inv(FinishCreate(s, x, got, failed))
  {
    hide Inv, Complete, Discard;
    if x in s.workers && s.workers[x].Creating? {
      var op := s.workers[x].op;
      if op in s.creates && s.creates[op].worker == x { CompleteInv(s, x, op, got, failed); } else { DiscardInv(s, x, got); }
    }
  }

  lemma AbandonInv(s: State, op: OpId)
    requires Inv(s) && op in s.creates
    ensures Inv(Abandon(s, op))
  {
    ForgetInv(s, op);
    hide Inv, InvBut, Forget, TakeOne;
    if s.creates[op].resource.Some? { TakeOneInv(Forget(s, op), s.creates[op].resource.value); }
  }

  lemma AdoptInv(s: State, op: OpId)
    requires Inv(s) && s.nextHandle + 1 < Reactor.HANDLE_LIMIT && op in s.creates && s.creates[op].resource.Some?
    ensures Inv(Adopt(s, op))
  {
    CreateReady(s);
    ForgetInv(s, op);
    ForgetKeeps(s, op);
    hide Inv, InvBut, Forget, Connect, Listen, Bind;
    var k, u := s.creates[op].resource.value, Forget(s, op);
    match s.creates[op].kind
    case TcpConnect => ConnectInv(u, k);
    case TcpListen => ListenInv(u, k);
    case UdpBind => BindInv(u, k);
  }

  lemma TakeCreateInv(s: State, op: OpId, kind: CreateKind)
    requires Inv(s) && s.nextHandle + 1 < Reactor.HANDLE_LIMIT
    ensures Inv(TakeCreate(s, op, kind)) && Inv(CancelCreate(s, op))
  {
    hide Inv, Abandon, Adopt;
    if op in s.creates {
      AbandonInv(s, op);
      if s.creates[op].resource.Some? { AdoptInv(s, op); }
    }
  }

  lemma FinishAcceptInv(s: State, x: Serial, got: bool, failed: bool)
    requires Inv(s)
    ensures Inv(FinishAccept(s, x, got, failed))
  {
    hide Inv, Arrive, Discard;
    if x in s.workers && s.workers[x].Accepting? {
      var h := s.workers[x].handle;
      if h in s.listeners && s.listeners[h] == s.workers[x].listener && h in s.backlog {
        ArriveInv(s, x, h, got, failed);
      } else {
        DiscardInv(s, x, got);
      }
    }
  }

  lemma TakeAcceptInv(s: State, h: Handle)
    requires Inv(s) && s.nextHandle + 1 < Reactor.HANDLE_LIMIT
    ensures Inv(TakeAccept(s, h))
  {
    CreateReady(s);
    NamedByHandle(s, h);
    hide Inv, InvBut, Connect;
    if h in s.backlog && s.backlog[h] != [] {
      PopInv(s, h);
      ConnectInv(Pop(s, h), s.backlog[h][0]);
    }
  }

  lemma CloseHandleInv(s: State, h: Handle)
    requires Inv(s)
    ensures Inv(CloseHandle(s, h))
  {
    CreateReady(s);
    NamedByHandle(s, h);
    hide Inv, InvBut, TakeOne, CloseListener, Drain;
    if h in s.streams {
      DropStreamInv(s, h);
      TakeOneInv(DropStream(s, h), s.streams[h]);
    } else if h in s.datagrams {
      DropDatagramInv(s, h);
      DrainInv(DropDatagram(s, h), s.datagrams[h]);
    } else if h in s.listeners && h in s.backlog {
      CloseListenerInv(s, h);
    }
  }

  // The steps of the program's own calls; the others are steps of its threads.
  predicate IsCall(e: Step) {
    e.DoBeginCreate? || e.DoTakeCreate? || e.DoCancelCreate? || e.DoStartAccept? || e.DoTakeAccept? || e.DoCloseHandle?
    || e.DoCloseAll? || e.DoAllocate?
  }

  lemma CallInv(s: State, e: Step)
    requires Inv(s) && s.nextHandle + 1 < Reactor.HANDLE_LIMIT && IsCall(e)
    ensures Inv(Act(s, e))
  {
    hide Inv, BeginCreate, TakeCreate, CancelCreate, StartAccept, TakeAccept, CloseHandle, Allocate, CloseAll;
    match e
    case DoBeginCreate(op, kind) => BeginCreateInv(s, op, kind);
    case DoTakeCreate(op, kind) => TakeCreateInv(s, op, kind);
    case DoCancelCreate(op) => TakeCreateInv(s, op, TcpConnect);
    case DoStartAccept(h) => StartAcceptInv(s, h);
    case DoTakeAccept(h) => TakeAcceptInv(s, h);
    case DoCloseHandle(h) => CloseHandleInv(s, h);
    case DoAllocate => AllocateInv(s);
    case DoCloseAll => CloseAllInv(s);
  }

  lemma ThreadInv(s: State, e: Step)
    requires Inv(s) && !IsCall(e)
    ensures Inv(Act(s, e))
  {
    hide Inv, FinishCreate, FinishAccept, SendCloses, SendLeaves, PayClose, WorkerLeaves, StartOther, CloseReturns;
    match e
    case DoFinishCreate(x, got, failed) => FinishCreateInv(s, x, got, failed);
    case DoFinishAccept(x, got, failed) => FinishAcceptInv(s, x, got, failed);
    case DoSendCloses(x) => SendClosesInv(s, x);
    case DoSendLeaves(x) => SendLeavesInv(s, x);
    case DoPayClose(k) => PayCloseInv(s, k);
    case DoWorkerLeaves(x) => WorkerLeavesInv(s, x);
    case DoStartOther => StartOtherInv(s);
    case DoCloseReturns => CloseReturnsInv(s);
    case DoSignal => BaseInv(s, Pay(s.base));
    case Other(ops, promised) => OtherInv(s, ops, promised);
  }

  lemma InterfereHolds(b: Base, ops: map<OpId, Kind>, promised: nat)
    ensures var c := Interfere(Create, b, ops, promised);
      c.closed == b.closed && forall op | Holds(b, op, Create) :: Holds(c, op, Create)
  {}

  lemma OtherInv(s: State, ops: map<OpId, Kind>, promised: nat)
    requires Inv(s)
    ensures Inv(Act(s, Other(ops, promised)))
  {
    hide Inv, Interfere, Holds;
    InterfereHolds(s.base, ops, promised);
    BaseInv(s, Interfere(Create, s.base, ops, promised));
  }

  lemma ActInv(s: State, e: Step)
    requires Inv(s) && s.nextHandle + 1 < Reactor.HANDLE_LIMIT
    ensures Inv(Act(s, e))
  {
    if IsCall(e) { CallInv(s, e); } else { ThreadInv(s, e); }
    hide Inv, Act;
  }

  // A run that hands out fewer handles than there are.
  ghost predicate Within(es: seq<Step>) {
    |es| < Reactor.HANDLE_LIMIT - Reactor.FIRST_HANDLE
  }

  lemma {:induction false} RunInv(es: seq<Step>)
    requires Within(es)
    ensures Inv(Run(es)) && Run(es).nextHandle <= Reactor.FIRST_HANDLE + |es|
  {
    if es != [] {
      var before := es[..|es| - 1];
      RunInv(before);
      ActInv(Run(before), es[|es| - 1]);
    }
  }

  // ---------------------------------------------------------------- which sockets there are

  // The socket a step brings in from outside.
  function Arrival(s: State, e: Step): Option<Socket> {
    match e
    case DoFinishCreate(x, got, _) => if got && x in s.workers && s.workers[x].Creating? then Some(s.next) else None
    case DoFinishAccept(x, got, _) => if got && x in s.workers && s.workers[x].Accepting? then Some(s.next) else None
    case _ => None
  }

  // Accept returned a connection together with an error, and its listener is still there.
  predicate Leaks(s: State, e: Step) {
    && e.DoFinishAccept? && e.got && e.failed
    && e.worker in s.workers && s.workers[e.worker].Accepting?
    && var h := s.workers[e.worker].handle; h in s.backlog && h in s.listeners && s.listeners[h] == s.workers[e.worker].listener
  }

  /** Every socket that the factory and Accept returned over the run. */
  ghost function Made(es: seq<Step>): set<Socket> {
    if es == [] then {} else
      var s := Run(es[..|es| - 1]);
      var e := es[|es| - 1];
      Made(es[..|es| - 1]) + (if Arrival(s, e).Some? then {Arrival(s, e).value} else {})
  }

  /** Those that came together with an error from a listener still in use. */
  ghost function Leaked(es: seq<Step>): set<Socket> {
    if es == [] then {} else
      var s := Run(es[..|es| - 1]);
      var e := es[|es| - 1];
      Leaked(es[..|es| - 1]) + (if Leaks(s, e) then {s.next} else {})
  }

  // Neither adds nor drops the socket.
  predicate Same(s: State, t: State, k: Socket) {
    && (k in t.place <==> k in s.place)
    && (In(t, k, Dropped) <==> In(s, k, Dropped))
  }

  ghost predicate Known(s: State, k: Socket) {
    k in s.place && s.place[k] != Dropped
  }

  lemma TakeSame(s: State, k0: Socket, k: Socket)
    requires Known(s, k0)
    ensures Same(s, TakeOne(s, k0, ByCall), k)
  {}

  lemma DrainSame(s: State, k0: Socket, k: Socket)
    requires Known(s, k0)
    ensures Same(s, Drain(s, k0), k)
  {}

  lemma ConnectSame(s: State, k0: Socket, k: Socket)
    requires Known(s, k0)
    ensures Same(s, Connect(s, k0), k)
  {}

  lemma ListenSame(s: State, k0: Socket, k: Socket)
    requires Known(s, k0)
    ensures Same(s, Listen(s, k0), k)
  {}

  lemma BindSame(s: State, k0: Socket, k: Socket)
    requires Known(s, k0)
    ensures Same(s, Bind(s, k0), k)
  {}

  lemma MoveSame(s: State, k0: Socket, k: Socket)
    requires Known(s, k0)
    ensures Same(s, TakeOne(s, k0, ByCall), k) && Same(s, Drain(s, k0), k)
    ensures Same(s, Connect(s, k0), k) && Same(s, Listen(s, k0), k) && Same(s, Bind(s, k0), k)
  {
    hide Same, TakeOne, Drain, Connect, Listen, Bind;
    TakeSame(s, k0, k);
    DrainSame(s, k0, k);
    ConnectSame(s, k0, k);
    ListenSame(s, k0, k);
    BindSame(s, k0, k);
  }

  lemma AbandonSame(s: State, op: OpId, k: Socket)
    requires op in s.creates && OpOk(s, op)
    ensures Same(s, Abandon(s, op), k)
  {
    ForgetKeeps(s, op);
    if s.creates[op].resource.Some? { TakeSame(Forget(s, op), s.creates[op].resource.value, k); }
    hide Forget, TakeOne;
  }

  lemma AdoptSame(s: State, op: OpId, k: Socket)
    requires op in s.creates && OpOk(s, op) && s.creates[op].resource.Some?
    ensures Same(s, Adopt(s, op), k)
  {
    ForgetKeeps(s, op);
    MoveSame(Forget(s, op), s.creates[op].resource.value, k);
    hide Forget, TakeOne, Connect, Listen, Bind, Drain;
  }

  lemma CreateSame(s: State, op: OpId, kind: CreateKind, k: Socket)
    requires Inv(s)
    ensures Same(s, TakeCreate(s, op, kind), k) && Same(s, CancelCreate(s, op), k)
  {
    Unchanged(s, k);
    if op in s.creates {
      assert OpOk(s, op);
      AbandonSame(s, op, k);
      if s.creates[op].resource.Some? { AdoptSame(s, op, k); }
    }
    hide Inv, Same, Abandon, Adopt;
  }

  lemma AcceptSame(s: State, h: Handle, k: Socket)
    requires Inv(s)
    ensures Same(s, TakeAccept(s, h), k)
  {
    NamedByHandle(s, h);
    hide Inv, Connect, TakeOne, Drain, Listen, Bind;
    if h in s.backlog && s.backlog[h] != [] { MoveSame(Pop(s, h), s.backlog[h][0], k); }
  }

  lemma CloseListenerSame(s: State, h: Handle, k: Socket)
    requires HandleOk(s, h) && h in s.listeners && h in s.backlog
    ensures Same(s, CloseListener(s, h), k)
  {}

  lemma CloseStreamSame(s: State, h: Handle, k: Socket)
    requires h in s.streams && Known(s, s.streams[h])
    ensures Same(s, CloseStream(s, h), k)
  {}

  lemma CloseDatagramSame(s: State, h: Handle, k: Socket)
    requires h in s.datagrams && Known(s, s.datagrams[h])
    ensures Same(s, CloseDatagram(s, h), k)
  {}

  lemma CloseHandleSame(s: State, h: Handle, k: Socket)
    requires Inv(s)
    ensures Same(s, CloseHandle(s, h), k)
  {
    NamedByHandle(s, h);
    assert HandleOk(s, h);
    hide Inv, Same, CloseStream, CloseDatagram, CloseListener;
    if h in s.streams {
      CloseStreamSame(s, h, k);
    } else if h in s.datagrams {
      CloseDatagramSame(s, h, k);
    } else if h in s.listeners && h in s.backlog {
      CloseListenerSame(s, h, k);
    } else {
      Unchanged(s, k);
    }
  }

  lemma Unchanged(s: State, k: Socket)
    ensures Same(s, s, k)
  {}

  lemma SendClosesSame(s: State, x: Serial, k: Socket)
    requires x in s.workers ==> WorkerOk(s, x)
    requires x in s.workers && s.workers[x].SendingOn? && s.workers[x].socket in s.place ==> SocketOk(s, s.workers[x].socket)
    ensures Same(s, SendCloses(s, x), k)
  {}

  lemma PayCloseSame(s: State, k0: Socket, k: Socket)
    requires Shape(s)
    ensures Same(s, PayClose(s, k0), k)
  {}

  lemma ClosingSame(s: State, x: Serial, k0: Socket, k: Socket)
    requires Inv(s)
    ensures Same(s, SendCloses(s, x), k) && Same(s, PayClose(s, k0), k)
  {
    SenderOk(s, x);
    hide Same, SendCloses, PayClose;
    SendClosesSame(s, x, k);
    PayCloseSame(s, k0, k);
  }

  lemma CloseAllSame(s: State, k: Socket)
    requires Inv(s)
    ensures Same(s, CloseAll(s), k)
  {
    HeldPlaces(s);
    hide Inv, Held;
  }

  // A step of a worker that returns from the factory or from Accept.
  // Adds the next socket, if one came, in use.
  predicate Grown(s: State, t: State, got: bool, k: Socket) {
    && (k in t.place <==> k in s.place || (got && k == s.next))
    && (In(t, k, Dropped) <==> In(s, k, Dropped))
  }

  lemma DiscardArrives(s: State, x: Serial, got: bool, k: Socket)
    requires s.next !in s.place
    ensures Grown(s, Discard(s, x, got), got, k)
  {}

  lemma CompleteArrives(s: State, x: Serial, op: OpId, got: bool, failed: bool, k: Socket)
    requires s.next !in s.place && op in s.creates
    ensures Grown(s, Complete(s, x, op, got, failed), got, k)
  {}

  lemma ArriveArrives(s: State, x: Serial, h: Handle, got: bool, failed: bool, k: Socket)
    requires s.next !in s.place && h in s.backlog
    ensures var t := Arrive(s, x, h, got, failed);
            && (k in t.place <==> k in s.place || (got && k == s.next))
            && (In(t, k, Dropped) <==> In(s, k, Dropped) || (got && failed && k == s.next))
  {}

  lemma CreateArrives(s: State, x: Serial, got: bool, failed: bool, k: Socket)
    requires s.next !in s.place
    ensures Grown(s, FinishCreate(s, x, got, failed), Arrival(s, DoFinishCreate(x, got, failed)).Some?, k)
  {
    hide Discard, Complete;
    if x in s.workers && s.workers[x].Creating? {
      DiscardArrives(s, x, got, k);
      if s.workers[x].op in s.creates { CompleteArrives(s, x, s.workers[x].op, got, failed, k); }
    }
  }

  lemma AcceptArrives(s: State, x: Serial, got: bool, failed: bool, k: Socket)
    requires s.next !in s.place
    ensures var t, e := FinishAccept(s, x, got, failed), DoFinishAccept(x, got, failed);
            && (k in t.place <==> k in s.place || (Arrival(s, e).Some? && k == s.next))
            && (In(t, k, Dropped) <==> In(s, k, Dropped) || (Leaks(s, e) && k == s.next))
  {
    hide Discard, Arrive;
    if x in s.workers && s.workers[x].Accepting? {
      DiscardArrives(s, x, got, k);
      if s.workers[x].handle in s.backlog { ArriveArrives(s, x, s.workers[x].handle, got, failed, k); }
    }
  }

  lemma CallSame(s: State, e: Step, k: Socket)
    requires Inv(s) && IsCall(e)
    ensures Same(s, Act(s, e), k)
  {
    hide Inv, BeginCreate, TakeCreate, CancelCreate, StartAccept, TakeAccept, CloseHandle, Allocate, CloseAll;
    match e
    case DoTakeCreate(op, kind) => CreateSame(s, op, kind, k);
    case DoCancelCreate(op) => CreateSame(s, op, TcpConnect, k);
    case DoTakeAccept(h) => AcceptSame(s, h, k);
    case DoCloseHandle(h) => CloseHandleSame(s, h, k);
    case DoCloseAll => CloseAllSame(s, k);
    case _ =>
  }

  lemma OtherSame(s: State, e: Step, k: Socket)
    requires Inv(s) && !e.DoFinishCreate? && !e.DoFinishAccept?
    ensures Same(s, Act(s, e), k)
  {
    hide Inv, SendCloses, SendLeaves, PayClose, WorkerLeaves, StartOther, CloseReturns;
    if IsCall(e) {
      CallSame(s, e, k);
      hide Act;
    } else {
      match e
      case DoSendCloses(x) => ClosingSame(s, x, 0, k);
      case DoPayClose(k0) => ClosingSame(s, 0, k0, k);
      case _ =>
    }
  }

  lemma ActPlaces(s: State, e: Step, k: Socket)
    requires Inv(s)
    ensures k in Act(s, e).place <==> k in s.place || Arrival(s, e) == Some(k)
    ensures In(Act(s, e), k, Dropped) <==> In(s, k, Dropped) || (Leaks(s, e) && k == s.next)
  {
    NextIsNew(s);
    hide Inv, FinishCreate, FinishAccept;
    match e
    case DoFinishCreate(x, got, failed) => CreateArrives(s, x, got, failed, k);
    case DoFinishAccept(x, got, failed) => AcceptArrives(s, x, got, failed, k);
    case _ =>
      OtherSame(s, e, k);
      hide Act;
  }

  lemma {:induction false} RunPlaces(es: seq<Step>, k: Socket)
    requires Within(es)
    ensures k in Run(es).place <==> k in Made(es)
    ensures In(Run(es), k, Dropped) <==> k in Leaked(es)
  {
    if es != [] {
      var before := es[..|es| - 1];
      RunInv(before);
      RunPlaces(before, k);
      ActPlaces(Run(before), es[|es| - 1], k);
      hide Inv, Act, In, Arrival, Leaks;
    }
  }

  // ---------------------------------------------------------------- main results

  /** After any run every socket that came in is at exactly one place, and no other socket
      is anywhere. */
  lemma OneOwner(es: seq<Step>, k: Socket)
    requires Within(es)
    ensures k in Made(es) ==> exists p :: At(Run(es), k, p) && forall q | At(Run(es), k, q) :: q == p
    ensures k !in Made(es) ==> forall q :: !At(Run(es), k, q)
  {
    RunInv(es);
    RunPlaces(es, k);
    OnePlace(Run(es), k);
  }

  lemma OnePlace(s: State, k: Socket)
    requires Inv(s)
    ensures k in s.place ==> At(s, k, s.place[k])
    ensures forall q | At(s, k, q) :: k in s.place && q == s.place[k]
  {
    assert k in s.place ==> SocketOk(s, k);
    forall q | At(s, k, q) ensures k in s.place && q == s.place[k] {
      match q
      case InCreate(op) => assert OpOk(s, op);
      case AtStream(h) => assert HandleOk(s, h);
      case AtDatagram(h) => assert HandleOk(s, h);
      case AtListener(h) => assert HandleOk(s, h);
      case InBacklog(h) => assert HandleOk(s, h);
      case _ =>
    }
  }

  // The socket a handle names, in whichever of the three tables.
  function Named(s: State, h: Handle): Option<Socket> {
    if h in s.streams then Some(s.streams[h])
    else if h in s.datagrams then Some(s.datagrams[h])
    else if h in s.listeners then Some(s.listeners[h])
    else None
  }

  /** While a handle is in a table its socket has not been closed and nobody is about to
      close it; a handle is in one table only, and no two handles share a socket. */
  lemma HandleSocketIsOpen(es: seq<Step>, h: Handle, g: Handle)
    requires Within(es)
    ensures var s := Run(es); Named(s, h).Some? ==> Named(s, h).value !in s.shut && Named(s, h).value !in s.owed
    ensures var s := Run(es); Named(s, h).Some? && Named(s, g) == Named(s, h) ==> g == h
    ensures var s := Run(es); !(h in s.streams && h in s.datagrams) && !(h in s.streams && h in s.listeners)
                              && !(h in s.datagrams && h in s.listeners)
  {
    var s := Run(es);
    RunInv(es);
    assert HandleOk(s, h) && HandleOk(s, g);
    if Named(s, h).Some? { assert SocketOk(s, Named(s, h).value); }
    hide Run;
  }

  /** Once Close has returned and no other call is still closing anything, no worker is
      alive, and a socket is closed exactly when it was not returned by Accept together
      with an error. */
  lemma CloseReleasesEverything(es: seq<Step>)
    requires Within(es) && Run(es).returned
    requires forall k | k in Run(es).owed :: Run(es).owed[k] != ByCall
    ensures Run(es).workers == map[]
    ensures forall k | k in Made(es) :: k in Run(es).shut <==> k !in Leaked(es)
  {
    var s := Run(es);
    RunInv(es);
    assert Shape(s);
    forall k | k in Made(es) ensures k in s.shut <==> k !in Leaked(es) {
      RunPlaces(es, k);
      assert SocketOk(s, k);
    }
  }

  /** With sockets whose Accept returns either a connection or an error, nothing leaks. */
  lemma {:induction false} NothingLeaks(es: seq<Step>)
    requires forall e | e in es && e.DoFinishAccept? :: !(e.got && e.failed)
    ensures Leaked(es) == {}
  {
    if es != [] {
      assert es[|es| - 1] in es;
      NothingLeaks(es[..|es| - 1]);
    }
  }

  lemma RunSnoc(es: seq<Step>, e: Step)
    ensures Run(es + [e]) == Act(Run(es), e)
  {
    assert (es + [e])[..|es|] == es;
  }

  lemma RunTo(es: seq<Step>, e: Step, s: State, t: State)
    requires Run(es) == s && Act(s, e) == t
    ensures Run(es + [e]) == t
  {
    RunSnoc(es, e);
  }

  // A listener accepts once, and its Accept returns connection 3 together with an error.
  const H1 := Reactor.FIRST_HANDLE + 1
  const BEGUN := Init.(base := Core.Fresh.(operations := map[0 := Create]),
                       creates := map[0 := CreateOp(0, TcpListen, false, None, false)], workers := map[0 := Creating(0)], next := 1)
  const MADE := BEGUN.(base := BEGUN.base.(owes := 1), creates := map[0 := CreateOp(0, TcpListen, true, Some(1), false)],
                       workers := map[], next := 2, place := map[1 := InCreate(0)])
  const LISTENING := MADE.(nextHandle := H1, base := Core.Fresh.(owes := 1), creates := map[],
                           listeners := map[H1 := 1], backlog := map[H1 := []], place := map[1 := AtListener(H1)])
  const WAITING := LISTENING.(workers := map[2 := Accepting(H1, 1)], next := 3)
  const LOST := WAITING.(base := Core.Fresh.(owes := 2), workers := map[], next := 4,
                         place := map[1 := AtListener(H1), 3 := Dropped])
  const SHUTTING := LOST.(base := Core.Fresh.(closed := true, owes := 2), listeners := map[], backlog := map[],
                          owed := map[1 := ByClose], place := map[1 := Owed(ByClose), 3 := Dropped])
  const DONE := SHUTTING.(owed := map[], shut := {1}, place := map[1 := Closed, 3 := Dropped])

  lemma BeginningState()
    ensures Act(Init, DoBeginCreate(0, TcpListen)) == BEGUN
  {}

  lemma MakingState()
    ensures Act(BEGUN, DoFinishCreate(0, true, false)) == MADE
  {}

  lemma ListeningState()
    ensures Act(MADE, DoTakeCreate(0, TcpListen)) == LISTENING
  {}

  lemma AcceptingStates()
    ensures Act(LISTENING, DoStartAccept(H1)) == WAITING
    ensures Act(WAITING, DoFinishAccept(2, true, true)) == LOST
  {}

  lemma LostHolds()
    ensures Held(LOST) == {1}
  {
    assert H1 in LOST.listeners && LOST.listeners[H1] == 1;
    assert forall h | h in LOST.backlog :: LOST.backlog[h] == [];
    assert LOST.listeners.Values == {1} && LOST.streams.Values == {} && LOST.datagrams.Values == {};
  }

  lemma ClosingState()
    ensures Act(LOST, DoCloseAll) == SHUTTING
  {
    LostHolds();
    LostTaken();
    hide Held, Take;
  }

  lemma LostTaken()
    ensures var t := LOST.(base := LOST.base.(closed := true, operations := map[]), creates := map[], streams := map[],
                           datagrams := map[], listeners := map[], backlog := map[], draining := {});
            Take(t, {1}, ByClose) == SHUTTING
  {}

  lemma PayingState()
    ensures Act(SHUTTING, DoPayClose(1)) == DONE
  {}

  lemma ReturningState()
    ensures Act(DONE, DoCloseReturns) == DONE.(returned := true)
  {}

  /** The connection of a listener that reports an error beside it is never closed, even
      when Close has returned and nothing is left to do. */
  lemma AcceptWithErrorLeaks()
    ensures exists es | Within(es) :: Run(es).returned && Run(es).owed == map[] && 3 in Run(es).place && 3 !in Run(es).shut
  {
    hide Act;
    BeginningState();
    MakingState();
    ListeningState();
    AcceptingStates();
    ClosingState();
    PayingState();
    ReturningState();
    var es := [];
    RunTo(es, DoBeginCreate(0, TcpListen), Init, BEGUN);
    hide Run, BEGUN, MADE, LISTENING, WAITING, LOST, SHUTTING;
    es := es + [DoBeginCreate(0, TcpListen)];
    RunTo(es, DoFinishCreate(0, true, false), BEGUN, MADE);
    es := es + [DoFinishCreate(0, true, false)];
    RunTo(es, DoTakeCreate(0, TcpListen), MADE, LISTENING);
    es := es + [DoTakeCreate(0, TcpListen)];
    RunTo(es, DoStartAccept(H1), LISTENING, WAITING);
    es := es + [DoStartAccept(H1)];
    RunTo(es, DoFinishAccept(2, true, true), WAITING, LOST);
    es := es + [DoFinishAccept(2, true, true)];
    RunTo(es, DoCloseAll, LOST, SHUTTING);
    es := es + [DoCloseAll];
    RunTo(es, DoPayClose(1), SHUTTING, DONE);
    es := es + [DoPayClose(1)];
    RunTo(es, DoCloseReturns, DONE, DONE.(returned := true));
    es := es + [DoCloseReturns];
    assert Within(es);
  }
}

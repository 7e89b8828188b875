/** The table of pending operations: ten kinds of operation, one map each, under one
    table of claimed ids; and the workers that answer to a claim (internal/reactor/
    reactor.go, factory.go, dns.go, management.go, environment.go). */
module OperationTable {
  import opened Core

  /** The ten maps of the reactor, from operation id to the object that serves it. */
  datatype Tables = Tables(
    reads_: map<OpId, Serial>,
    writes: map<OpId, Serial>,
    udpReads: map<OpId, Serial>,
    udpWrites: map<OpId, Serial>,
    accepts: map<OpId, Serial>,
    creates: map<OpId, Serial>,
    dns: map<OpId, Serial>,
    environments: map<OpId, Serial>,
    packetWrites: map<OpId, Serial>,
    management: map<OpId, Serial>)

  const NoTables := Tables(map[], map[], map[], map[], map[], map[], map[], map[], map[], map[])

  function Of(t: Tables, kind: Kind): map<OpId, Serial> {
    match kind
    case Read => t.reads_
    case Write => t.writes
    case UdpRead => t.udpReads
    case UdpWrite => t.udpWrites
    case Create => t.creates
    case Accept => t.accepts
    case Dns => t.dns
    case Environment => t.environments
    case PacketWrite => t.packetWrites
    case Management => t.management
  }

  function With(t: Tables, kind: Kind, m: map<OpId, Serial>): Tables {
    match kind
    case Read => t.(reads_ := m)
    case Write => t.(writes := m)
    case UdpRead => t.(udpReads := m)
    case UdpWrite => t.(udpWrites := m)
    case Create => t.(creates := m)
    case Accept => t.(accepts := m)
    case Dns => t.(dns := m)
    case Environment => t.(environments := m)
    case PacketWrite => t.(packetWrites := m)
    case Management => t.(management := m)
  }

  // The kinds whose every operation starts a worker of its own.
  predicate OwnWorker(kind: Kind) {
    kind.Create? || kind.Dns? || kind.Environment? || kind.Management?
  }

  // What such a worker brings back.
  datatype Answer = Good(value: nat) | Bad(error: nat)

  datatype Job = Job(kind: Kind, op: OpId)

  /** `results` holds the answers stored in operation objects.  `claims` records which
      operation every object was made for, `reported` what every worker brought back, and
      `seen` the operations that had an answer when a completion token was last received. */
  datatype State = State(
    base: Base,
    tables: Tables,
    next: Serial,
    workers: map<Serial, Job>,
    results: map<Serial, Answer>,
    claims: map<Serial, Job>,
    reported: map<Serial, Answer>,
    seen: set<OpId>)

  const Init := State(Core.Fresh, NoTables, 0, map[], map[], map[], map[], {})

  // ---------------------------------------------------------------- one kind at a time, for any kind

  function Begin(s: State, kind: Kind, op: OpId): (State, Option<CallError>) {
    match Claim(s.base, op, kind)
    case None => (s, Some(Invalid))
    case Some(b) =>
      (s.(base := b,
          tables := With(s.tables, kind, Of(s.tables, kind)[op := s.next]),
          next := s.next + 1,
          claims := s.claims[s.next := Job(kind, op)],
          workers := if OwnWorker(kind) then s.workers[s.next := Job(kind, op)] else s.workers), None)
  }

  // The critical section that ends a worker: its object is still the one in the map, or
  // the answer is dropped.
  function Complete(s: State, x: Serial, a: Answer): State {
    if x !in s.workers then s
    else
      var Job(kind, op) := s.workers[x];
      var t := s.(workers := s.workers - {x}, reported := s.reported[x := a]);
      if op in Of(s.tables, kind) && Of(s.tables, kind)[op] == x
      then t.(results := s.results[x := a], base := Owe(s.base, true))
      else t
  }

  function Forget(s: State, kind: Kind, op: OpId): State {
    s.(tables := With(s.tables, kind, Of(s.tables, kind) - {op}), base := Release(s.base, op, kind))
  }

  predicate Pending_(s: State, kind: Kind, op: OpId) {
    op in Of(s.tables, kind) && Holds(s.base, op, kind)
  }

  datatype Reply = Failed(error: CallError) | Replied(answer: Answer)

  function Look(s: State, kind: Kind, op: OpId): Reply {
    if !Pending_(s, kind, op) then Failed(Invalid)
    else if Of(s.tables, kind)[op] !in s.results then Failed(Pending)
    else Replied(s.results[Of(s.tables, kind)[op]])
  }

  // The one-phase takes: TakeTCPConnect, TakeUDPBind, TakeTCPListen, TakeLocalAddrForRemote.
  function TakeAnswer(s: State, kind: Kind, op: OpId): (State, Reply) {
    if Look(s, kind, op).Replied? then (Forget(s, kind, op), Look(s, kind, op)) else (s, Look(s, kind, op))
  }

  // DNSResult consumes an error at once; DNSResult and ManagementResult leave the rest.
  function PeekAnswer(s: State, kind: Kind, op: OpId): (State, Reply) {
    if kind.Dns? && Look(s, kind, op).Replied? && Look(s, kind, op).answer.Bad?
    then (Forget(s, kind, op), Look(s, kind, op))
    else (s, Look(s, kind, op))
  }

  // FinishDNS and FinishManagement
  function FinishAnswer(s: State, kind: Kind, op: OpId): (State, Option<CallError>) {
    if Look(s, kind, op).Replied? then (Forget(s, kind, op), None) else (s, Some(Invalid))
  }

  // CancelOperation, as far as the tables are concerned.
  function Cancel(s: State, op: OpId): State {
    if op !in s.base.operations then s else Forget(s, s.base.operations[op], op)
  }

  function CloseAll(s: State): State {
    if s.base.closed then s
    else s.(base := s.base.(closed := true, operations := map[]), tables := NoTables)
  }

  // ---------------------------------------------------------------- the call sites, each with its own map and kind

  // A new object, made for the operation.
  function Opened(s: State, job: Job): State {
    s.(next := s.next + 1, claims := s.claims[s.next := job])
  }

  function StartRead(s: State, op: OpId): State {
    match Claim(s.base, op, Kind.Read)
    case None => s
    case Some(b) => Opened(s.(base := b, tables := s.tables.(reads_ := s.tables.reads_[op := s.next])), Job(Kind.Read, op))
  }

  function StartWrite(s: State, op: OpId): State {
    match Claim(s.base, op, Kind.Write)
    case None => s
    case Some(b) => Opened(s.(base := b, tables := s.tables.(writes := s.tables.writes[op := s.next])), Job(Kind.Write, op))
  }

  function StartUdpReceive(s: State, op: OpId): State {
    match Claim(s.base, op, Kind.UdpRead)
    case None => s
    case Some(b) => Opened(s.(base := b, tables := s.tables.(udpReads := s.tables.udpReads[op := s.next])), Job(Kind.UdpRead, op))
  }

  function StartUdpSendReady(s: State, op: OpId): State {
    match Claim(s.base, op, Kind.UdpWrite)
    case None => s
    case Some(b) => Opened(s.(base := b, tables := s.tables.(udpWrites := s.tables.udpWrites[op := s.next])), Job(Kind.UdpWrite, op))
  }

  function StartTcpAccept(s: State, op: OpId): State {
    match Claim(s.base, op, Kind.Accept)
    case None => s
    case Some(b) => Opened(s.(base := b, tables := s.tables.(accepts := s.tables.accepts[op := s.next])), Job(Kind.Accept, op))
  }

  function StartPacketWriteReady(s: State, op: OpId): State {
    match Claim(s.base, op, Kind.PacketWrite)
    case None => s
    case Some(b) => Opened(s.(base := b, tables := s.tables.(packetWrites := s.tables.packetWrites[op := s.next])), Job(Kind.PacketWrite, op))
  }

  function BeginCreate(s: State, op: OpId): State {
    match Claim(s.base, op, Kind.Create)
    case None => s
    case Some(b) =>
      Opened(s.(base := b, tables := s.tables.(creates := s.tables.creates[op := s.next]), workers := s.workers[s.next := Job(Kind.Create, op)]),
             Job(Kind.Create, op))
  }

  function StartDns(s: State, op: OpId): State {
    match Claim(s.base, op, Kind.Dns)
    case None => s
    case Some(b) =>
      Opened(s.(base := b, tables := s.tables.(dns := s.tables.dns[op := s.next]), workers := s.workers[s.next := Job(Kind.Dns, op)]),
             Job(Kind.Dns, op))
  }

  function StartLocalAddr(s: State, op: OpId): State {
    match Claim(s.base, op, Kind.Environment)
    case None => s
    case Some(b) =>
      Opened(s.(base := b, tables := s.tables.(environments := s.tables.environments[op := s.next]), workers := s.workers[s.next := Job(Kind.Environment, op)]),
             Job(Kind.Environment, op))
  }

  function StartManagement(s: State, op: OpId): State {
    match Claim(s.base, op, Kind.Management)
    case None => s
    case Some(b) =>
      Opened(s.(base := b, tables := s.tables.(management := s.tables.management[op := s.next]), workers := s.workers[s.next := Job(Kind.Management, op)]),
             Job(Kind.Management, op))
  }

  // A worker ends; its answer goes into its object if that is the one in the map.
  function Report(s: State, x: Serial, a: Answer, current: bool): State {
    var t := s.(workers := s.workers - {x}, reported := s.reported[x := a]);
    if current then t.(results := s.results[x := a], base := Owe(s.base, true)) else t
  }

  function FinishCreateWorker(s: State, x: Serial, op: OpId, a: Answer): State {
    if x !in s.workers || s.workers[x] != Job(Kind.Create, op) then s
    else Report(s, x, a, op in s.tables.creates && s.tables.creates[op] == x)
  }

  function FinishDnsWorker(s: State, x: Serial, op: OpId, a: Answer): State {
    if x !in s.workers || s.workers[x] != Job(Kind.Dns, op) then s
    else Report(s, x, a, op in s.tables.dns && s.tables.dns[op] == x)
  }

  function FinishLocalAddrWorker(s: State, x: Serial, op: OpId, a: Answer): State {
    if x !in s.workers || s.workers[x] != Job(Kind.Environment, op) then s
    else Report(s, x, a, op in s.tables.environments && s.tables.environments[op] == x)
  }

  function FinishManagementWorker(s: State, x: Serial, op: OpId, a: Answer): State {
    if x !in s.workers || s.workers[x] != Job(Kind.Management, op) then s
    else Report(s, x, a, op in s.tables.management && s.tables.management[op] == x)
  }

  // Where a take leaves off: still pending, or removing its waiter because the handle is
  // gone, an error is stored or data is there.
  datatype Exit = StillPending | HandleGone | StoredError | HasData

  function TakeRead(s: State, op: OpId, ready: bool): State {
    if op !in s.tables.reads_ || !Holds(s.base, op, Kind.Read) || !ready then s
    else s.(tables := s.tables.(reads_ := s.tables.reads_ - {op}), base := Release(s.base, op, Kind.Read))
  }

  function TakeWrite(s: State, op: OpId, ready: bool): State {
    if op !in s.tables.writes || !Holds(s.base, op, Kind.Write) || !ready then s
    else s.(tables := s.tables.(writes := s.tables.writes - {op}), base := Release(s.base, op, Kind.Write))
  }

  function TakeUdpSendReady(s: State, op: OpId, ready: bool): State {
    if op !in s.tables.udpWrites || !Holds(s.base, op, Kind.UdpWrite) || !ready then s
    else s.(tables := s.tables.(udpWrites := s.tables.udpWrites - {op}), base := Release(s.base, op, Kind.UdpWrite))
  }

  function TakePacketWriteReady(s: State, op: OpId, ready: bool): State {
    if op !in s.tables.packetWrites || !Holds(s.base, op, Kind.PacketWrite) || !ready then s
    else s.(tables := s.tables.(packetWrites := s.tables.packetWrites - {op}), base := Release(s.base, op, Kind.PacketWrite))
  }

  function TakeUdpReceive(s: State, op: OpId, exit: Exit): State {
    if op !in s.tables.udpReads || !Holds(s.base, op, Kind.UdpRead) then s
    else
      match exit
      case StillPending => s
      case HandleGone => s.(tables := s.tables.(udpReads := s.tables.udpReads - {op}), base := Release(s.base, op, Kind.UdpRead))
      case StoredError => s.(tables := s.tables.(udpReads := s.tables.udpReads - {op}), base := Release(s.base, op, Kind.UdpRead))
      case HasData => s.(tables := s.tables.(udpReads := s.tables.udpReads - {op}), base := Release(s.base, op, Kind.UdpRead))
  }

  function TakeTcpAccept(s: State, op: OpId, exit: Exit): State {
    if op !in s.tables.accepts || !Holds(s.base, op, Kind.Accept) then s
    else
      match exit
      case StillPending => s
      case HandleGone => s.(tables := s.tables.(accepts := s.tables.accepts - {op}), base := Release(s.base, op, Kind.Accept))
      case StoredError => s.(tables := s.tables.(accepts := s.tables.accepts - {op}), base := Release(s.base, op, Kind.Accept))
      case HasData => s.(tables := s.tables.(accepts := s.tables.accepts - {op}), base := Release(s.base, op, Kind.Accept))
  }

  // `same` says that the create is of the kind that is asked for.
  function TakeTcpConnect(s: State, op: OpId, same: bool): (State, Reply) {
    if op !in s.tables.creates || !same || !Holds(s.base, op, Create) then (s, Failed(Invalid))
    else if s.tables.creates[op] !in s.results then (s, Failed(Pending))
    else (s.(tables := s.tables.(creates := s.tables.creates - {op}), base := Release(s.base, op, Kind.Create)), Replied(s.results[s.tables.creates[op]]))
  }

  function TakeUdpBind(s: State, op: OpId, same: bool): (State, Reply) {
    if op !in s.tables.creates || !same || !Holds(s.base, op, Create) then (s, Failed(Invalid))
    else if s.tables.creates[op] !in s.results then (s, Failed(Pending))
    else (s.(tables := s.tables.(creates := s.tables.creates - {op}), base := Release(s.base, op, Kind.Create)), Replied(s.results[s.tables.creates[op]]))
  }

  function TakeTcpListen(s: State, op: OpId, same: bool): (State, Reply) {
    if op !in s.tables.creates || !same || !Holds(s.base, op, Create) then (s, Failed(Invalid))
    else if s.tables.creates[op] !in s.results then (s, Failed(Pending))
    else (s.(tables := s.tables.(creates := s.tables.creates - {op}), base := Release(s.base, op, Kind.Create)), Replied(s.results[s.tables.creates[op]]))
  }

  function TakeLocalAddr(s: State, op: OpId): (State, Reply) {
    if op !in s.tables.environments || !Holds(s.base, op, Environment) then (s, Failed(Invalid))
    else if s.tables.environments[op] !in s.results then (s, Failed(Pending))
    else (s.(tables := s.tables.(environments := s.tables.environments - {op}), base := Release(s.base, op, Kind.Environment)), Replied(s.results[s.tables.environments[op]]))
  }

  // An error is consumed at once, an answer stays until FinishDns.
  function DnsResult(s: State, op: OpId): (State, Reply) {
    if op !in s.tables.dns || !Holds(s.base, op, Dns) then (s, Failed(Invalid))
    else if s.tables.dns[op] !in s.results then (s, Failed(Pending))
    else if s.results[s.tables.dns[op]].Bad?
    then (s.(tables := s.tables.(dns := s.tables.dns - {op}), base := Release(s.base, op, Kind.Dns)), Replied(s.results[s.tables.dns[op]]))
    else (s, Replied(s.results[s.tables.dns[op]]))
  }

  function FinishDns(s: State, op: OpId): (State, Option<CallError>) {
    if op !in s.tables.dns || s.tables.dns[op] !in s.results || !Holds(s.base, op, Dns) then (s, Some(Invalid))
    else (s.(tables := s.tables.(dns := s.tables.dns - {op}), base := Release(s.base, op, Kind.Dns)), None)
  }

  function ManagementResult(s: State, op: OpId): (State, Reply) {
    if op !in s.tables.management || !Holds(s.base, op, Management) then (s, Failed(Invalid))
    else if s.tables.management[op] !in s.results then (s, Failed(Pending))
    else (s, Replied(s.results[s.tables.management[op]]))
  }

  // The release comes first, and its failure is the failure of the call.
  function FinishManagement(s: State, op: OpId): (State, Option<CallError>) {
    if op !in s.tables.management || s.tables.management[op] !in s.results then (s, Some(Invalid))
    else
      var released := Release(s.base, op, Management);
      if !Holds(s.base, op, Management) then (s, Some(Invalid))
      else (s.(base := released, tables := s.tables.(management := s.tables.management - {op})), None)
  }

  // CancelOperation: the claim goes first, then the entry of the map that the kind names.
  function CancelOperation(s: State, op: OpId): State {
    if op !in s.base.operations then s
    else
      var kind := s.base.operations[op];
      var t := s.(base := s.base.(operations := s.base.operations - {op}));
      match kind
      case Read => t.(tables := t.tables.(reads_ := t.tables.reads_ - {op}))
      case Write => t.(tables := t.tables.(writes := t.tables.writes - {op}))
      case UdpRead => t.(tables := t.tables.(udpReads := t.tables.udpReads - {op}))
      case UdpWrite => t.(tables := t.tables.(udpWrites := t.tables.udpWrites - {op}))
      case Accept => t.(tables := t.tables.(accepts := t.tables.accepts - {op}))
      case Create => t.(tables := t.tables.(creates := t.tables.creates - {op}))
      case Dns => t.(tables := t.tables.(dns := t.tables.dns - {op}))
      case Environment => t.(tables := t.tables.(environments := t.tables.environments - {op}))
      case PacketWrite => t.(tables := t.tables.(packetWrites := t.tables.packetWrites - {op}))
      case Management => t.(tables := t.tables.(management := t.tables.management - {op}))
  }

  // UnregisterPacketSink drops every waiter of its handle.
  function DropPacketWrites(s: State, ops: set<OpId>): State {
    s.(tables := s.tables.(packetWrites := s.tables.packetWrites - ops),
       base := s.base.(operations := map op | op in s.base.operations
         && !(op in ops && op in s.tables.packetWrites && s.base.operations[op] == PacketWrite)
         :: s.base.operations[op]))
  }

  // The operation has an answer that its call would return.
  predicate Answerable(s: State, op: OpId) {
    op in s.base.operations && OwnWorker(s.base.operations[op]) && Look(s, s.base.operations[op], op).Replied?
  }

  function Consume(s: State): State {
    if !s.base.token then s
    else s.(base := s.base.(token := false), seen := set op | op in s.base.operations && Answerable(s, op))
  }

  function Prune(s: State): State {
    s.(seen := set op | op in s.seen && Answerable(s, op))
  }

  datatype Step =
    | DoStartRead(op: OpId)
    | DoStartWrite(op: OpId)
    | DoStartUdpReceive(op: OpId)
    | DoStartUdpSendReady(op: OpId)
    | DoStartTcpAccept(op: OpId)
    | DoStartPacketWriteReady(op: OpId)
    | DoBeginCreate(op: OpId)
    | DoStartDns(op: OpId)
    | DoStartLocalAddr(op: OpId)
    | DoStartManagement(op: OpId)
    | DoFinishCreateWorker(worker: Serial, op: OpId, answer: Answer)
    | DoFinishDnsWorker(worker: Serial, op: OpId, answer: Answer)
    | DoFinishLocalAddrWorker(worker: Serial, op: OpId, answer: Answer)
    | DoFinishManagementWorker(worker: Serial, op: OpId, answer: Answer)
    | DoTakeRead(op: OpId, ready: bool)
    | DoTakeWrite(op: OpId, ready: bool)
    | DoTakeUdpSendReady(op: OpId, ready: bool)
    | DoTakePacketWriteReady(op: OpId, ready: bool)
    | DoTakeUdpReceive(op: OpId, exit: Exit)
    | DoTakeTcpAccept(op: OpId, exit: Exit)
    | DoTakeTcpConnect(op: OpId, same: bool)
    | DoTakeUdpBind(op: OpId, same: bool)
    | DoTakeTcpListen(op: OpId, same: bool)
    | DoTakeLocalAddr(op: OpId)
    | DoDnsResult(op: OpId)
    | DoFinishDns(op: OpId)
    | DoManagementResult(op: OpId)
    | DoFinishManagement(op: OpId)
    | DoCancelOperation(op: OpId)
    | DoDropPacketWrites(ops: set<OpId>)
    | DoCloseAll
    | DoSignal
    | DoConsume

  function Act(s: State, e: Step): State {
    match e
    case DoStartRead(op) => StartRead(s, op)
    case DoStartWrite(op) => StartWrite(s, op)
    case DoStartUdpReceive(op) => StartUdpReceive(s, op)
    case DoStartUdpSendReady(op) => StartUdpSendReady(s, op)
    case DoStartTcpAccept(op) => StartTcpAccept(s, op)
    case DoStartPacketWriteReady(op) => StartPacketWriteReady(s, op)
    case DoBeginCreate(op) => BeginCreate(s, op)
    case DoStartDns(op) => StartDns(s, op)
    case DoStartLocalAddr(op) => StartLocalAddr(s, op)
    case DoStartManagement(op) => StartManagement(s, op)
    case DoFinishCreateWorker(x, op, a) => FinishCreateWorker(s, x, op, a)
    case DoFinishDnsWorker(x, op, a) => FinishDnsWorker(s, x, op, a)
    case DoFinishLocalAddrWorker(x, op, a) => FinishLocalAddrWorker(s, x, op, a)
    case DoFinishManagementWorker(x, op, a) => FinishManagementWorker(s, x, op, a)
    case DoTakeRead(op, ready) => TakeRead(s, op, ready)
    case DoTakeWrite(op, ready) => TakeWrite(s, op, ready)
    case DoTakeUdpSendReady(op, ready) => TakeUdpSendReady(s, op, ready)
    case DoTakePacketWriteReady(op, ready) => TakePacketWriteReady(s, op, ready)
    case DoTakeUdpReceive(op, exit) => TakeUdpReceive(s, op, exit)
    case DoTakeTcpAccept(op, exit) => TakeTcpAccept(s, op, exit)
    case DoTakeTcpConnect(op, same) => TakeTcpConnect(s, op, same).0
    case DoTakeUdpBind(op, same) => TakeUdpBind(s, op, same).0
    case DoTakeTcpListen(op, same) => TakeTcpListen(s, op, same).0
    case DoTakeLocalAddr(op) => TakeLocalAddr(s, op).0
    case DoDnsResult(op) => DnsResult(s, op).0
    case DoFinishDns(op) => FinishDns(s, op).0
    case DoManagementResult(op) => ManagementResult(s, op).0
    case DoFinishManagement(op) => FinishManagement(s, op).0
    case DoCancelOperation(op) => CancelOperation(s, op)
    case DoDropPacketWrites(ops) => DropPacketWrites(s, ops)
    case DoCloseAll => CloseAll(s)
    case DoSignal => s.(base := Pay(s.base))
    case DoConsume => Consume(s)
  }

  function Apply(s: State, e: Step): State {
    Prune(Act(s, e))
  }

  function Run(es: seq<Step>): State {
    if es == [] then Init else Apply(Run(es[..|es| - 1]), es[|es| - 1])
  }

  // ---------------------------------------------------------------- invariants

  // The table of claimed ids is the disjoint union of the ten maps, kind by kind.
  ghost predicate Union(s: State) {
    forall kind, op :: op in Of(s.tables, kind) <==> Holds(s.base, op, kind)
  }

  // Every entry is an object made for this very claim.
  ghost predicate Claimed(s: State) {
    && (forall x | x in s.claims :: x < s.next)
    && (forall kind, op | op in Of(s.tables, kind) ::
          Of(s.tables, kind)[op] in s.claims && s.claims[Of(s.tables, kind)[op]] == Job(kind, op))
    && (forall x | x in s.workers :: x in s.claims && s.claims[x] == s.workers[x])
  }

  // An object holds the answer of its own worker, and no worker reports twice.
  ghost predicate Answered(s: State) {
    && (forall x | x in s.results :: x in s.reported && s.results[x] == s.reported[x])
    && (forall x | x in s.reported :: x in s.claims && x !in s.workers)
    && (forall x | x in s.workers :: x !in s.results)
    && (forall kind, op | op in Of(s.tables, kind) && OwnWorker(kind) ::
          var x := Of(s.tables, kind)[op]; x in s.results <==> x !in s.workers)
  }

  ghost predicate Inv(s: State) {
    && Union(s) && Claimed(s) && Answered(s)
    && (s.base.closed ==> s.tables == NoTables && s.base.operations == map[])
  }

  lemma WithOf(t: Tables, kind: Kind, m: map<OpId, Serial>, other: Kind)
    ensures Of(With(t, kind, m), other) == if other == kind then m else Of(t, other)
  {}

  lemma NoTablesOf(kind: Kind)
    ensures Of(NoTables, kind) == map[]
  {}

  // A step that shrinks the maps, each together with its claims.
  ghost predicate Shrinks(s: State, t: State) {
    && t.next == s.next && t.workers == s.workers && t.results == s.results
    && t.claims == s.claims && t.reported == s.reported
    && forall kind, op | op in Of(t.tables, kind) ::
         op in Of(s.tables, kind) && Of(t.tables, kind)[op] == Of(s.tables, kind)[op]
  }

  lemma ShrinksInv(s: State, t: State)
    requires Claimed(s) && Answered(s) && Shrinks(s, t)
    ensures Claimed(t) && Answered(t)
  {
    hide Of;
  }

  lemma WithSame(t: Tables, kind: Kind)
    ensures With(t, kind, Of(t, kind)) == t
  {}

  lemma ForgetShrinks(s: State, kind: Kind, op: OpId)
    requires Union(s)
    ensures Shrinks(s, Forget(s, kind, op)) && Union(Forget(s, kind, op))
  {
    hide Of, With;
    var t := Forget(s, kind, op);
    forall k ensures Of(t.tables, k) == if k == kind then Of(s.tables, kind) - {op} else Of(s.tables, k) {
      WithOf(s.tables, kind, Of(s.tables, kind) - {op}, k);
    }
  }

  lemma ForgetInv(s: State, kind: Kind, op: OpId)
    requires Inv(s)
    ensures Inv(Forget(s, kind, op))
  {
    ForgetShrinks(s, kind, op);
    ShrinksInv(s, Forget(s, kind, op));
    if s.base.closed {
      NoTablesOf(kind);
      WithSame(s.tables, kind);
      assert Of(s.tables, kind) - {op} == Of(s.tables, kind);
    }
    hide Union, Claimed, Answered, Of, With;
  }

  lemma BeginOf(s: State, kind: Kind, op: OpId)
    requires Begin(s, kind, op).1 == None
    ensures forall k :: Of(Begin(s, kind, op).0.tables, k)
              == if k == kind then Of(s.tables, kind)[op := s.next] else Of(s.tables, k)
  {
    hide Of, With;
    forall k ensures Of(Begin(s, kind, op).0.tables, k)
              == if k == kind then Of(s.tables, kind)[op := s.next] else Of(s.tables, k) {
      WithOf(s.tables, kind, Of(s.tables, kind)[op := s.next], k);
    }
  }

  lemma BeginUnion(s: State, kind: Kind, op: OpId)
    requires Union(s)
    ensures Union(Begin(s, kind, op).0)
  {
    hide Of, With;
    if Begin(s, kind, op).1 == None {
      BeginOf(s, kind, op);
    }
  }

  lemma BeginClaimed(s: State, kind: Kind, op: OpId)
    requires Claimed(s)
    ensures Claimed(Begin(s, kind, op).0)
  {
    hide Of, With;
    if Begin(s, kind, op).1 == None {
      BeginOf(s, kind, op);
    }
  }

  lemma BeginAnswered(s: State, kind: Kind, op: OpId)
    requires Claimed(s) && Answered(s)
    ensures Answered(Begin(s, kind, op).0)
  {
    hide Of, With;
    if Begin(s, kind, op).1 == None {
      BeginOf(s, kind, op);
    }
  }

  lemma BeginInv(s: State, kind: Kind, op: OpId)
    requires Inv(s)
    ensures Inv(Begin(s, kind, op).0)
  {
    BeginUnion(s, kind, op);
    BeginClaimed(s, kind, op);
    BeginAnswered(s, kind, op);
    hide Of, With, Union, Claimed, Answered;
  }

  lemma CompleteClaimed(s: State, x: Serial, a: Answer)
    requires Union(s) && Claimed(s)
    ensures Union(Complete(s, x, a)) && Claimed(Complete(s, x, a))
  {
    hide Of, With;
  }

  lemma CompleteAnswered(s: State, x: Serial, a: Answer)
    requires Claimed(s) && Answered(s)
    ensures Answered(Complete(s, x, a))
  {
    hide Of, With;
  }

  lemma CompleteInv(s: State, x: Serial, a: Answer)
    requires Inv(s)
    ensures Inv(Complete(s, x, a))
  {
    CompleteClaimed(s, x, a);
    CompleteAnswered(s, x, a);
    hide Of, With, Union, Claimed, Answered;
  }

  lemma DropShrinks(s: State, ops: set<OpId>)
    requires Union(s)
    ensures Shrinks(s, DropPacketWrites(s, ops)) && Union(DropPacketWrites(s, ops))
  {
    var t := DropPacketWrites(s, ops);
    forall k ensures Of(t.tables, k) == if k == PacketWrite then Of(s.tables, k) - ops else Of(s.tables, k) {
    }
    assert Of(s.tables, PacketWrite) == s.tables.packetWrites;
    hide Of;
  }

  lemma DropInv(s: State, ops: set<OpId>)
    requires Inv(s)
    ensures Inv(DropPacketWrites(s, ops))
  {
    DropShrinks(s, ops);
    ShrinksInv(s, DropPacketWrites(s, ops));
    hide Union, Claimed, Answered;
  }

  lemma CloseInv(s: State)
    requires Inv(s)
    ensures Inv(CloseAll(s))
  {
    forall k ensures Of(NoTables, k) == map[] {
      NoTablesOf(k);
    }
    hide Of;
  }

  // ---------------------------------------------------------------- every call site is one of four changes

  // What a step comes to: one claim made, answered or dropped, with its own map.
  datatype Change = NoChange | Begins(kind: Kind, op: OpId) | Completes(worker: Serial, answer: Answer) | Forgets(kind: Kind, op: OpId)

  function Make(s: State, c: Change): State {
    match c
    case NoChange => s
    case Begins(kind, op) => Begin(s, kind, op).0
    case Completes(x, a) => Complete(s, x, a)
    case Forgets(kind, op) => Forget(s, kind, op)
  }

  function ForgetsIf(s: State, kind: Kind, op: OpId, served: bool): Change {
    if Pending_(s, kind, op) && served then Forgets(kind, op) else NoChange
  }

  function CompletesIf(s: State, x: Serial, job: Job, a: Answer): Change {
    if x in s.workers && s.workers[x] == job then Completes(x, a) else NoChange
  }

  // The steps that touch more than one claim, or none.
  predicate Special(e: Step) {
    e.DoDropPacketWrites? || e.DoCloseAll? || e.DoSignal? || e.DoConsume?
  }

  function ChangeOf(s: State, e: Step): Change
    requires !Special(e)
  {
    match e
    case DoStartRead(op) => Begins(Kind.Read, op)
    case DoStartWrite(op) => Begins(Kind.Write, op)
    case DoStartUdpReceive(op) => Begins(Kind.UdpRead, op)
    case DoStartUdpSendReady(op) => Begins(Kind.UdpWrite, op)
    case DoStartTcpAccept(op) => Begins(Kind.Accept, op)
    case DoStartPacketWriteReady(op) => Begins(Kind.PacketWrite, op)
    case DoBeginCreate(op) => Begins(Kind.Create, op)
    case DoStartDns(op) => Begins(Kind.Dns, op)
    case DoStartLocalAddr(op) => Begins(Kind.Environment, op)
    case DoStartManagement(op) => Begins(Kind.Management, op)
    case DoFinishCreateWorker(x, op, a) => CompletesIf(s, x, Job(Kind.Create, op), a)
    case DoFinishDnsWorker(x, op, a) => CompletesIf(s, x, Job(Kind.Dns, op), a)
    case DoFinishLocalAddrWorker(x, op, a) => CompletesIf(s, x, Job(Kind.Environment, op), a)
    case DoFinishManagementWorker(x, op, a) => CompletesIf(s, x, Job(Kind.Management, op), a)
    case DoTakeRead(op, ready) => ForgetsIf(s, Kind.Read, op, ready)
    case DoTakeWrite(op, ready) => ForgetsIf(s, Kind.Write, op, ready)
    case DoTakeUdpSendReady(op, ready) => ForgetsIf(s, Kind.UdpWrite, op, ready)
    case DoTakePacketWriteReady(op, ready) => ForgetsIf(s, Kind.PacketWrite, op, ready)
    case DoTakeUdpReceive(op, exit) => ForgetsIf(s, Kind.UdpRead, op, exit != StillPending)
    case DoTakeTcpAccept(op, exit) => ForgetsIf(s, Kind.Accept, op, exit != StillPending)
    case DoTakeTcpConnect(op, same) => ForgetsIf(s, Create, op, same && Look(s, Create, op).Replied?)
    case DoTakeUdpBind(op, same) => ForgetsIf(s, Create, op, same && Look(s, Create, op).Replied?)
    case DoTakeTcpListen(op, same) => ForgetsIf(s, Create, op, same && Look(s, Create, op).Replied?)
    case DoTakeLocalAddr(op) => ForgetsIf(s, Environment, op, Look(s, Environment, op).Replied?)
    case DoDnsResult(op) => ForgetsIf(s, Dns, op, Look(s, Dns, op).Replied? && Look(s, Dns, op).answer.Bad?)
    case DoFinishDns(op) => ForgetsIf(s, Dns, op, Look(s, Dns, op).Replied?)
    case DoManagementResult(op) => NoChange
    case DoFinishManagement(op) => ForgetsIf(s, Management, op, Look(s, Management, op).Replied?)
    case DoCancelOperation(op) => if op in s.base.operations then Forgets(s.base.operations[op], op) else NoChange
  }

  lemma StartReadSite(s: State, op: OpId)
    ensures StartRead(s, op) == Begin(s, Kind.Read, op).0
  {}

  lemma StartWriteSite(s: State, op: OpId)
    ensures StartWrite(s, op) == Begin(s, Kind.Write, op).0
  {}

  lemma StartUdpReceiveSite(s: State, op: OpId)
    ensures StartUdpReceive(s, op) == Begin(s, Kind.UdpRead, op).0
  {}

  lemma StartUdpSendReadySite(s: State, op: OpId)
    ensures StartUdpSendReady(s, op) == Begin(s, Kind.UdpWrite, op).0
  {}

  lemma StartTcpAcceptSite(s: State, op: OpId)
    ensures StartTcpAccept(s, op) == Begin(s, Kind.Accept, op).0
  {}

  lemma StartPacketWriteReadySite(s: State, op: OpId)
    ensures StartPacketWriteReady(s, op) == Begin(s, Kind.PacketWrite, op).0
  {}

  lemma BeginCreateSite(s: State, op: OpId)
    ensures BeginCreate(s, op) == Begin(s, Kind.Create, op).0
  {}

  lemma StartDnsSite(s: State, op: OpId)
    ensures StartDns(s, op) == Begin(s, Kind.Dns, op).0
  {}

  lemma StartLocalAddrSite(s: State, op: OpId)
    ensures StartLocalAddr(s, op) == Begin(s, Kind.Environment, op).0
  {}

  lemma StartManagementSite(s: State, op: OpId)
    ensures StartManagement(s, op) == Begin(s, Kind.Management, op).0
  {}

  lemma FinishCreateWorkerSite(s: State, x: Serial, op: OpId, a: Answer)
    ensures FinishCreateWorker(s, x, op, a) == Make(s, CompletesIf(s, x, Job(Kind.Create, op), a))
  {}

  lemma FinishDnsWorkerSite(s: State, x: Serial, op: OpId, a: Answer)
    ensures FinishDnsWorker(s, x, op, a) == Make(s, CompletesIf(s, x, Job(Kind.Dns, op), a))
  {}

  lemma FinishLocalAddrWorkerSite(s: State, x: Serial, op: OpId, a: Answer)
    ensures FinishLocalAddrWorker(s, x, op, a) == Make(s, CompletesIf(s, x, Job(Kind.Environment, op), a))
  {}

  lemma FinishManagementWorkerSite(s: State, x: Serial, op: OpId, a: Answer)
    ensures FinishManagementWorker(s, x, op, a) == Make(s, CompletesIf(s, x, Job(Kind.Management, op), a))
  {}

  lemma TakeReadSite(s: State, op: OpId, ready: bool)
    ensures TakeRead(s, op, ready) == Make(s, ForgetsIf(s, Kind.Read, op, ready))
  {}

  lemma TakeWriteSite(s: State, op: OpId, ready: bool)
    ensures TakeWrite(s, op, ready) == Make(s, ForgetsIf(s, Kind.Write, op, ready))
  {}

  lemma TakeUdpSendReadySite(s: State, op: OpId, ready: bool)
    ensures TakeUdpSendReady(s, op, ready) == Make(s, ForgetsIf(s, Kind.UdpWrite, op, ready))
  {}

  lemma TakePacketWriteReadySite(s: State, op: OpId, ready: bool)
    ensures TakePacketWriteReady(s, op, ready) == Make(s, ForgetsIf(s, Kind.PacketWrite, op, ready))
  {}

  lemma TakeUdpReceiveSite(s: State, op: OpId, exit: Exit)
    ensures TakeUdpReceive(s, op, exit) == Make(s, ForgetsIf(s, Kind.UdpRead, op, exit != StillPending))
  {}

  lemma TakeTcpAcceptSite(s: State, op: OpId, exit: Exit)
    ensures TakeTcpAccept(s, op, exit) == Make(s, ForgetsIf(s, Kind.Accept, op, exit != StillPending))
  {}

  lemma TakeTcpConnectSite(s: State, op: OpId, same: bool)
    ensures TakeTcpConnect(s, op, same) == if same then TakeAnswer(s, Create, op) else (s, Failed(Invalid))
  {}

  lemma TakeUdpBindSite(s: State, op: OpId, same: bool)
    ensures TakeUdpBind(s, op, same) == if same then TakeAnswer(s, Create, op) else (s, Failed(Invalid))
  {}

  lemma TakeTcpListenSite(s: State, op: OpId, same: bool)
    ensures TakeTcpListen(s, op, same) == if same then TakeAnswer(s, Create, op) else (s, Failed(Invalid))
  {}

  lemma TakeLocalAddrSite(s: State, op: OpId)
    ensures TakeLocalAddr(s, op) == TakeAnswer(s, Environment, op)
  {}

  lemma DnsResultSite(s: State, op: OpId)
    ensures DnsResult(s, op) == PeekAnswer(s, Dns, op)
  {}

  lemma ManagementResultSite(s: State, op: OpId)
    ensures ManagementResult(s, op) == PeekAnswer(s, Management, op)
  {}

  lemma FinishDnsSite(s: State, op: OpId)
    ensures FinishDns(s, op) == FinishAnswer(s, Dns, op)
  {}

  lemma FinishManagementSite(s: State, op: OpId)
    ensures FinishManagement(s, op) == FinishAnswer(s, Management, op)
  {}

  lemma CancelSite(s: State, op: OpId)
    ensures CancelOperation(s, op) == Cancel(s, op)
  {}

  lemma StartsMake(s: State, e: Step)
    requires e.DoStartRead? || e.DoStartWrite? || e.DoStartUdpReceive? || e.DoStartUdpSendReady? || e.DoStartTcpAccept? || e.DoStartPacketWriteReady? || e.DoBeginCreate? || e.DoStartDns? || e.DoStartLocalAddr? || e.DoStartManagement?
    ensures !Special(e) && Act(s, e) == Make(s, ChangeOf(s, e))
  {
    hide Begin, StartRead, StartWrite, StartUdpReceive, StartUdpSendReady, StartTcpAccept, StartPacketWriteReady, BeginCreate, StartDns, StartLocalAddr, StartManagement;
    match e
    case DoStartRead(op) => StartReadSite(s, op);
    case DoStartWrite(op) => StartWriteSite(s, op);
    case DoStartUdpReceive(op) => StartUdpReceiveSite(s, op);
    case DoStartUdpSendReady(op) => StartUdpSendReadySite(s, op);
    case DoStartTcpAccept(op) => StartTcpAcceptSite(s, op);
    case DoStartPacketWriteReady(op) => StartPacketWriteReadySite(s, op);
    case DoBeginCreate(op) => BeginCreateSite(s, op);
    case DoStartDns(op) => StartDnsSite(s, op);
    case DoStartLocalAddr(op) => StartLocalAddrSite(s, op);
    case DoStartManagement(op) => StartManagementSite(s, op);
  }

  lemma WorkersMake(s: State, e: Step)
    requires e.DoFinishCreateWorker? || e.DoFinishDnsWorker? || e.DoFinishLocalAddrWorker? || e.DoFinishManagementWorker?
    ensures !Special(e) && Act(s, e) == Make(s, ChangeOf(s, e))
  {
    hide Complete, FinishCreateWorker, FinishDnsWorker, FinishLocalAddrWorker, FinishManagementWorker;
    match e
    case DoFinishCreateWorker(x, op, a) => FinishCreateWorkerSite(s, x, op, a);
    case DoFinishDnsWorker(x, op, a) => FinishDnsWorkerSite(s, x, op, a);
    case DoFinishLocalAddrWorker(x, op, a) => FinishLocalAddrWorkerSite(s, x, op, a);
    case DoFinishManagementWorker(x, op, a) => FinishManagementWorkerSite(s, x, op, a);
  }

  lemma RetiresMake(s: State, e: Step)
    requires e.DoTakeRead? || e.DoTakeWrite? || e.DoTakeUdpSendReady? || e.DoTakePacketWriteReady?
    ensures !Special(e) && Act(s, e) == Make(s, ChangeOf(s, e))
  {
    if e.DoTakeRead? || e.DoTakeWrite? { StreamRetiresMake(s, e); } else { ReadyRetiresMake(s, e); }
    hide Act, Make, ChangeOf;
  }

  lemma StreamRetiresMake(s: State, e: Step)
    requires e.DoTakeRead? || e.DoTakeWrite?
    ensures Act(s, e) == Make(s, ChangeOf(s, e))
  {
    hide Forget, Pending_, TakeRead, TakeWrite;
    match e
    case DoTakeRead(op, ready) => TakeReadSite(s, op, ready);
    case DoTakeWrite(op, ready) => TakeWriteSite(s, op, ready);
  }

  lemma ReadyRetiresMake(s: State, e: Step)
    requires e.DoTakeUdpSendReady? || e.DoTakePacketWriteReady?
    ensures Act(s, e) == Make(s, ChangeOf(s, e))
  {
    hide Forget, Pending_, TakeUdpSendReady, TakePacketWriteReady;
    match e
    case DoTakeUdpSendReady(op, ready) => TakeUdpSendReadySite(s, op, ready);
    case DoTakePacketWriteReady(op, ready) => TakePacketWriteReadySite(s, op, ready);
  }

  lemma ExitsMake(s: State, e: Step)
    requires e.DoTakeUdpReceive? || e.DoTakeTcpAccept?
    ensures !Special(e) && Act(s, e) == Make(s, ChangeOf(s, e))
  {
    hide Forget, Pending_, TakeUdpReceive, TakeTcpAccept;
    match e
    case DoTakeUdpReceive(op, exit) => TakeUdpReceiveSite(s, op, exit);
    case DoTakeTcpAccept(op, exit) => TakeTcpAcceptSite(s, op, exit);
  }

  lemma CreatesMake(s: State, e: Step)
    requires e.DoTakeTcpConnect? || e.DoTakeUdpBind? || e.DoTakeTcpListen?
    ensures !Special(e) && Act(s, e) == Make(s, ChangeOf(s, e))
  {
    hide Forget, Of, TakeTcpConnect, TakeUdpBind, TakeTcpListen;
    match e
    case DoTakeTcpConnect(op, same) => TakeTcpConnectSite(s, op, same);
    case DoTakeUdpBind(op, same) => TakeUdpBindSite(s, op, same);
    case DoTakeTcpListen(op, same) => TakeTcpListenSite(s, op, same);
  }

  lemma DnsMakes(s: State, e: Step)
    requires e.DoDnsResult? || e.DoFinishDns?
    ensures !Special(e) && Act(s, e) == Make(s, ChangeOf(s, e))
  {
    hide Forget, Of, DnsResult, FinishDns;
    match e
    case DoDnsResult(op) => DnsResultSite(s, op);
    case DoFinishDns(op) => FinishDnsSite(s, op);
  }

  lemma AnswersMake(s: State, e: Step)
    requires e.DoTakeLocalAddr? || e.DoManagementResult? || e.DoFinishManagement?
    ensures !Special(e) && Act(s, e) == Make(s, ChangeOf(s, e))
  {
    hide Forget, Of, TakeLocalAddr, ManagementResult, FinishManagement;
    match e
    case DoTakeLocalAddr(op) => TakeLocalAddrSite(s, op);
    case DoManagementResult(op) => ManagementResultSite(s, op);
    case DoFinishManagement(op) => FinishManagementSite(s, op);
  }

  lemma CancelMakes(s: State, op: OpId)
    ensures Act(s, DoCancelOperation(op)) == Make(s, ChangeOf(s, DoCancelOperation(op)))
  {
    CancelSite(s, op);
    hide CancelOperation, Forget;
  }

  lemma ActMakes(s: State, e: Step)
    requires !Special(e)
    ensures Act(s, e) == Make(s, ChangeOf(s, e))
  {
    hide Act, Make, ChangeOf;
    if e.DoStartRead? || e.DoStartWrite? || e.DoStartUdpReceive? || e.DoStartUdpSendReady? || e.DoStartTcpAccept? || e.DoStartPacketWriteReady? || e.DoBeginCreate? || e.DoStartDns? || e.DoStartLocalAddr? || e.DoStartManagement? {
      StartsMake(s, e);
    } else if e.DoFinishCreateWorker? || e.DoFinishDnsWorker? || e.DoFinishLocalAddrWorker? || e.DoFinishManagementWorker? {
      WorkersMake(s, e);
    } else if e.DoTakeRead? || e.DoTakeWrite? || e.DoTakeUdpSendReady? || e.DoTakePacketWriteReady? || e.DoTakeUdpReceive? || e.DoTakeTcpAccept? {
      if e.DoTakeUdpReceive? || e.DoTakeTcpAccept? { ExitsMake(s, e); } else { RetiresMake(s, e); }
    } else if e.DoTakeTcpConnect? || e.DoTakeUdpBind? || e.DoTakeTcpListen? {
      CreatesMake(s, e);
    } else if e.DoCancelOperation? {
      CancelMakes(s, e.op);
    } else if e.DoDnsResult? || e.DoFinishDns? {
      DnsMakes(s, e);
    } else {
      AnswersMake(s, e);
    }
  }

  // ---------------------------------------------------------------- every step keeps the invariant

  lemma MakeInv(s: State, c: Change)
    requires Inv(s)
    ensures Inv(Make(s, c))
  {
    hide Inv, Begin, Complete, Forget;
    match c
    case NoChange =>
    case Begins(kind, op) => BeginInv(s, kind, op);
    case Completes(x, a) => CompleteInv(s, x, a);
    case Forgets(kind, op) => ForgetInv(s, kind, op);
  }

  lemma ActInv(s: State, e: Step)
    requires Inv(s)
    ensures Inv(Act(s, e))
  {
    if Special(e) {
      SpecialInv(s, e);
    } else {
      ActMakes(s, e);
      MakeInv(s, ChangeOf(s, e));
    }
    hide Act, Inv;
  }

  lemma SpecialInv(s: State, e: Step)
    requires Inv(s) && Special(e)
    ensures Inv(Act(s, e))
  {
    hide Inv, DropPacketWrites, CloseAll, Consume;
    match e
    case DoDropPacketWrites(ops) => DropInv(s, ops);
    case DoCloseAll => CloseInv(s);
    case DoSignal => BaseInv(s, Pay(s.base));
    case DoConsume => ConsumeInv(s);
  }

  lemma BaseInv(s: State, b: Base)
    requires Inv(s) && b.operations == s.base.operations && b.closed == s.base.closed
    ensures Inv(s.(base := b))
  {
    hide Of;
  }

  // Nothing in the invariant depends on what was seen.
  lemma SeenInv(s: State, seen: set<OpId>)
    requires Inv(s)
    ensures Inv(s.(seen := seen))
  {
    hide Of;
  }

  lemma ConsumeInv(s: State)
    requires Inv(s)
    ensures Inv(Consume(s))
  {
    BaseInv(s, s.base.(token := false));
    SeenInv(s.(base := s.base.(token := false)), Consume(s).seen);
    hide Inv;
  }

  lemma InitInv()
    ensures Inv(Init)
  {}

  lemma {:induction false} RunInv(es: seq<Step>)
    ensures Inv(Run(es))
  {
    hide Inv;
    InitInv();
    if es != [] {
      var s := Run(es[..|es| - 1]);
      RunInv(es[..|es| - 1]);
      ActInv(s, es[|es| - 1]);
      SeenInv(Act(s, es[|es| - 1]), Prune(Act(s, es[|es| - 1])).seen);
    }
  }

  // ---------------------------------------------------------------- what every run guarantees

  /** In every reachable state the claimed ids are the disjoint union of the ten maps, each
      id in the map of its own kind and in no other. */
  lemma TablesPartitionOperations(es: seq<Step>, op: OpId, kind: Kind, other: Kind)
    ensures var s := Run(es);
      && (op in Of(s.tables, kind) <==> op in s.base.operations && s.base.operations[op] == kind)
      && (op in Of(s.tables, kind) && op in Of(s.tables, other) ==> kind == other)
  {
    RunInv(es);
    hide Run, Of;
  }

  /** CancelOperation always finds the object of a claimed id in the map of its kind,
      removes it and the claim, and touches no other operation. */
  lemma CancelFindsItsObject(es: seq<Step>, op: OpId, kind: Kind, p: OpId)
    requires op in Run(es).base.operations
    ensures var (s, t) := (Run(es), CancelOperation(Run(es), op));
      && op in Of(s.tables, s.base.operations[op])
      && op !in t.base.operations && op !in Of(t.tables, kind)
      && (p != op ==> (p in Of(t.tables, kind) <==> p in Of(s.tables, kind))
                      && (p in Of(s.tables, kind) ==> Of(t.tables, kind)[p] == Of(s.tables, kind)[p]))
  {
    RunInv(es);
    var s := Run(es);
    CancelSite(s, op);
    var own := s.base.operations[op];
    WithOf(s.tables, own, Of(s.tables, own) - {op}, kind);
    hide Run, Of, With, CancelOperation;
  }

  /** After Close every map stays empty, no id is ever claimed, no object is made and no worker
      starts. */
  lemma ClosedStaysEmpty(es: seq<Step>, e: Step)
    requires Run(es).base.closed
    ensures var (s, t) := (Run(es), Apply(Run(es), e));
      && s.tables == NoTables && s.base.operations == map[]
      && t.base.closed && t.tables == NoTables && t.base.operations == map[]
      && t.next == s.next && t.workers.Keys <= s.workers.Keys
  {
    RunInv(es);
    ActInv(Run(es), e);
    ClosedStays(Run(es), e);
    hide Run, Of, Act;
  }

  lemma MakeClosed(s: State, c: Change)
    requires s.base.closed
    ensures Make(s, c).base.closed && Make(s, c).next == s.next && Make(s, c).workers.Keys <= s.workers.Keys
  {
    hide Of, With;
  }

  lemma SpecialClosed(s: State, e: Step)
    requires s.base.closed && Special(e)
    ensures Act(s, e).base.closed && Act(s, e).next == s.next && Act(s, e).workers == s.workers
  {}

  lemma ClosedStays(s: State, e: Step)
    requires s.base.closed
    ensures Act(s, e).base.closed && Act(s, e).next == s.next && Act(s, e).workers.Keys <= s.workers.Keys
  {
    hide Act, ChangeOf, Make;
    if Special(e) {
      SpecialClosed(s, e);
    } else {
      ActMakes(s, e);
      MakeClosed(s, ChangeOf(s, e));
    }
  }

  lemma LookAfterReport(s: State, x: Serial, a: Answer, kind: Kind, op: OpId)
    requires Inv(s) && x in s.workers
    ensures Look(Complete(s, x, a), kind, op)
            == if op in Of(s.tables, kind) && Of(s.tables, kind)[op] == x then Replied(a) else Look(s, kind, op)
  {
    hide Of;
  }

  /** The answer of a worker changes what a call would report for its own operation if its object
      is still the one in the map, and for no other operation ever.  So a worker whose id was
      cancelled or taken, and perhaps claimed again, changes nothing. */
  lemma WorkerAnswersItsOwnClaim(es: seq<Step>, x: Serial, a: Answer, kind: Kind, op: OpId)
    requires x in Run(es).workers
    ensures var s := Run(es);
      Look(Complete(s, x, a), kind, op) != Look(s, kind, op)
      <==> s.workers[x] == Job(kind, op) && op in Of(s.tables, kind) && Of(s.tables, kind)[op] == x
  {
    RunInv(es);
    LookAfterReport(Run(es), x, a, kind, op);
    hide Run, Of, Complete;
  }

  /** An id that was cancelled and claimed again keeps what it reports, whatever the worker of
      the earlier claim brings back. */
  lemma LateWorkerChangesNothing(es: seq<Step>, x: Serial, a: Answer, kind: Kind, op: OpId)
    requires x in Run(es).workers && op in Of(Run(es).tables, kind) && x < Of(Run(es).tables, kind)[op]
    ensures Look(Complete(Run(es), x, a), kind, op) == Look(Run(es), kind, op)
  {
    WorkerAnswersItsOwnClaim(es, x, a, kind, op);
  }

  /** The worker's code at each of its four places is that one operation. */
  lemma WorkerStepIsComplete(es: seq<Step>, x: Serial, a: Answer)
    requires x in Run(es).workers
    ensures var s := Run(es); var op := s.workers[x].op;
      match s.workers[x].kind
      case Create => FinishCreateWorker(s, x, op, a) == Complete(s, x, a)
      case Dns => FinishDnsWorker(s, x, op, a) == Complete(s, x, a)
      case Environment => FinishLocalAddrWorker(s, x, op, a) == Complete(s, x, a)
      case Management => FinishManagementWorker(s, x, op, a) == Complete(s, x, a)
      case _ => false
  {
    var s, op := Run(es), Run(es).workers[x].op;
    RunWorkers(es, x);
    FinishCreateWorkerSite(s, x, op, a);
    FinishDnsWorkerSite(s, x, op, a);
    FinishLocalAddrWorkerSite(s, x, op, a);
    FinishManagementWorkerSite(s, x, op, a);
    hide Run, Complete, FinishCreateWorker, FinishDnsWorker, FinishLocalAddrWorker, FinishManagementWorker;
  }

  /** What a call reports for an id is what the worker of that id's present claim brought
      back, never the answer of an earlier claim; and it stays pending until then. */
  lemma AnswerIsOfPresentClaim(es: seq<Step>, kind: Kind, op: OpId)
    requires OwnWorker(kind) && op in Of(Run(es).tables, kind)
    ensures var s := Run(es); var x := Of(s.tables, kind)[op];
      && x in s.claims && s.claims[x] == Job(kind, op)
      && (Look(s, kind, op).Replied? ==> x in s.reported && Look(s, kind, op).answer == s.reported[x])
      && (Look(s, kind, op) == Failed(Pending) ==> x in s.workers && s.workers[x] == Job(kind, op))
      && Look(s, kind, op) != Failed(Invalid)
  {
    RunInv(es);
    hide Run, Of;
  }

  // ---------------------------------------------------------------- wakeups

  // A step drops no signal, and whatever it answers it also announces.
  ghost predicate Covers(s: State, t: State) {
    && (Signalled(s.base) ==> Signalled(t.base))
    && t.seen == s.seen
    && forall op | Answerable(t, op) :: Signalled(t.base) || Answerable(s, op)
  }

  ghost predicate Announced(s: State) {
    forall op | Answerable(s, op) :: Signalled(s.base) || op in s.seen
  }

  lemma BeginCovers(s: State, kind: Kind, op: OpId)
    requires Inv(s)
    ensures Covers(s, Begin(s, kind, op).0)
  {
    var t := Begin(s, kind, op).0;
    if t != s {
      BeginOf(s, kind, op);
      hide Of, With;
      NextHasNoAnswer(s);
    }
  }

  lemma NextHasNoAnswer(s: State)
    requires Inv(s)
    ensures s.next !in s.results
  {
    hide Of;
    assert s.next in s.results ==> s.next in s.claims;
  }

  lemma CompleteCovers(s: State, x: Serial, a: Answer)
    ensures Covers(s, Complete(s, x, a))
  {
    hide Of;
  }

  lemma ForgetCovers(s: State, kind: Kind, op: OpId)
    ensures Covers(s, Forget(s, kind, op))
  {
    hide Of, With;
    forall k ensures Of(Forget(s, kind, op).tables, k) == if k == kind then Of(s.tables, kind) - {op} else Of(s.tables, k) {
      WithOf(s.tables, kind, Of(s.tables, kind) - {op}, k);
    }
  }

  lemma OtherCovers(s: State, e: Step)
    requires e.DoDropPacketWrites? || e.DoCloseAll? || e.DoSignal?
    ensures Covers(s, Act(s, e))
  {
    if e.DoSignal? { SignalCovers(s); }
  }

  lemma SignalCovers(s: State)
    ensures Covers(s, Act(s, DoSignal))
  {}

  lemma ActCovers(s: State, e: Step)
    requires Inv(s) && !e.DoConsume?
    ensures Covers(s, Act(s, e))
  {
    if Special(e) {
      OtherCovers(s, e);
    } else {
      ActMakes(s, e);
      MakeCovers(s, ChangeOf(s, e));
    }
    hide Act, ChangeOf, Inv, Covers;
  }

  lemma MakeCovers(s: State, c: Change)
    requires Inv(s)
    ensures Covers(s, Make(s, c))
  {
    hide Inv, Covers, Begin, Complete, Forget;
    match c
    case NoChange => NothingCovers(s);
    case Begins(kind, op) => BeginCovers(s, kind, op);
    case Completes(x, a) => CompleteCovers(s, x, a);
    case Forgets(kind, op) => ForgetCovers(s, kind, op);
  }

  lemma NothingCovers(s: State)
    ensures Covers(s, s)
  {}

  lemma AnnouncedStays(s: State, e: Step)
    requires Inv(s) && Announced(s)
    ensures Announced(Apply(s, e))
  {
    if e.DoConsume? {
      ConsumeAnnounced(s);
    } else {
      ActCovers(s, e);
      CoveredAnnounced(s, Act(s, e));
      hide Act;
    }
  }

  lemma ConsumeAnnounced(s: State)
    requires Announced(s)
    ensures Announced(Apply(s, DoConsume))
  {
    hide Of;
  }

  lemma CoveredAnnounced(s: State, t: State)
    requires Announced(s) && Covers(s, t)
    ensures Announced(Prune(t))
  {
    hide Of;
  }

  /** No wakeup is lost: a create, a lookup or a management call whose answer has not been read
      has had a token received since it finished, or the token is there, or a thread is about to
      send it. */
  lemma {:induction false} NoAnswerWakeupLost(es: seq<Step>, kind: Kind, op: OpId)
    requires OwnWorker(kind) && Look(Run(es), kind, op).Replied?
    ensures Signalled(Run(es).base) || op in Run(es).seen
  {
    RunAnnounced(es);
    assert Answerable(Run(es), op);
  }

  lemma {:induction false} RunAnnounced(es: seq<Step>)
    ensures Announced(Run(es))
  {
    if es != [] {
      RunInv(es[..|es| - 1]);
      RunAnnounced(es[..|es| - 1]);
      AnnouncedStays(Run(es[..|es| - 1]), es[|es| - 1]);
      hide Apply, Inv, Announced;
    }
  }

  lemma {:induction false} RunWorkers(es: seq<Step>, x: Serial)
    requires x in Run(es).workers
    ensures OwnWorker(Run(es).workers[x].kind)
  {
    if es != [] {
      var s, e := Run(es[..|es| - 1]), es[|es| - 1];
      WorkerAppears(s, e, x);
      if x in s.workers { RunWorkers(es[..|es| - 1], x); }
      hide Apply;
    }
  }

  lemma MakeWorkers(s: State, c: Change, x: Serial)
    requires x in Make(s, c).workers
    ensures (x in s.workers && Make(s, c).workers[x] == s.workers[x]) || OwnWorker(Make(s, c).workers[x].kind)
  {
    hide Of, With;
  }

  lemma SpecialWorkers(s: State, e: Step)
    requires Special(e)
    ensures Act(s, e).workers == s.workers
  {}

  lemma WorkerAppears(s: State, e: Step, x: Serial)
    requires x in Apply(s, e).workers
    ensures (x in s.workers && Apply(s, e).workers[x] == s.workers[x]) || OwnWorker(Apply(s, e).workers[x].kind)
  {
    hide Act, ChangeOf, Make, Answerable;
    if Special(e) {
      SpecialWorkers(s, e);
    } else {
      ActMakes(s, e);
      MakeWorkers(s, ChangeOf(s, e), x);
    }
  }
}

/** Packet sinks: a bounded queue filled by guest writes and emptied by receivers that
    sleep on a one-slot token (internal/reactor/packet.go). */
module PacketSink {
  import opened Core

  type Packet = seq<u8>
  type Thread = nat

  /** A packetSink.  `registered` says that its handle is still in the table, `token` is
      the one-slot channel, `owes` counts writers that have yet to fill it; `accepted`
      and `received` record what went in and what came out. */
  datatype Sink = Sink(
    registered: bool,
    capacity: nat,
    packets: seq<Packet>,
    token: bool,
    owes: nat,
    accepted: seq<Packet>,
    received: seq<Packet>)

  function NewSink(capacity: nat): Sink {
    Sink(true, capacity, [], false, 0, [], [])
  }

  function Push(k: Sink, p: Packet): Sink {
    k.(packets := k.packets + [p], accepted := k.accepted + [p], owes := k.owes + 1)
  }

  function Pop(k: Sink): Sink
    requires k.packets != []
  {
    k.(packets := k.packets[1..], received := k.received + [k.packets[0]])
  }

  function PayToken(k: Sink): Sink {
    if k.owes > 0 then k.(owes := k.owes - 1, token := true) else k
  }

  // ---------------------------------------------------------------- the whole table

  // Where a thread is in ReceivePacket: about to lock, or asleep in the select.
  datatype Receiver = Checking(handle: Handle) | Waiting(handle: Handle)

  datatype State = State(
    base: Base,
    sinks: map<Handle, Sink>,
    waiters: map<OpId, Waiter>,
    receivers: map<Thread, Receiver>,
    seen: set<OpId>)

  const Init := State(Core.Fresh, map[], map[], map[], {})

  predicate Open(s: State, handle: Handle) {
    handle in s.sinks && s.sinks[handle].registered
  }

  // RegisterPacketSink under a handle that was never used before.
  function Register(s: State, handle: Handle, capacity: nat): State {
    if capacity == 0 || s.base.closed || handle in s.sinks then s
    else s.(sinks := s.sinks[handle := NewSink(capacity)])
  }

  function Unregister(s: State, handle: Handle): State {
    if !Open(s, handle) then s
    else
      s.(sinks := s.sinks[handle := s.sinks[handle].(registered := false)],
         waiters := map op | op in s.waiters && s.waiters[op].handle != handle :: s.waiters[op],
         base := s.base.(operations := map op | op in s.base.operations
             && !(op in s.waiters && s.waiters[op].handle == handle && Holds(s.base, op, PacketWrite))
             :: s.base.operations[op]))
  }

  function TryWrite(s: State, handle: Handle, packet: Packet): (State, Option<CallError>) {
    if !Open(s, handle) then (s, Some(Invalid))
    else if |s.sinks[handle].packets| >= s.sinks[handle].capacity then (s, Some(WouldBlock))
    else (s.(sinks := s.sinks[handle := Push(s.sinks[handle], packet)]), None)
  }

  function StartReady(s: State, handle: Handle, op: OpId): (State, Option<CallError>) {
    if !Open(s, handle) then (s, Some(Invalid))
    else
      match Claim(s.base, op, PacketWrite)
      case None => (s, Some(Invalid))
      case Some(b) =>
        var ready := |s.sinks[handle].packets| < s.sinks[handle].capacity;
        (s.(base := Owe(b, ready), waiters := s.waiters[op := Waiter(handle, ready)]), None)
  }

  function TakeReady(s: State, op: OpId): (State, Option<CallError>) {
    if op !in s.waiters || !Holds(s.base, op, PacketWrite) then (s, Some(Invalid))
    else if !s.waiters[op].ready then (s, Some(Pending))
    else (s.(waiters := s.waiters - {op}, base := Release(s.base, op, PacketWrite)), None)
  }

  function CancelReady(s: State, op: OpId): State {
    if op !in s.waiters || !Holds(s.base, op, PacketWrite) then s
    else s.(waiters := s.waiters - {op}, base := Release(s.base, op, PacketWrite))
  }

  function BeginReceive(s: State, thread: Thread, handle: Handle): State {
    if thread in s.receivers then s else s.(receivers := s.receivers[thread := Checking(handle)])
  }

  datatype CheckResult = Sleep | Closed | Taken(packet: Packet)

  predicate HasWaiter(s: State, handle: Handle) {
    exists op | op in s.waiters :: s.waiters[op].handle == handle
  }

  // One turn of the loop of ReceivePacket, up to the select.
  function Check(s: State, thread: Thread): (State, CheckResult) {
    if thread !in s.receivers || !s.receivers[thread].Checking? then (s, Sleep)
    else
      var handle := s.receivers[thread].handle;
      if !Open(s, handle) then (s.(receivers := s.receivers - {thread}), Closed)
      else if s.sinks[handle].packets == [] then
        (s.(receivers := s.receivers[thread := Waiting(handle)]), Sleep)
      else
        (s.(base := Owe(s.base, HasWaiter(s, handle)),
            sinks := s.sinks[handle := Pop(s.sinks[handle])],
            waiters := Wake(s.waiters, handle),
            receivers := s.receivers - {thread}), Taken(s.sinks[handle].packets[0]))
  }

  // The select receives the token of the sink.
  function WakeUp(s: State, thread: Thread): State {
    if thread in s.receivers && s.receivers[thread].Waiting? && s.receivers[thread].handle in s.sinks
       && s.sinks[s.receivers[thread].handle].token
    then
      var handle := s.receivers[thread].handle;
      s.(receivers := s.receivers[thread := Checking(handle)],
         sinks := s.sinks[handle := s.sinks[handle].(token := false)])
    else s
  }

  // The select takes another branch: the sink, the reactor or the caller's context is done.
  function Leave(s: State, thread: Thread): State {
    if thread in s.receivers && s.receivers[thread].Waiting? then s.(receivers := s.receivers - {thread}) else s
  }

  function Pay1(s: State, handle: Handle): State {
    if handle !in s.sinks then s else s.(sinks := s.sinks[handle := PayToken(s.sinks[handle])])
  }

  function CloseAll(s: State): State {
    if s.base.closed then s
    else s.(base := s.base.(closed := true, operations := map[]),
            sinks := map h | h in s.sinks :: s.sinks[h].(registered := false),
            waiters := map[])
  }

  function Consume(s: State): State {
    if !s.base.token then s
    else s.(base := s.base.(token := false), seen := set op | op in s.waiters && s.waiters[op].ready)
  }

  function Prune(s: State): State {
    s.(seen := set op | op in s.seen && op in s.waiters && s.waiters[op].ready)
  }

  datatype Step =
    | DoRegister(handle: Handle, capacity: nat)
    | DoUnregister(handle: Handle)
    | DoTryWrite(handle: Handle, packet: Packet)
    | DoPayToken(handle: Handle)
    | DoStartReady(handle: Handle, op: OpId)
    | DoTakeReady(op: OpId)
    | DoCancel(op: OpId)
    | DoBegin(thread: Thread, handle: Handle)
    | DoCheck(thread: Thread)
    | DoWakeUp(thread: Thread)
    | DoLeave(thread: Thread)
    | DoCloseAll
    | DoSignal
    | DoConsume
    | Other(operations: map<OpId, Kind>, promised: nat)

  ghost function Act(s: State, e: Step): State {
    match e
    case DoRegister(h, capacity) => Register(s, h, capacity)
    case DoUnregister(h) => Unregister(s, h)
    case DoTryWrite(h, p) => TryWrite(s, h, p).0
    case DoPayToken(h) => Pay1(s, h)
    case DoStartReady(h, op) => StartReady(s, h, op).0
    case DoTakeReady(op) => TakeReady(s, op).0
    case DoCancel(op) => CancelReady(s, op)
    case DoBegin(x, h) => BeginReceive(s, x, h)
    case DoCheck(x) => Check(s, x).0
    case DoWakeUp(x) => WakeUp(s, x)
    case DoLeave(x) => Leave(s, x)
    case DoCloseAll => CloseAll(s)
    case DoSignal => s.(base := Pay(s.base))
    case DoConsume => Consume(s)
    case Other(ops, promised) => s.(base := Interfere(PacketWrite, s.base, ops, promised))
  }

  ghost function Apply(s: State, e: Step): State {
    Prune(Act(s, e))
  }

  ghost function Run(es: seq<Step>): State {
    if es == [] then Init else Apply(Run(es[..|es| - 1]), es[|es| - 1])
  }

  // ---------------------------------------------------------------- invariants

  ghost predicate SinkOk(k: Sink) {
    && 0 < k.capacity
    && |k.packets| <= k.capacity
    && k.received + k.packets == k.accepted
  }

  ghost predicate Claims(s: State) {
    && (forall op | op in s.waiters :: Holds(s.base, op, PacketWrite))
    && (forall op | op in s.base.operations && s.base.operations[op] == PacketWrite :: op in s.waiters)
    && (s.base.closed ==> s.waiters == map[] && s.base.operations == map[])
  }

  // A waiter that is not ready waits for a full queue.
  ghost predicate WaitersOk(s: State) {
    forall op | op in s.waiters ::
      && Open(s, s.waiters[op].handle)
      && (!s.waiters[op].ready ==> var k := s.sinks[s.waiters[op].handle]; |k.packets| >= k.capacity)
  }

  ghost predicate Inv(s: State) {
    && Claims(s)
    && WaitersOk(s)
    && (forall h | h in s.sinks :: SinkOk(s.sinks[h]))
  }

  ghost predicate Announced(s: State) {
    forall op | op in s.waiters && s.waiters[op].ready :: Signalled(s.base) || op in s.seen
  }

  lemma PushPopOk(k: Sink, p: Packet)
    requires SinkOk(k)
    ensures |k.packets| < k.capacity ==> SinkOk(Push(k, p))
    ensures k.packets != [] ==> SinkOk(Pop(k))
  {
    assert k.received + (k.packets + [p]) == k.received + k.packets + [p];
    if k.packets != [] {
      assert k.received + [k.packets[0]] + k.packets[1..] == k.received + k.packets;
    }
  }

  lemma ActClaims(s: State, e: Step)
    requires Claims(s)
    ensures Claims(Act(s, e))
  {
    hide HasWaiter;
  }

  lemma CheckWaiters(s: State, x: Thread)
    requires WaitersOk(s)
    ensures WaitersOk(Check(s, x).0)
  {
    hide HasWaiter;
  }

  lemma SinkWaiters(s: State, e: Step)
    requires WaitersOk(s) && (e.DoRegister? || e.DoUnregister? || e.DoTryWrite? || e.DoPayToken? || e.DoWakeUp?)
    ensures WaitersOk(Act(s, e))
  {}

  lemma ActWaiters(s: State, e: Step)
    requires WaitersOk(s)
    ensures WaitersOk(Act(s, e))
  {
    if e.DoCheck? {
      CheckWaiters(s, e.thread);
    } else if e.DoRegister? || e.DoUnregister? || e.DoTryWrite? || e.DoPayToken? || e.DoWakeUp? {
      SinkWaiters(s, e);
    }
  }

  // Only these steps put packets in or take them out.
  lemma TryWriteSinks(s: State, at: Handle, packet: Packet, h: Handle)
    requires h in s.sinks && SinkOk(s.sinks[h])
    ensures h in TryWrite(s, at, packet).0.sinks && SinkOk(TryWrite(s, at, packet).0.sinks[h])
  {
    PushPopOk(s.sinks[h], packet);
    hide SinkOk, Push;
  }

  lemma CheckSinks(s: State, x: Thread, h: Handle)
    requires h in s.sinks && SinkOk(s.sinks[h])
    ensures h in Check(s, x).0.sinks && SinkOk(Check(s, x).0.sinks[h])
  {
    PushPopOk(s.sinks[h], []);
    hide SinkOk, Pop, HasWaiter, Wake;
  }

  lemma OtherSinks(s: State, e: Step, h: Handle)
    requires !e.DoTryWrite? && !e.DoCheck? && h in Act(s, e).sinks && (h in s.sinks ==> SinkOk(s.sinks[h]))
    ensures SinkOk(Act(s, e).sinks[h])
  {
    hide Interfere;
  }

  lemma ActSinks(s: State, e: Step, h: Handle)
    requires (forall h | h in s.sinks :: SinkOk(s.sinks[h])) && h in Act(s, e).sinks
    ensures SinkOk(Act(s, e).sinks[h])
  {
    hide SinkOk, TryWrite, Check;
    if e.DoTryWrite? {
      TryWriteKeys(s, e.handle, e.packet);
      TryWriteSinks(s, e.handle, e.packet, h);
    } else if e.DoCheck? {
      CheckKeys(s, e.thread);
      CheckSinks(s, e.thread, h);
    } else {
      OtherSinks(s, e, h);
      hide Act;
    }
  }

  lemma TryWriteKeys(s: State, at: Handle, packet: Packet)
    ensures TryWrite(s, at, packet).0.sinks.Keys == s.sinks.Keys
  {}

  lemma CheckKeys(s: State, x: Thread)
    ensures Check(s, x).0.sinks.Keys == s.sinks.Keys
  {
    hide HasWaiter, Wake, Pop;
  }

  lemma ActInv(s: State, e: Step)
    requires Inv(s)
    ensures Inv(Act(s, e))
  {
    ActClaims(s, e);
    ActWaiters(s, e);
    forall h | h in Act(s, e).sinks ensures SinkOk(Act(s, e).sinks[h]) {
      ActSinks(s, e, h);
    }
    hide Claims, WaitersOk, Act;
  }

  // A step drops no signal, and whatever it makes ready it also announces.
  ghost predicate Covers(s: State, t: State) {
    && (Signalled(s.base) ==> Signalled(t.base))
    && t.seen == s.seen
    && forall op | op in t.waiters && t.waiters[op].ready :: Signalled(t.base) || (op in s.waiters && s.waiters[op].ready)
  }

  lemma ActCovers(s: State, e: Step)
    requires !e.DoConsume?
    ensures Covers(s, Act(s, e))
  {}

  lemma CoveredAnnounced(s: State, t: State)
    requires Announced(s) && Covers(s, t)
    ensures Announced(Prune(t))
  {}

  lemma PruneInv(s: State)
    requires Inv(s)
    ensures Inv(Prune(s))
  {
    hide SinkOk;
  }

  lemma ApplyInv(s: State, e: Step)
    requires Inv(s) && Announced(s)
    ensures Inv(Apply(s, e)) && Announced(Apply(s, e))
  {
    ActInv(s, e);
    PruneInv(Act(s, e));
    if e.DoConsume? {
      ConsumeAnnounced(s);
    } else {
      ActCovers(s, e);
      CoveredAnnounced(s, Act(s, e));
    }
    hide Act, Inv, Announced, Prune;
  }

  lemma ConsumeAnnounced(s: State)
    requires Announced(s)
    ensures Announced(Apply(s, DoConsume))
  {}

  lemma {:induction false} RunInv(es: seq<Step>)
    ensures Inv(Run(es)) && Announced(Run(es))
  {
    if es == [] {
    } else {
      RunInv(es[..|es| - 1]);
      ApplyInv(Run(es[..|es| - 1]), es[|es| - 1]);
    }
  }

  // ---------------------------------------------------------------- what every run guarantees

  /** The queue of a sink never exceeds its capacity, and what was received, then what is
      queued, is what was accepted. */
  lemma PacketsConserved(es: seq<Step>, h: Handle)
    requires h in Run(es).sinks
    ensures var k := Run(es).sinks[h];
      0 < k.capacity && |k.packets| <= k.capacity && k.received + k.packets == k.accepted
  {
    RunInv(es);
    hide Run;
  }

  /** The logs are the calls: TryPacketWrite records the packet it accepts, and ReceivePacket
      the one it returns. */
  lemma PacketLogsAreCalls(s: State, e: Step, h: Handle)
    requires h in s.sinks
    ensures h in Apply(s, e).sinks
    ensures var (k, t) := (s.sinks[h], Apply(s, e).sinks[h]);
      && t.accepted == (if e.DoTryWrite? && e.handle == h && TryWrite(s, h, e.packet).1 == None then k.accepted + [e.packet] else k.accepted)
      && t.received == (if e.DoCheck? && e.thread in s.receivers && s.receivers[e.thread].handle == h && Check(s, e.thread).1.Taken?
                        then k.received + [Check(s, e.thread).1.packet] else k.received)
  {
    hide HasWaiter, Interfere;
  }

  /** A write waiter that is not ready waits for a sink that is open and full, so a later
      receive is bound to find it. */
  lemma NotReadyMeansFull(es: seq<Step>, op: OpId)
    requires op in Run(es).waiters && !Run(es).waiters[op].ready
    ensures var s := Run(es); var h := s.waiters[op].handle;
      Open(s, h) && |s.sinks[h].packets| == s.sinks[h].capacity
  {
    RunInv(es);
    hide Run;
  }

  /** No wakeup is lost: a ready write waiter has had a token received since it became
      ready, or the token is there, or a thread is about to send it. */
  lemma NoPacketWakeupLost(es: seq<Step>, op: OpId)
    requires op in Run(es).waiters && Run(es).waiters[op].ready
    ensures Signalled(Run(es).base) || op in Run(es).seen
  {
    RunInv(es);
    hide Run, Inv;
  }

  // ---------------------------------------------------------------- receivers

  predicate On(s: State, x: Thread, h: Handle) {
    x in s.receivers && s.receivers[x].handle == h
  }

  // At most one thread is inside ReceivePacket for the sink.
  ghost predicate Alone(s: State, h: Handle) {
    forall x, y | x in s.receivers && y in s.receivers && On(s, x, h) && On(s, y, h) :: x == y
  }

  ghost predicate AlwaysAlone(es: seq<Step>, h: Handle) {
    forall k | 0 <= k <= |es| :: Alone(Run(es[..k]), h)
  }

  // A thread of the sink is about to lock, and will take a packet if there is one.
  ghost predicate Attended(s: State, h: Handle) {
    exists y :: y in s.receivers && s.receivers[y] == Checking(h)
  }

  // The thread sleeps although the sink is open and holds a packet, and nothing is going to
  // wake it: no token is there or promised, and nobody is about to look.
  ghost predicate Missed(s: State, x: Thread) {
    && x in s.receivers && s.receivers[x].Waiting?
    && var h := s.receivers[x].handle;
    && Open(s, h) && var k := s.sinks[h];
    k.packets != [] && !k.token && k.owes == 0 && !Attended(s, h)
  }

  /** What makes a thread miss a packet, seen before the step: another thread takes one of two
      or more, no token is there or promised, and no third thread is about to look. */
  ghost predicate Deserts(s: State, e: Step, x: Thread) {
    && e.DoCheck? && e.thread in s.receivers && s.receivers[e.thread].Checking?
    && var h := s.receivers[e.thread].handle;
    && x in s.receivers && s.receivers[x] == Waiting(h)
    && Open(s, h) && var k := s.sinks[h];
    && |k.packets| >= 2 && !k.token && k.owes == 0
    && forall y :: y in s.receivers && s.receivers[y] == Checking(h) ==> y == e.thread
  }

  lemma CheckDeserts(s: State, y: Thread, x: Thread)
    requires !Missed(s, x)
    ensures Missed(Apply(s, DoCheck(y)), x) <==> Deserts(s, DoCheck(y), x)
  {
    hide HasWaiter;
    var t := Apply(s, DoCheck(y));
    if x in s.receivers && y in s.receivers && x != y && s.receivers[y].Checking? {
      assert x in t.receivers && t.receivers[x] == s.receivers[x];
      OnlyOneChecks(s, t, y, s.receivers[x].handle);
    }
  }

  lemma OnlyOneChecks(s: State, t: State, y: Thread, h: Handle)
    requires y in s.receivers && s.receivers[y].Checking?
    requires t.receivers == s.receivers - {y} || t.receivers == s.receivers[y := Waiting(s.receivers[y].handle)]
    ensures Attended(t, h) <==> exists z :: z in s.receivers && z != y && s.receivers[z] == Checking(h)
  {
    if z :| z in s.receivers && z != y && s.receivers[z] == Checking(h) {
      assert z in t.receivers && t.receivers[z] == Checking(h);
    }
    if Attended(t, h) {
      var z :| z in t.receivers && t.receivers[z] == Checking(h);
      assert z in s.receivers && z != y && s.receivers[z] == Checking(h);
    }
  }

  lemma WakeUpServes(s: State, y: Thread, x: Thread)
    requires !Missed(s, x)
    ensures !Missed(Apply(s, DoWakeUp(y)), x)
  {
    var t := Apply(s, DoWakeUp(y));
    if y in t.receivers && t.receivers[y].Checking? {
      assert Attended(t, t.receivers[y].handle);
    }
    SameChecks(s, t, x);
  }

  // A step that loses no looking thread, no token and no promise, and adds no packet, misses nobody.
  lemma SameChecks(s: State, t: State, x: Thread)
    requires forall y :: y in s.receivers && s.receivers[y].Checking? ==> y in t.receivers && t.receivers[y] == s.receivers[y]
    ensures forall h :: Attended(s, h) ==> Attended(t, h)
  {
    forall h | Attended(s, h) ensures Attended(t, h) {
      var y :| y in s.receivers && s.receivers[y] == Checking(h);
      assert y in t.receivers && t.receivers[y] == Checking(h);
    }
  }

  lemma OthersServe(s: State, e: Step, x: Thread)
    requires !Missed(s, x) && !e.DoCheck? && !e.DoWakeUp?
    ensures !Missed(Apply(s, e), x)
  {
    hide HasWaiter, Interfere;
    SameChecks(s, Apply(s, e), x);
    hide Attended;
  }

  /** Exactly which step makes a thread miss a packet. */
  lemma MissedByCheckOnly(s: State, e: Step, x: Thread)
    requires !Missed(s, x)
    ensures Missed(Apply(s, e), x) <==> Deserts(s, e, x)
  {
    if e.DoCheck? {
      CheckDeserts(s, e.thread, x);
    } else {
      hide Missed;
      if e.DoWakeUp? { WakeUpServes(s, e.thread, x); } else { OthersServe(s, e, x); }
    }
  }

  ghost predicate DesertsNobody(s: State, e: Step) {
    forall x :: !Deserts(s, e, x)
  }

  // After every step of the run no thread misses a packet.
  ghost predicate AlwaysServed(es: seq<Step>) {
    es == [] || (AlwaysServed(es[..|es| - 1]) && forall x :: !Missed(Run(es), x))
  }

  // No step of the run deserts a sleeping thread.
  ghost predicate NeverDeserts(es: seq<Step>) {
    es == [] || (NeverDeserts(es[..|es| - 1]) && DesertsNobody(Run(es[..|es| - 1]), es[|es| - 1]))
  }

  /** So over a whole run no receiver sleeps through a packet if and only if none takes one of
      two or more under those conditions. */
  lemma {:induction false} ServedUnlessDeserted(es: seq<Step>)
    ensures AlwaysServed(es) <==> NeverDeserts(es)
  {
    if es != [] {
      var before, e := es[..|es| - 1], es[|es| - 1];
      ServedUnlessDeserted(before);
      if AlwaysServed(before) {
        forall x ensures Missed(Run(es), x) <==> Deserts(Run(before), e, x) {
          NoneMissed(before, x);
          MissedByCheckOnly(Run(before), e, x);
        }
      }
      hide Run, Missed, Deserts;
    }
  }

  lemma NoneMissed(es: seq<Step>, x: Thread)
    requires AlwaysServed(es)
    ensures !Missed(Run(es), x)
  {}

  lemma DesertsNeedsRoom(s: State, e: Step, x: Thread)
    requires Inv(s) && Deserts(s, e, x)
    ensures s.receivers[x].handle in s.sinks && s.sinks[s.receivers[x].handle].capacity >= 2
    ensures !Alone(s, s.receivers[x].handle)
  {
    assert On(s, x, s.receivers[x].handle) && On(s, e.thread, s.receivers[x].handle);
  }

  /** On a sink for one packet no receiver ever misses one, however many there are. */
  lemma {:induction false} OnePacketSinkServesAll(es: seq<Step>, x: Thread)
    requires x in Run(es).receivers && var h := Run(es).receivers[x].handle; h in Run(es).sinks && Run(es).sinks[h].capacity == 1
    ensures !Missed(Run(es), x)
  {
    if es != [] {
      var before, e := es[..|es| - 1], es[|es| - 1];
      RunInv(before);
      if Missed(Run(es), x) {
        MissedBefore(Run(before), e, x);
        HandleStays(Run(before), e, x);
        CapacityStays(Run(before), e, Run(before).receivers[x].handle);
        hide Inv, Announced, Apply;
        OnePacketSinkServesAll(before, x);
      }
    }
  }

  // A miss on a small sink goes back to an earlier one.
  lemma MissedBefore(s: State, e: Step, x: Thread)
    requires Inv(s) && Missed(Apply(s, e), x)
    requires Apply(s, e).sinks[Apply(s, e).receivers[x].handle].capacity == 1
    ensures Missed(s, x)
  {
    if !Missed(s, x) {
      MissedByCheckOnly(s, e, x);
      DesertsNeedsRoom(s, e, x);
      HandleStays(s, e, x);
      CapacityStays(s, e, s.receivers[x].handle);
    }
  }

  lemma CapacityStays(s: State, e: Step, h: Handle)
    requires h in s.sinks
    ensures h in Apply(s, e).sinks && Apply(s, e).sinks[h].capacity == s.sinks[h].capacity
  {
    hide HasWaiter, Interfere;
  }

  lemma HandleStays(s: State, e: Step, x: Thread)
    requires x in s.receivers && x in Apply(s, e).receivers
    ensures Apply(s, e).receivers[x].handle == s.receivers[x].handle
  {
    hide HasWaiter, Interfere;
  }

  /** A receiver that has the sink to itself never misses a packet. */
  lemma {:induction false} SingleReceiverNeverMisses(es: seq<Step>, x: Thread, h: Handle)
    requires AlwaysAlone(es, h) && x in Run(es).receivers && On(Run(es), x, h)
    ensures !Missed(Run(es), x)
  {
    if es != [] {
      var before, e := es[..|es| - 1], es[|es| - 1];
      AlonePrefix(es, h);
      if Missed(Run(before), x) {
        HandleStays(Run(before), e, x);
        SingleReceiverNeverMisses(before, x, h);
      } else {
        MissedByCheckOnly(Run(before), e, x);
        if Deserts(Run(before), e, x) {
          HandleStays(Run(before), e, x);
          RunInv(before);
          DesertsNeedsRoom(Run(before), e, x);
        }
      }
      hide Apply, Missed;
    }
  }

  lemma AlonePrefix(es: seq<Step>, h: Handle)
    requires AlwaysAlone(es, h) && es != []
    ensures AlwaysAlone(es[..|es| - 1], h) && Alone(Run(es[..|es| - 1]), h)
  {
    hide Alone, Run;
    var before := es[..|es| - 1];
    forall k | 0 <= k <= |before| ensures Alone(Run(before[..k]), h) {
      assert before[..k] == es[..k];
    }
    assert before[..|before|] == before;
  }

  lemma RunSnoc(es: seq<Step>, e: Step)
    ensures Run(es + [e]) == Apply(Run(es), e)
  {
    assert (es + [e])[..|es|] == es;
  }

  // Two threads sleep on the sink, the second perhaps woken, and no other is about to look.
  ghost predicate Pair(s: State, h: Handle, x: Thread, y: Thread, woken: bool, queued: nat, token: bool, owes: nat) {
    && x != y && Open(s, h) && |s.sinks[h].packets| == queued && s.sinks[h].token == token && s.sinks[h].owes == owes
    && x in s.receivers && s.receivers[x] == Waiting(h)
    && y in s.receivers && s.receivers[y] == (if woken then Checking(h) else Waiting(h))
    && forall z :: z in s.receivers && s.receivers[z] == Checking(h) ==> z == y
  }

  lemma PairWrites(s: State, h: Handle, x: Thread, y: Thread, queued: nat, token: bool, p: Packet)
    requires Pair(s, h, x, y, false, queued, token, 0) && queued < s.sinks[h].capacity
    ensures var t := Apply(Apply(s, DoTryWrite(h, p)), DoPayToken(h));
            Pair(t, h, x, y, false, queued + 1, true, 0) && t.sinks[h].capacity == s.sinks[h].capacity
  {}

  lemma PairWakes(s: State, h: Handle, x: Thread, y: Thread, queued: nat)
    requires Pair(s, h, x, y, false, queued, true, 0)
    ensures Pair(Apply(s, DoWakeUp(y)), h, x, y, true, queued, false, 0)
  {}

  /** Two sleepers on an idle sink with room for two packets are one too many: two packets can
      come, one token for both, and the one it wakes leaves the other asleep beside the second. */
  lemma SecondSleeperCanMiss(es: seq<Step>, h: Handle, x: Thread, y: Thread, p: Packet, q: Packet)
    requires Pair(Run(es), h, x, y, false, 0, false, 0) && Run(es).sinks[h].capacity >= 2
    ensures Missed(Run(es + [DoTryWrite(h, p)] + [DoPayToken(h)] + [DoTryWrite(h, q)] + [DoPayToken(h)] + [DoWakeUp(y)] + [DoCheck(y)]), x)
  {
    var e1 := es + [DoTryWrite(h, p)] + [DoPayToken(h)];
    var e2 := e1 + [DoTryWrite(h, q)] + [DoPayToken(h)];
    RunSnoc(es, DoTryWrite(h, p));
    RunSnoc(es + [DoTryWrite(h, p)], DoPayToken(h));
    RunSnoc(e1, DoTryWrite(h, q));
    RunSnoc(e1 + [DoTryWrite(h, q)], DoPayToken(h));
    RunSnoc(e2, DoWakeUp(y));
    RunSnoc(e2 + [DoWakeUp(y)], DoCheck(y));
    PairWrites(Run(es), h, x, y, 0, false, p);
    PairWrites(Run(e1), h, x, y, 1, true, q);
    PairWakes(Run(e2), h, x, y, 2);
    var s := Run(e2 + [DoWakeUp(y)]);
    hide Run, Apply;
    assert Deserts(s, DoCheck(y), x);
    PairNotMissed(s, h, x, y);
    MissedByCheckOnly(s, DoCheck(y), x);
  }

  lemma PairNotMissed(s: State, h: Handle, x: Thread, y: Thread)
    requires Pair(s, h, x, y, true, 2, false, 0)
    ensures !Missed(s, x)
  {
    assert s.receivers[y] == Checking(h);
  }

  /** Such sleepers there are: here two receivers find a sink for two empty. */
  lemma TwoReceiversMiss()
    ensures exists es :: Missed(Run(es), 11)
  {
    var asleep := TwoAsleep();
    SecondSleeperCanMiss(asleep, 1, 11, 10, [], []);
  }

  // Two receivers find the sink empty and fall asleep.
  lemma TwoAsleep() returns (es: seq<Step>)
    ensures Run(es) == State(Core.Fresh, map[1 := NewSink(2)], map[], map[10 := Waiting(1), 11 := Waiting(1)], {})
  {
    var a, b, c, d, e := DoRegister(1, 2), DoBegin(10, 1), DoCheck(10), DoBegin(11, 1), DoCheck(11);
    es := [] + [a] + [b] + [c] + [d] + [e];
    RunSnoc([], a);
    RunSnoc([] + [a], b);
    RunSnoc([] + [a] + [b], c);
    RunSnoc([] + [a] + [b] + [c], d);
    RunSnoc([] + [a] + [b] + [c] + [d], e);
    var sinks := map[1 := NewSink(2)];
    assert Run([] + [a]) == State(Core.Fresh, sinks, map[], map[], {});
    assert Run([] + [a] + [b]) == State(Core.Fresh, sinks, map[], map[10 := Checking(1)], {});
    assert Run([] + [a] + [b] + [c]) == State(Core.Fresh, sinks, map[], map[10 := Waiting(1)], {});
    assert Run([] + [a] + [b] + [c] + [d]) == State(Core.Fresh, sinks, map[], map[10 := Waiting(1), 11 := Checking(1)], {});
  }
}

/** Accepting on a TCP listener: one connection at a time is fetched for waiters that
    are woken together (internal/reactor/listener.go). */
module Accept {
  import opened Core

  type Ref = Serial
  type Connection = nat

  // What one Accept call of the listener comes to.
  datatype Arrival = Got(connection: Connection) | Lost(error: IoError)

  /** listenerState.  `handle` is the name its worker was started with; `arrived` and
      `taken` record what came in and what was handed out, connections and errors alike. */
  datatype Side = Side(
    handle: Handle,
    accepted: seq<Connection>,
    running: bool,
    err: Option<IoError>,
    worker: bool,
    arrived: seq<Arrival>,
    taken: seq<Arrival>)

  function NewSide(handle: Handle): Side {
    Side(handle, [], false, None, false, [], [])
  }

  function Launch(d: Side, start: bool): Side {
    if start then d.(running := true, worker := true) else d
  }

  predicate Loaded(d: Side) {
    d.accepted != [] || d.err.Some?
  }

  // The worker publishes one result and ends.
  function Store(d: Side, a: Arrival): Side {
    var ended := d.(running := false, worker := false);
    match a
    case Got(c) => ended.(accepted := d.accepted + [c], arrived := d.arrived + [a])
    case Lost(e) => ended.(err := Some(e), arrived := d.arrived + [a])
  }

  function TakeFirst(d: Side): Side
    requires d.accepted != []
  {
    d.(accepted := d.accepted[1..], taken := d.taken + [Got(d.accepted[0])])
  }

  function Tell(d: Side): Side {
    d.(err := None, taken := if d.err.Some? then d.taken + [Lost(d.err.value)] else d.taken)
  }

  // What is stored and not yet handed out.
  function Held(d: Side): seq<Arrival> {
    (if d.accepted == [] then [] else [Got(d.accepted[0])]) + (if d.err.Some? then [Lost(d.err.value)] else [])
  }

  // ---------------------------------------------------------------- the whole table

  datatype State = State(
    base: Base,
    listeners: map<Handle, Ref>,
    owners: map<Handle, Ref>,
    sides: map<Ref, Side>,
    waiters: map<OpId, Waiter>,
    seen: set<OpId>)

  const Init := State(Core.Fresh, map[], map[], map[], map[], {})

  predicate HasWaiter(s: State, handle: Handle) {
    exists op | op in s.waiters :: s.waiters[op].handle == handle
  }

  predicate Live(s: State, ref: Ref) {
    ref in s.sides && s.sides[ref].handle in s.listeners && s.listeners[s.sides[ref].handle] == ref
  }

  function StartAccept(s: State, handle: Handle, op: OpId): (State, Option<CallError>) {
    if handle !in s.listeners || s.listeners[handle] !in s.sides then (s, Some(Invalid))
    else
      match Claim(s.base, op, Kind.Accept)
      case None => (s, Some(Invalid))
      case Some(b) =>
        var ref := s.listeners[handle];
        var d := s.sides[ref];
        (s.(base := Owe(b, Loaded(d)),
            waiters := s.waiters[op := Waiter(handle, Loaded(d))],
            sides := s.sides[ref := Launch(d, !Loaded(d) && !d.running)]), None)
  }

  // The critical section of runTCPAccept, which always signals afterwards.
  function Publish(s: State, ref: Ref, a: Arrival): State {
    if ref !in s.sides || !s.sides[ref].worker then s
    else if !Live(s, ref) then s.(sides := s.sides[ref := s.sides[ref].(worker := false)])
    else
      var handle := s.sides[ref].handle;
      s.(base := Owe(s.base, true),
         waiters := Wake(s.waiters, handle),
         sides := s.sides[ref := Store(s.sides[ref], a)])
  }

  datatype TakeResult = Failed(error: CallError) | Broken(cause: IoError) | Taken(connection: Connection)

  // What such an answer hands out.
  function Handed(r: TakeResult): seq<Arrival> {
    match r
    case Failed(_) => []
    case Broken(e) => [Lost(e)]
    case Taken(c) => [Got(c)]
  }

  function TakeAccept(s: State, op: OpId): (State, TakeResult) {
    if op !in s.waiters || !Holds(s.base, op, Kind.Accept) then (s, Failed(Invalid))
    else
      var handle := s.waiters[op].handle;
      var t := s.(waiters := s.waiters - {op}, base := Release(s.base, op, Kind.Accept));
      if handle !in s.listeners || s.listeners[handle] !in s.sides then (t, Failed(Invalid))
      else
        var ref := s.listeners[handle];
        var d := s.sides[ref];
        var more := HasWaiter(t, handle);
        if d.accepted == [] then
          if d.err == None then (s, Failed(Pending))
          else (t.(sides := s.sides[ref := Launch(Tell(d), !d.running && more)]), Broken(d.err.value))
        else
          var rest := TakeFirst(d);
          (t.(sides := s.sides[ref := Launch(rest, rest.accepted == [] && !d.running && more)]),
           Taken(d.accepted[0]))
  }

  function CancelAccept(s: State, op: OpId): State {
    if op !in s.waiters || !Holds(s.base, op, Kind.Accept) then s
    else s.(waiters := s.waiters - {op}, base := Release(s.base, op, Kind.Accept))
  }

  // A listen stores a new listener under a handle that was never used before.
  function OpenListener(s: State, handle: Handle, ref: Ref): State {
    if s.base.closed || handle in s.owners || ref in s.sides then s
    else s.(listeners := s.listeners[handle := ref],
            owners := s.owners[handle := ref],
            sides := s.sides[ref := NewSide(handle)])
  }

  function CloseHandle(s: State, handle: Handle): State {
    s.(listeners := s.listeners - {handle})
  }

  function CloseAll(s: State): State {
    if s.base.closed then s
    else s.(base := s.base.(closed := true, operations := map[]), listeners := map[], waiters := map[])
  }

  // TakeAccept would hand something to this waiter of an open listener.
  predicate Takeable(s: State, op: OpId) {
    && op in s.waiters
    && s.waiters[op].handle in s.listeners
    && s.listeners[s.waiters[op].handle] in s.sides
    && Loaded(s.sides[s.listeners[s.waiters[op].handle]])
  }

  // TakeAccept would not leave this waiter pending: there is something to hand out, or its
  // handle is closed.
  predicate Answerable(s: State, op: OpId) {
    op in s.waiters && (s.waiters[op].handle !in s.listeners || Takeable(s, op))
  }

  function Consume(s: State): State {
    if !s.base.token then s
    else s.(base := s.base.(token := false), seen := set op | op in s.waiters && Answerable(s, op))
  }

  function Prune(s: State): State {
    s.(seen := set op | op in s.seen && Answerable(s, op))
  }

  datatype Step =
    | DoStart(handle: Handle, op: OpId)
    | DoPublish(ref: Ref, arrival: Arrival)
    | DoTake(op: OpId)
    | DoCancel(op: OpId)
    | DoOpen(handle: Handle, ref: Ref)
    | DoCloseHandle(handle: Handle)
    | DoCloseAll
    | DoSignal
    | DoConsume
    | Other(operations: map<OpId, Kind>, promised: nat)

  ghost function Act(s: State, e: Step): State {
    match e
    case DoStart(h, op) => StartAccept(s, h, op).0
    case DoPublish(ref, a) => Publish(s, ref, a)
    case DoTake(op) => TakeAccept(s, op).0
    case DoCancel(op) => CancelAccept(s, op)
    case DoOpen(h, ref) => OpenListener(s, h, ref)
    case DoCloseHandle(h) => CloseHandle(s, h)
    case DoCloseAll => CloseAll(s)
    case DoSignal => s.(base := Pay(s.base))
    case DoConsume => Consume(s)
    case Other(ops, promised) => s.(base := Interfere(Kind.Accept, s.base, ops, promised))
  }

  ghost function Apply(s: State, e: Step): State {
    Prune(Act(s, e))
  }

  ghost function Run(es: seq<Step>): State {
    if es == [] then Init else Apply(Run(es[..|es| - 1]), es[|es| - 1])
  }

  // ---------------------------------------------------------------- invariants

  // A listener is fetching, or holds one connection, or holds one error, or is idle.
  ghost predicate Exclusive(d: Side) {
    && |d.accepted| <= 1
    && !(d.running && d.accepted != [])
    && !(d.running && d.err.Some?)
    && !(d.accepted != [] && d.err.Some?)
  }

  ghost predicate SideOk(d: Side) {
    Exclusive(d) && (d.worker ==> d.running) && d.taken + Held(d) == d.arrived
  }

  ghost predicate RefOk(s: State, ref: Ref)
    requires ref in s.sides
  {
    var d := s.sides[ref];
    && SideOk(d)
    && d.handle in s.owners && s.owners[d.handle] == ref
    && (Live(s, ref) ==> d.worker == d.running)
    && (Live(s, ref) && HasWaiter(s, d.handle) ==> d.running || Loaded(d))
  }

  ghost predicate Shape(s: State) {
    && (forall h | h in s.listeners :: h in s.owners && s.owners[h] == s.listeners[h])
    && (forall h | h in s.owners :: s.owners[h] in s.sides && s.sides[s.owners[h]].handle == h)
    && (forall op | op in s.waiters :: Holds(s.base, op, Kind.Accept) && s.waiters[op].handle in s.owners)
    && (forall op | op in s.base.operations && s.base.operations[op] == Kind.Accept :: op in s.waiters)
    && (s.base.closed ==> s.waiters == map[] && s.listeners == map[] && s.base.operations == map[])
  }

  ghost predicate Inv(s: State) {
    && Shape(s)
    && (forall ref | ref in s.sides :: RefOk(s, ref))
  }

  ghost predicate Announced(s: State) {
    forall op | op in s.waiters && Takeable(s, op) :: Signalled(s.base) || op in s.seen
  }

  // ---------------------------------------------------------------- each step keeps the invariant

  lemma LaunchOk(d: Side, start: bool)
    requires SideOk(d) && (start ==> !Loaded(d))
    ensures SideOk(Launch(d, start))
  {}

  lemma StoreOk(d: Side, a: Arrival)
    requires SideOk(d) && d.running
    ensures SideOk(Store(d, a)) && Loaded(Store(d, a))
  {
    assert Held(d) == [] && Held(Store(d, a)) == [a];
  }

  lemma TakeFirstOk(d: Side)
    requires SideOk(d) && d.accepted != []
    ensures SideOk(TakeFirst(d)) && !d.running && !Loaded(TakeFirst(d))
  {
    assert Held(d) == [Got(d.accepted[0])] && Held(TakeFirst(d)) == [];
  }

  lemma TellOk(d: Side)
    requires SideOk(d) && d.err.Some?
    ensures SideOk(Tell(d)) && !d.running && !Loaded(Tell(d))
  {
    assert Held(d) == [Lost(d.err.value)] && Held(Tell(d)) == [];
  }

  lemma StartRef(s: State, h: Handle, op: OpId, ref: Ref)
    requires Inv(s) && ref in s.sides
    ensures RefOk(StartAccept(s, h, op).0, ref)
  {
    assert RefOk(s, ref);
    var t := StartAccept(s, h, op).0;
    if t != s {
      LaunchOk(s.sides[ref], !Loaded(s.sides[ref]));
      OneMoreWaiter(s, t, h, s.sides[ref].handle);
      hide SideOk;
    }
  }

  lemma OneMoreWaiter(s: State, t: State, h: Handle, handle: Handle)
    requires forall p | p in t.waiters && t.waiters[p].handle != h :: p in s.waiters && s.waiters[p] == t.waiters[p]
    ensures HasWaiter(t, handle) ==> HasWaiter(s, handle) || handle == h
  {}

  lemma SameWaiters(s: State, t: State, handle: Handle)
    requires forall op | op in t.waiters :: op in s.waiters && s.waiters[op].handle == t.waiters[op].handle
    ensures HasWaiter(t, handle) ==> HasWaiter(s, handle)
  {}

  lemma PublishRef(s: State, at: Ref, a: Arrival, ref: Ref)
    requires Inv(s) && ref in s.sides
    ensures RefOk(Publish(s, at, a), ref)
  {
    assert RefOk(s, ref);
    hide Inv, RefOk;
    if at != ref {
      PublishElsewhere(s, at, a, ref);
    } else if s.sides[ref].worker {
      PublishHere(s, ref, a);
    }
  }

  lemma PublishElsewhere(s: State, at: Ref, a: Arrival, ref: Ref)
    requires ref in s.sides && at != ref && RefOk(s, ref)
    ensures RefOk(Publish(s, at, a), ref)
  {
    SameWaiters(s, Publish(s, at, a), s.sides[ref].handle);
    hide SideOk, HasWaiter, Store, Wake;
  }

  lemma PublishHere(s: State, ref: Ref, a: Arrival)
    requires ref in s.sides && RefOk(s, ref) && s.sides[ref].worker
    ensures RefOk(Publish(s, ref, a), ref)
  {
    StoreOk(s.sides[ref], a);
    EndedOk(s.sides[ref]);
    hide SideOk, HasWaiter, Wake;
  }

  // A worker whose listener is gone just ends.
  lemma EndedOk(d: Side)
    requires SideOk(d)
    ensures SideOk(d.(worker := false)) && (d.worker ==> d.running)
  {}

  lemma TakeRef(s: State, op: OpId, ref: Ref)
    requires Inv(s) && ref in s.sides
    ensures RefOk(TakeAccept(s, op).0, ref)
  {
    assert RefOk(s, ref);
    var t := TakeAccept(s, op).0;
    if t != s {
      SameWaiters(s, t, s.sides[ref].handle);
      if Live(s, ref) && s.waiters[op].handle == s.sides[ref].handle {
        TakeHere(s, op, ref);
      } else {
        TakeElsewhere(s, op, ref);
      }
    }
  }

  lemma TakeElsewhere(s: State, op: OpId, ref: Ref)
    requires ref in s.sides && op in s.waiters
    requires s.waiters[op].handle in s.listeners ==> s.listeners[s.waiters[op].handle] != ref
    ensures var t := TakeAccept(s, op).0;
      ref in t.sides && t.sides[ref] == s.sides[ref] && t.listeners == s.listeners && t.owners == s.owners
  {
    hide HasWaiter;
  }

  lemma TakeHere(s: State, op: OpId, ref: Ref)
    requires ref in s.sides && RefOk(s, ref) && Live(s, ref) && op in s.waiters && s.waiters[op].handle == s.sides[ref].handle
    ensures ref in TakeAccept(s, op).0.sides && RefOk(TakeAccept(s, op).0, ref)
  {
    var d := s.sides[ref];
    var u := s.(waiters := s.waiters - {op}, base := Release(s.base, op, Kind.Accept));
    var more := HasWaiter(u, d.handle);
    if d.accepted != [] {
      TakeFirstOk(d);
      LaunchOk(TakeFirst(d), more);
    } else if d.err.Some? {
      TellOk(d);
      LaunchOk(Tell(d), more);
    }
    hide SideOk;
    AfterTake(s, op, ref);
  }

  // The waiters left are the ones the restart looked for.
  lemma AfterTake(s: State, op: OpId, ref: Ref)
    requires ref in s.sides && op in s.waiters && Live(s, ref) && s.waiters[op].handle == s.sides[ref].handle
    ensures var t := TakeAccept(s, op).0; t == s || t.waiters == s.waiters - {op}
  {
    hide HasWaiter;
  }

  lemma FewerRef(s: State, t: State, ref: Ref)
    requires Inv(s) && ref in s.sides && Shrinks(s, t)
    ensures RefOk(t, ref)
  {
    assert RefOk(s, ref);
    SameWaiters(s, t, s.sides[ref].handle);
  }

  lemma OpenRef(s: State, h: Handle, at: Ref, ref: Ref)
    requires Inv(s) && ref in OpenListener(s, h, at).sides
    ensures RefOk(OpenListener(s, h, at), ref)
  {
    var t := OpenListener(s, h, at);
    assert ref in s.sides ==> RefOk(s, ref);
    if t != s {
      assert !HasWaiter(t, h);
      SameWaiters(s, t, t.sides[ref].handle);
    }
  }

  lemma StartShape(s: State, h: Handle, op: OpId)
    requires Shape(s)
    ensures Shape(StartAccept(s, h, op).0) && StartAccept(s, h, op).0.sides.Keys == s.sides.Keys
  {}

  lemma PublishShape(s: State, ref: Ref, a: Arrival)
    requires Shape(s)
    ensures Shape(Publish(s, ref, a)) && Publish(s, ref, a).sides.Keys == s.sides.Keys
  {}

  // The tables after an operation is answered.
  ghost predicate Gives(s: State, t: State, op: OpId) {
    && t.base == Release(s.base, op, Kind.Accept) && t.waiters == s.waiters - {op}
    && t.listeners == s.listeners && t.owners == s.owners
    && t.sides.Keys == s.sides.Keys && (forall ref | ref in s.sides :: t.sides[ref].handle == s.sides[ref].handle)
  }

  lemma TakeGives(s: State, op: OpId)
    ensures TakeAccept(s, op).0 == s || Gives(s, TakeAccept(s, op).0, op)
  {
    hide HasWaiter, Loaded;
  }

  lemma GivesShape(s: State, t: State, op: OpId)
    requires Shape(s) && Gives(s, t, op)
    ensures Shape(t)
  {}

  lemma TakeShape(s: State, op: OpId)
    requires Shape(s)
    ensures Shape(TakeAccept(s, op).0) && TakeAccept(s, op).0.sides.Keys == s.sides.Keys
  {
    TakeGives(s, op);
    if TakeAccept(s, op).0 != s { GivesShape(s, TakeAccept(s, op).0, op); }
    hide Shape, TakeAccept;
  }

  lemma OpenShape(s: State, h: Handle, ref: Ref)
    requires Shape(s)
    ensures Shape(OpenListener(s, h, ref))
  {}

  // The steps that only take handles and waiters away, or touch neither.
  predicate Fewer(e: Step) {
    !e.DoStart? && !e.DoPublish? && !e.DoTake? && !e.DoOpen?
  }

  // What such a step leaves: the same listeners known, and no handle or waiter that is new.
  ghost predicate Shrinks(s: State, t: State) {
    && t.sides == s.sides && t.owners == s.owners
    && (forall h | h in t.listeners :: h in s.listeners && s.listeners[h] == t.listeners[h])
    && (forall op | op in t.waiters :: op in s.waiters && s.waiters[op] == t.waiters[op])
  }

  lemma FewerShrinks(s: State, e: Step)
    requires Fewer(e)
    ensures Shrinks(s, Act(s, e))
  {}

  lemma FewerShape(s: State, e: Step)
    requires Shape(s) && Fewer(e)
    ensures Shape(Act(s, e))
  {}

  lemma ActShape(s: State, e: Step)
    requires Shape(s)
    ensures Shape(Act(s, e))
    ensures !e.DoOpen? ==> Act(s, e).sides.Keys == s.sides.Keys
  {
    hide Shape, StartAccept, Publish, TakeAccept, OpenListener, Interfere;
    match e
    case DoStart(h, op) => StartShape(s, h, op);
    case DoPublish(at, a) => PublishShape(s, at, a);
    case DoTake(op) => TakeShape(s, op);
    case DoOpen(h, at) => OpenShape(s, h, at);
    case _ => FewerShape(s, e); FewerShrinks(s, e);
  }

  lemma ActRef(s: State, e: Step, ref: Ref)
    requires Inv(s) && ref in Act(s, e).sides
    ensures RefOk(Act(s, e), ref)
  {
    ActShape(s, e);
    if Fewer(e) {
      FewerShrinks(s, e);
      FewerRef(s, Act(s, e), ref);
    } else {
      hide RefOk, Shape, StartAccept, Publish, TakeAccept, OpenListener;
      match e
      case DoStart(h, op) => StartRef(s, h, op, ref);
      case DoPublish(at, a) => PublishRef(s, at, a, ref);
      case DoTake(op) => TakeRef(s, op, ref);
      case DoOpen(h, at) => OpenRef(s, h, at, ref);
    }
  }

  lemma ActInv(s: State, e: Step)
    requires Inv(s)
    ensures Inv(Act(s, e))
  {
    ActShape(s, e);
    hide RefOk, Shape, Act;
    forall ref | ref in Act(s, e).sides ensures RefOk(Act(s, e), ref) {
      ActRef(s, e, ref);
    }
  }

  // A step drops no signal, and whatever it makes takeable it also announces.
  ghost predicate Covers(s: State, t: State) {
    && (Signalled(s.base) ==> Signalled(t.base))
    && t.seen == s.seen
    && forall op | op in t.waiters && Takeable(t, op) :: Signalled(t.base) || (op in s.waiters && Takeable(s, op))
  }

  lemma StartCovers(s: State, h: Handle, op: OpId)
    requires Shape(s)
    ensures Covers(s, StartAccept(s, h, op).0)
  {}

  lemma PublishCovers(s: State, ref: Ref, a: Arrival)
    ensures Covers(s, Publish(s, ref, a))
  {}

  lemma OthersCover(s: State, e: Step)
    requires Shape(s) && !e.DoStart? && !e.DoPublish? && !e.DoTake? && !e.DoConsume?
    ensures Covers(s, Act(s, e))
  {}

  lemma ActCovers(s: State, e: Step)
    requires Inv(s) && !e.DoConsume?
    ensures Covers(s, Act(s, e))
  {
    hide Covers, RefOk, Shape, StartAccept, Publish, TakeAccept;
    match e
    case DoStart(h, op) => StartCovers(s, h, op);
    case DoPublish(ref, a) => PublishCovers(s, ref, a);
    case DoTake(op) => TakeCovers(s, op);
    case _ => OthersCover(s, e);
  }

  lemma TakeCovers(s: State, op: OpId)
    ensures Covers(s, TakeAccept(s, op).0)
  {}

  lemma ApplyInv(s: State, e: Step)
    requires Inv(s) && Announced(s)
    ensures Inv(Apply(s, e)) && Announced(Apply(s, e))
  {
    ActInv(s, e);
    PruneInv(Act(s, e));
    if e.DoConsume? {
      ConsumeAnnounced(s);
    } else {
      ActCovers(s, e);
      hide Inv, Act;
    }
  }

  lemma PruneInv(s: State)
    requires Inv(s)
    ensures Inv(Prune(s))
  {
    forall ref | ref in s.sides ensures RefOk(Prune(s), ref) {
      FewerRef(s, Prune(s), ref);
    }
  }

  lemma ConsumeAnnounced(s: State)
    requires Announced(s)
    ensures Announced(Apply(s, DoConsume))
  {}

  lemma {:induction false} RunInv(es: seq<Step>)
    ensures Inv(Run(es)) && Announced(Run(es))
  {
    if es == [] {
    } else {
      RunInv(es[..|es| - 1]);
      ApplyInv(Run(es[..|es| - 1]), es[|es| - 1]);
    }
  }

  // ---------------------------------------------------------------- what every run guarantees

  /** At most one of these holds of a listener: a worker is running, one connection is
      stored, an error is stored. */
  lemma AcceptIsExclusive(es: seq<Step>, ref: Ref)
    requires ref in Run(es).sides
    ensures var d := Run(es).sides[ref];
      && |d.accepted| <= 1
      && !(d.running && d.accepted != []) && !(d.running && d.err.Some?) && !(d.accepted != [] && d.err.Some?)
      && (d.worker ==> d.running) && (Live(Run(es), ref) ==> d.worker == d.running)
  {
    RunInv(es);
    assert RefOk(Run(es), ref);
    hide Run;
  }

  /** Connections and errors are handed out in the order they came, none lost and none twice. */
  lemma AcceptedInOrder(es: seq<Step>, ref: Ref)
    requires ref in Run(es).sides
    ensures Run(es).sides[ref].taken + Held(Run(es).sides[ref]) == Run(es).sides[ref].arrived
  {
    RunInv(es);
    assert RefOk(Run(es), ref);
    hide Run;
  }

  // A listener in the table is there under its own handle.
  ghost predicate Named(s: State, ref: Ref)
    requires ref in s.sides
  {
    && (forall h | h in s.listeners && s.listeners[h] == ref :: h == s.sides[ref].handle)
    && (s.sides[ref].handle in s.listeners ==> s.listeners[s.sides[ref].handle] == ref)
  }

  lemma InvNamed(s: State, ref: Ref)
    requires Inv(s) && ref in s.sides
    ensures Named(s, ref)
  {
    assert RefOk(s, ref);
  }

  lemma TakeIsLogged(s: State, op: OpId, ref: Ref)
    requires ref in s.sides && Named(s, ref)
    ensures var (t, r) := TakeAccept(s, op);
      && ref in t.sides && t.sides[ref].arrived == s.sides[ref].arrived
      && t.sides[ref].taken == if op in s.waiters && s.waiters[op].handle == s.sides[ref].handle
                               then s.sides[ref].taken + Handed(r) else s.sides[ref].taken
  {
    hide HasWaiter;
  }

  lemma PublishIsLogged(s: State, at: Ref, a: Arrival, ref: Ref)
    requires ref in s.sides
    ensures var t := Publish(s, at, a);
      && ref in t.sides && t.sides[ref].taken == s.sides[ref].taken
      && t.sides[ref].arrived == if at == ref && s.sides[ref].worker && Live(s, ref)
                                 then s.sides[ref].arrived + [a] else s.sides[ref].arrived
  {}

  lemma OthersLogNothing(s: State, e: Step, ref: Ref)
    requires ref in s.sides && !e.DoTake? && !e.DoPublish?
    ensures ref in Act(s, e).sides
    ensures Act(s, e).sides[ref].taken == s.sides[ref].taken && Act(s, e).sides[ref].arrived == s.sides[ref].arrived
  {
    hide Interfere;
  }

  /** The logs are the calls: on an open listener a worker records the connection or the error
      that Accept returned, and TakeTCPAccept records what it returns. */
  lemma AcceptLogsAreCalls(s: State, e: Step, ref: Ref)
    requires Inv(s) && ref in s.sides
    ensures ref in Apply(s, e).sides
    ensures var (d, t) := (s.sides[ref], Apply(s, e).sides[ref]);
      && t.arrived == (if e.DoPublish? && e.ref == ref && d.worker && Live(s, ref)
                       then d.arrived + [e.arrival] else d.arrived)
      && t.taken == (if e.DoTake? && e.op in s.waiters && s.waiters[e.op].handle == d.handle
                     then d.taken + Handed(TakeAccept(s, e.op).1) else d.taken)
  {
    InvNamed(s, ref);
    hide Inv, TakeAccept, Publish, Live, Named;
    if e.DoTake? {
      TakeIsLogged(s, e.op, ref);
    } else if e.DoPublish? {
      PublishIsLogged(s, e.ref, e.arrival, ref);
    } else {
      OthersLogNothing(s, e, ref);
      hide Act;
    }
  }

  /** While a listener is open nobody waits in vain: behind a waiter there is a running
      worker, a stored connection, or a stored error. */
  lemma AcceptNeverStalls(es: seq<Step>, op: OpId)
    requires op in Run(es).waiters && Run(es).waiters[op].handle in Run(es).listeners
    ensures var s := Run(es);
      && s.listeners[s.waiters[op].handle] in s.sides
      && var d := s.sides[s.listeners[s.waiters[op].handle]];
      (d.running && d.worker) || d.accepted != [] || d.err.Some?
  {
    RunInv(es);
    var s := Run(es);
    assert RefOk(s, s.listeners[s.waiters[op].handle]);
    hide Run;
    assert HasWaiter(s, s.waiters[op].handle);
  }

  /** While a listener is open no wakeup is lost, although TakeTCPAccept never signals: a
      waiter with something to take has had a token received since, or the token is
      there, or a thread is about to send it. */
  lemma NoAcceptWakeupLost(es: seq<Step>, op: OpId)
    requires op in Run(es).waiters && Takeable(Run(es), op)
    ensures Signalled(Run(es).base) || op in Run(es).seen
  {
    RunInv(es);
    hide Run, Inv, Takeable;
  }

  // ---------------------------------------------------------------- closing a handle

  // The waiter has an answer and no way to learn of it: no token has come since, none is
  // there, and none is promised.
  predicate Untold(s: State, op: OpId) {
    Answerable(s, op) && !Signalled(s.base) && op !in s.seen
  }

  /** What CloseHandle does to a waiter, seen before the call: it waits on the handle, the
      listener has nothing for it, and no signal is on its way. */
  predicate Strands(s: State, e: Step, op: OpId) {
    && e.DoCloseHandle? && e.handle in s.listeners && op in s.waiters && s.waiters[op].handle == e.handle
    && !Takeable(s, op) && !Signalled(s.base)
  }

  // A step that is no CloseHandle announces whatever it answers.
  ghost predicate Tells(s: State, t: State) {
    && (Signalled(s.base) ==> Signalled(t.base))
    && t.seen == s.seen
    && forall op | Answerable(t, op) :: Signalled(t.base) || Answerable(s, op)
  }

  lemma StartTells(s: State, h: Handle, op: OpId)
    ensures Tells(s, StartAccept(s, h, op).0)
  {}

  lemma PublishTells(s: State, ref: Ref, a: Arrival)
    requires Inv(s)
    ensures Tells(s, Publish(s, ref, a))
  {
    hide Exclusive;
  }

  lemma TakeTells(s: State, op: OpId)
    ensures Tells(s, TakeAccept(s, op).0)
  {
    hide HasWaiter;
  }

  lemma OthersTell(s: State, e: Step)
    requires Shape(s) && !e.DoStart? && !e.DoPublish? && !e.DoTake? && !e.DoConsume? && !e.DoCloseHandle?
    ensures Tells(s, Act(s, e))
  {}

  lemma ActTells(s: State, e: Step)
    requires Inv(s) && !e.DoConsume? && !e.DoCloseHandle?
    ensures Tells(s, Act(s, e))
  {
    hide Tells, RefOk, StartAccept, Publish, TakeAccept;
    match e
    case DoStart(h, op) => StartTells(s, h, op);
    case DoPublish(ref, a) => PublishTells(s, ref, a);
    case DoTake(op) => TakeTells(s, op);
    case _ => OthersTell(s, e);
  }

  lemma ToldStays(s: State, e: Step, op: OpId)
    requires Inv(s) && !Untold(s, op) && !e.DoCloseHandle?
    ensures !Untold(Apply(s, e), op)
  {
    if e.DoConsume? {
      hide Inv;
    } else {
      ActTells(s, e);
      hide Inv, Act;
    }
  }

  lemma CloseTells(s: State, h: Handle, op: OpId)
    requires !Untold(s, op) && (forall x | x in s.seen :: Answerable(s, x))
    ensures Untold(Apply(s, DoCloseHandle(h)), op) <==> Strands(s, DoCloseHandle(h), op)
  {}

  lemma SeenAreAnswerable(es: seq<Step>, op: OpId)
    requires op in Run(es).seen
    ensures Answerable(Run(es), op)
  {}

  /** Exactly which step leaves which waiter untold: CloseHandle, the waiters of a listener that
      holds nothing for them while no signal is on its way; and no other step, ever. */
  lemma UntoldByCloseHandleOnly(es: seq<Step>, e: Step, op: OpId)
    requires !Untold(Run(es), op)
    ensures Untold(Apply(Run(es), e), op) <==> Strands(Run(es), e, op)
  {
    RunInv(es);
    forall x | x in Run(es).seen ensures Answerable(Run(es), x) { SeenAreAnswerable(es, x); }
    hide Run;
    if e.DoCloseHandle? { CloseTells(Run(es), e.handle, op); } else { ToldStays(Run(es), e, op); }
  }

  ghost predicate StrandsNobody(s: State, e: Step) {
    forall op :: !Strands(s, e, op)
  }

  // After every step of the run every waiter with an answer can learn of it.
  ghost predicate AlwaysTold(es: seq<Step>) {
    es == [] || (AlwaysTold(es[..|es| - 1]) && forall op :: !Untold(Run(es), op))
  }

  // No step of the run closes a handle under a waiter in that way.
  ghost predicate NeverStrands(es: seq<Step>) {
    es == [] || (NeverStrands(es[..|es| - 1]) && StrandsNobody(Run(es[..|es| - 1]), es[|es| - 1]))
  }

  /** So over a whole run every waiter with an answer can learn of it if and only if no handle
      is closed under a waiter that the listener has nothing for while no signal is on its way. */
  lemma {:induction false} AllToldUnlessStranded(es: seq<Step>)
    ensures AlwaysTold(es) <==> NeverStrands(es)
  {
    if es != [] {
      var before, e := es[..|es| - 1], es[|es| - 1];
      AllToldUnlessStranded(before);
      if AlwaysTold(before) {
        forall op ensures Untold(Run(es), op) <==> Strands(Run(before), e, op) {
          NoneUntold(before, op);
          UntoldByCloseHandleOnly(before, e, op);
        }
      }
      hide Run, Untold, Strands;
    }
  }

  lemma NoneUntold(es: seq<Step>, op: OpId)
    requires AlwaysTold(es)
    ensures !Untold(Run(es), op)
  {}

  /** It does happen: here one waits whose next TakeTCPAccept would report the closed handle, with no
      token present, promised or ever received. */
  lemma CloseHandleStrandsWaiter()
    ensures var s := Run([DoOpen(1, 0), DoStart(1, 7), DoCloseHandle(1)]);
      && 7 in s.waiters && s.waiters[7].handle !in s.listeners
      && TakeAccept(s, 7).1 == Failed(Invalid)
      && !Signalled(s.base) && 7 !in s.seen
  {
    var o, w, c := DoOpen(1, 0), DoStart(1, 7), DoCloseHandle(1);
    RunSnoc([], o);
    RunSnoc([o], w);
    RunSnoc([o, w], c);
    assert [] + [o] == [o] && [o] + [w] == [o, w] && [o, w] + [c] == [o, w, c];
    var first := Run([o]);
    assert first.listeners == map[1 := 0] && first.sides == map[0 := NewSide(1)];
    assert first.base == Core.Fresh && first.waiters == map[] && first.seen == {};
    var second := Run([o, w]);
    assert second.waiters == map[7 := Waiter(1, false)] && !Signalled(second.base) && second.seen == {};
  }

  lemma RunSnoc(es: seq<Step>, e: Step)
    ensures Run(es + [e]) == Apply(Run(es), e)
  {
    assert (es + [e])[..|es|] == es;
  }
}

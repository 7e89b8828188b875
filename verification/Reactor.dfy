/** The Reactor as reactor.go changes it in place: claiming, releasing and cancelling
    operations, handing out handles, and closing. */
module Reactor {
  import opened Core
  import opened OperationTable

  const FIRST_HANDLE := 0x1_0000_0000_0000
  const HANDLE_LIMIT := 0x1_0000_0000_0000_0000

  lemma ClaimFacts(s: State, id: OpId)
    requires Inv(s) && id in s.base.operations
    ensures var m := Of(s.tables, s.base.operations[id]);
      id in m && m[id] in s.claims && s.claims[m[id]] == Job(s.base.operations[id], id)
  {
    hide Of;
  }

  // What Close takes out of the reactor, to close or cancel it after the unlock.
  datatype Taken = Taken(
    streams: map<Handle, Serial>,
    datagrams: map<Handle, Serial>,
    draining: set<Serial>,
    listeners: map<Handle, Serial>,
    creates: map<OpId, Serial>,
    dns: map<OpId, Serial>,
    environments: map<OpId, Serial>,
    management: map<OpId, Serial>)

  const Nothing := Taken(map[], map[], {}, map[], map[], map[], map[], map[])

  // The kinds whose objects hold a context to cancel.
  predicate HasContext(kind: Kind) {
    kind.Create? || kind.Dns? || kind.Environment? || kind.Management?
  }

  class Reactor {
    var closed: bool
    var completion: bool
    var nextHandle: nat

    var operations: map<OpId, Kind>
    var pending: Tables  // the ten maps
    var results: map<Serial, Answer>

    var streams: map<Handle, Serial>
    var datagrams: map<Handle, Serial>
    var draining: set<Serial>
    var listeners: map<Handle, Serial>
    var packetSinks: map<Handle, Serial>
    var eventSinks: map<Handle, Serial>

    ghost var owes: nat
    ghost var next: Serial
    ghost var workers: map<Serial, Job>
    ghost var claims: map<Serial, Job>
    ghost var reported: map<Serial, Answer>
    ghost var seen: set<OpId>

    ghost function View(): State
      reads this
    {
      State(
        Base(closed, operations, completion, owes),
        pending,
        next, workers, results, claims, reported, seen)
    }

    // Everything that the reactor holds beside the operations.
    ghost function Objects(): (map<Handle, Serial>, map<Handle, Serial>, set<Serial>, map<Handle, Serial>, map<Handle, Serial>, map<Handle, Serial>)
      reads this
    {
      (streams, datagrams, draining, listeners, packetSinks, eventSinks)
    }

    ghost predicate Valid()
      reads this
    {
      Inv(View()) && nextHandle < HANDLE_LIMIT
    }

    // New, without initial sockets.
    constructor ()
      ensures Valid() && View() == Init && nextHandle == FIRST_HANDLE
      ensures Objects() == (map[], map[], {}, map[], map[], map[])
    {
      closed, completion, nextHandle := false, false, FIRST_HANDLE;
      operations := map[];
      pending := NoTables;
      results := map[];
      streams, datagrams, draining, listeners, packetSinks, eventSinks := map[], map[], {}, map[], map[], map[];
      owes, next, workers, claims, reported, seen := 0, 0, map[], map[], map[], {};
      new;
      InitInv();
    }

    // A non-blocking send on the one-slot channel.
    method SignalCompletion()
      requires Valid()
      modifies this`completion, this`owes
      ensures Valid()
      ensures old(owes) > 0 ==> View() == old(View()).(base := Pay(old(View()).base))
      ensures completion && (old(owes) > 0 ==> owes == old(owes) - 1)
    {
      ghost var was := View();
      ghost var b := Base(was.base.closed, was.base.operations, true, if owes > 0 then owes - 1 else owes);
      BaseInv(was, b);
      hide Inv;
      if !completion {
        completion := true;
      }
      if owes > 0 {
        owes := owes - 1;
      }
      assert View() == was.(base := b);
    }

    method ClaimOperation(id: OpId, kind: Kind) returns (err: Option<CallError>)
      modifies this`operations
      ensures err == if Claim(old(View()).base, id, kind) == None then Some(Invalid) else None
      ensures err == None ==> View().base == Claim(old(View()).base, id, kind).value
      ensures err != None ==> operations == old(operations)
    {
      if closed {
        return Some(Invalid);
      }
      if id in operations {
        return Some(Invalid);
      }
      operations := operations[id := kind];
      return None;
    }

    method ReleaseOperation(id: OpId, kind: Kind) returns (released: bool)
      modifies this`operations
      ensures View().base == Release(old(View()).base, id, kind)
      ensures released == Holds(old(View()).base, id, kind)
    {
      if id !in operations || operations[id] != kind {
        return false;
      }
      operations := operations - {id};
      return true;
    }

    /** Handles count up from 2^48 in 64 bits, so no handle comes back before 2^64 - 2^48
        of them were handed out. */
    method AllocateHandle() returns (handle: nat)
      requires nextHandle < HANDLE_LIMIT
      modifies this`nextHandle
      ensures handle == nextHandle == (old(nextHandle) + 1) % HANDLE_LIMIT
      ensures handle != old(nextHandle) && nextHandle < HANDLE_LIMIT
    {
      nextHandle := (nextHandle + 1) % HANDLE_LIMIT;
      handle := nextHandle;
    }

    /** CancelOperation: the switch over the kind removes the object from the map of that
        kind.  `found` is the object, which is there whenever the id is claimed; `cancels` says
        whether it has a context to cancel after the unlock. */
    method CancelOperation(id: OpId) returns (found: Option<Serial>, cancels: bool)
      requires Valid()
      modifies this`operations, this`pending
      ensures Valid() && View() == Cancel(old(View()), id)
      ensures found.Some? <==> id in old(operations)
      ensures found.Some? ==> found.value in claims && claims[found.value] == Job(old(operations)[id], id)
      ensures cancels <==> id in old(operations) && HasContext(old(operations)[id])
    {
      hide Inv;
      cancels := false;
      if id !in operations {
        return None, false;
      }
      var kind := operations[id];
      ForgetInv(View(), kind, id);
      ClaimFacts(View(), id);
      ghost var was := View();
      operations := operations - {id};
      match kind {
        case Read =>
          found := Some(pending.reads_[id]);
          pending := pending.(reads_ := pending.reads_ - {id});
        case Write =>
          found := Some(pending.writes[id]);
          pending := pending.(writes := pending.writes - {id});
        case UdpRead =>
          found := Some(pending.udpReads[id]);
          pending := pending.(udpReads := pending.udpReads - {id});
        case UdpWrite =>
          found := Some(pending.udpWrites[id]);
          pending := pending.(udpWrites := pending.udpWrites - {id});
        case Accept =>
          found := Some(pending.accepts[id]);
          pending := pending.(accepts := pending.accepts - {id});
        case Create =>
          found := Some(pending.creates[id]);
          cancels := true;
          pending := pending.(creates := pending.creates - {id});
        case Dns =>
          found := Some(pending.dns[id]);
          cancels := true;
          pending := pending.(dns := pending.dns - {id});
        case Environment =>
          found := Some(pending.environments[id]);
          cancels := true;
          pending := pending.(environments := pending.environments - {id});
        case PacketWrite =>
          found := Some(pending.packetWrites[id]);
          pending := pending.(packetWrites := pending.packetWrites - {id});
        case Management =>
          found := Some(pending.management[id]);
          cancels := true;
          pending := pending.(management := pending.management - {id});
      }
      assert found == Some(Of(was.tables, kind)[id]) && View().tables == With(was.tables, kind, Of(was.tables, kind) - {id});
      hide Of, With;
      assert View() == Forget(was, kind, id);
    }

    /** Close, up to the unlock: every map is replaced by an empty one, and what they held and
        has to be closed or cancelled is handed on. */
    method CloseTables() returns (first: bool, taken: Taken)
      requires Valid()
      modifies this
      ensures Valid() && View() == CloseAll(old(View()))
      ensures first == !old(closed) && nextHandle == old(nextHandle)
      ensures first ==> Objects() == (map[], map[], {}, map[], map[], map[])
      ensures first ==> taken == Taken(old(streams), old(datagrams), old(draining), old(listeners), old(pending.creates),
                                       old(pending.dns), old(pending.environments), old(pending.management))
      ensures !first ==> taken == Nothing && Objects() == old(Objects())
    {
      if closed {
        return false, Nothing;
      }
      hide Inv, CloseAll;
      ghost var was := View();
      taken := TakeObjects();
      assert View() == was;
      CloseOperations();
      return true, taken;
    }

    method CloseOperations()
      requires Valid() && !closed
      modifies this`closed, this`operations, this`pending
      ensures Valid() && View() == CloseAll(old(View()))
    {
      ghost var was := View();
      CloseInv(was);
      hide Inv;
      closed := true;
      operations := map[];
      pending := NoTables;
      assert View() == CloseAll(was);
    }

    // The maps that no operation is in, and what is still pending with a context.
    method TakeObjects() returns (taken: Taken)
      modifies this`streams, this`datagrams, this`draining, this`listeners, this`packetSinks, this`eventSinks
      ensures Objects() == (map[], map[], {}, map[], map[], map[])
      ensures taken == Taken(old(streams), old(datagrams), old(draining), old(listeners), pending.creates, pending.dns,
                             pending.environments, pending.management)
    {
      taken := Taken(streams, datagrams, draining, listeners, pending.creates, pending.dns, pending.environments, pending.management);
      streams, datagrams, draining, listeners := map[], map[], {}, map[];
      packetSinks, eventSinks := map[], map[];
    }
  }
}

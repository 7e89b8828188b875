/** datagramState, listenerState and packetSink as the reactor changes them in place, every
    method proved against the functions their models are built from
    (internal/reactor/udp.go, listener.go, packet.go). */
module Sockets {
  import opened Core
  import A = Accept
  import P = PacketSink
  import R = UdpReceive
  import S = UdpSend

  /** The socket of a datagramState: `sent` records every WriteTo call. */
  class PacketConn {
    ghost var sent: seq<S.Datagram>
    var closed: bool

    method WriteTo(datagram: S.Datagram) returns (err: Option<IoError>)
      modifies this`sent
      ensures sent == old(sent) + [datagram]
    {
      sent := sent + [datagram];
      err := *;
    }

    method Close()
      modifies this`closed
      ensures closed
    {
      closed := true;
    }
  }

  // The loop that marks the waiters of one handle ready, and says whether there was one.
  method WakeAll(waiters: map<OpId, Waiter>, handle: Handle) returns (woken: map<OpId, Waiter>, ready: bool)
    ensures woken == Wake(waiters, handle)
    ensures ready <==> exists op | op in waiters :: waiters[op].handle == handle
  {
    woken, ready := waiters, false;
    var todo := waiters.Keys;
    while todo != {}
      invariant todo <= waiters.Keys == woken.Keys
      invariant forall op | op in waiters ::
                  woken[op] == if op !in todo && waiters[op].handle == handle then waiters[op].(ready := true) else waiters[op]
      invariant ready <==> exists op | op in waiters && op !in todo :: waiters[op].handle == handle
      decreases |todo|
    {
      var op :| op in todo;
      todo := todo - {op};
      if waiters[op].handle == handle {
        woken := woken[op := waiters[op].(ready := true)];
        ready := true;
      }
    }
  }

  class DatagramState {
    const connection: PacketConn
    const handle: Handle

    var received: seq<R.Datagram>
    var receiveRunning: bool
    var receiveErr: Option<IoError>

    var sendQueue: seq<S.Datagram>
    var queueClosed: bool
    var sendErr: Option<IoError>

    ghost var receiving: bool
    ghost var arrived: seq<R.Datagram>
    ghost var taken: seq<R.Datagram>
    ghost var failures: seq<IoError>
    ghost var told: seq<IoError>
    ghost var replaced: seq<IoError>
    ghost var accepted: seq<S.Datagram>

    ghost function ReceiveView(): R.Side
      reads this
    {
      R.Side(handle, received, receiveRunning, receiveErr, receiving, arrived, taken, failures, told, replaced)
    }

    // The send fields, with the worker where the caller says it is.
    ghost function SendView(worker: S.Worker, forced: bool): S.Side
      reads this, connection
    {
      S.Side(handle, sendQueue, queueClosed, sendErr, worker, connection.closed, forced, accepted, connection.sent)
    }

    // newDatagramState
    constructor (connection: PacketConn, handle: Handle)
      requires connection.sent == [] && !connection.closed
      ensures this.connection == connection && this.handle == handle
      ensures ReceiveView() == R.NewSide(handle) && SendView(S.Receiving, false) == S.NewSide(handle)
    {
      this.connection, this.handle := connection, handle;
      received, receiveRunning, receiveErr := [], false, None;
      sendQueue, queueClosed, sendErr := [], false, None;
      receiving, arrived, taken, accepted := false, [], [], [];
      failures, told, replaced := [], [], [];
    }

    // The part of StartUDPReceive that touches the socket's state.
    method StartReceive() returns (ready: bool, startWorker: bool)
      modifies this`receiveRunning, this`receiving
      ensures ready == R.Loaded(old(ReceiveView()))
      ensures startWorker == (receiveErr == None && |received| < R.CAPACITY && !old(receiveRunning))
      ensures ReceiveView() == R.Launch(old(ReceiveView()), startWorker)
    {
      ready := received != [] || receiveErr != None;
      startWorker := receiveErr == None && |received| < R.CAPACITY && !receiveRunning;
      if startWorker {
        receiveRunning := true;
        receiving := true;
      }
    }

    /** One turn of runUDPReceive under the lock, with the handle still open. */
    method PublishReceive(arrival: R.Arrival, waiters: map<OpId, Waiter>)
      returns (woken: map<OpId, Waiter>, ready: bool, continueReceiving: bool)
      modifies this`received, this`receiveErr, this`receiveRunning, this`receiving, this`arrived, this`failures, this`replaced
      ensures woken == Wake(waiters, handle) && (ready <==> exists op | op in waiters :: waiters[op].handle == handle)
      ensures continueReceiving == (arrival.Got? && ready && |received| < R.CAPACITY)
      ensures ReceiveView() == R.Continue(R.Store(old(ReceiveView()), arrival), continueReceiving)
    {
      match arrival {
        case Lost(err) =>
          failures := failures + [err];
          replaced := replaced + R.Stored(ReceiveView());
          receiveErr := Some(err);
        case Got(datagram) =>
          received := received + [datagram];
          arrived := arrived + [datagram];
      }
      woken, ready := WakeAll(waiters, handle);
      continueReceiving := arrival.Got? && ready && |received| < R.CAPACITY;
      if !continueReceiving {
        receiveRunning := false;
        receiving := false;
      }
    }

    /** TakeUDPReceive for a waiter whose handle is open; `more` says whether others wait.
        The datagram is truncated to the caller's capacity only after it has left the queue. */
    method TakeReceive(capacity: nat, more: bool) returns (result: R.TakeResult, startWorker: bool)
      modifies this`received, this`receiveErr, this`receiveRunning, this`receiving, this`taken, this`told
      ensures var d := old(ReceiveView());
              if d.received == [] && d.err == None then result == R.Failed(Pending) && !startWorker && ReceiveView() == d
              else if d.received == [] then
                && result == R.Broken(d.err.value)
                && startWorker == (!d.running && more) && ReceiveView() == R.Launch(R.Tell(d), startWorker)
              else
                && result == R.Taken(R.Truncate(d.received[0], capacity))
                && startWorker == (|d.received| - 1 < R.CAPACITY && !d.running && more)
                && ReceiveView() == R.Launch(R.TakeFirst(d), startWorker)
      ensures forall w, f :: SendView(w, f) == old(SendView(w, f))
    {
      result := TakeStored(capacity);
      if result.Failed? {
        return result, false;
      }
      startWorker := |received| < R.CAPACITY && !receiveRunning && more;
      if startWorker {
        receiveRunning := true;
        receiving := true;
      }
    }

    // The first queued datagram, or else the stored error, leaves the socket.
    method TakeStored(capacity: nat) returns (result: R.TakeResult)
      modifies this`received, this`receiveErr, this`taken, this`told
      ensures var d := old(ReceiveView());
              if d.received == [] && d.err == None then result == R.Failed(Pending) && ReceiveView() == d
              else if d.received == [] then result == R.Broken(d.err.value) && ReceiveView() == R.Tell(d)
              else result == R.Taken(R.Truncate(d.received[0], capacity)) && ReceiveView() == R.TakeFirst(d)
    {
      if |received| == 0 {
        if receiveErr == None {
          return R.Failed(Pending);
        }
        result := R.Broken(receiveErr.value);
        told := told + [receiveErr.value];
        receiveErr := None;
      } else {
        var datagram := received[0];
        taken := taken + [datagram];
        received := received[1..];
        if |datagram.data| > capacity {
          datagram := datagram.(data := datagram.data[..capacity]);
        }
        result := R.Taken(datagram);
      }
    }

    /** TryUDPSend for an open handle.  The send on the channel has room. */
    method TrySend(data: seq<u8>, peer: Option<nat>) returns (result: S.SendResult)
      modifies this`sendQueue, this`accepted
      ensures result == if peer == None || |data| > S.MAX_PAYLOAD then S.Failed(Invalid)
                        else if sendErr.Some? then S.Broken(sendErr.value)
                        else if |old(sendQueue)| >= S.CAPACITY then S.Failed(WouldBlock)
                        else S.Accepted
      ensures forall w, f :: SendView(w, f) == if result.Accepted? then S.Accept(old(SendView(w, f)), S.Datagram(data, peer.value))
                                               else old(SendView(w, f))
    {
      if peer == None || |data| > S.MAX_PAYLOAD {
        return S.Failed(Invalid);
      }
      if sendErr != None {
        return S.Broken(sendErr.value);
      }
      if |sendQueue| >= S.CAPACITY {
        return S.Failed(WouldBlock);
      }
      sendQueue := sendQueue + [S.Datagram(data, peer.value)];
      accepted := accepted + [S.Datagram(data, peer.value)];
      return S.Accepted;
    }

    method CloseAfterQueuedSends()
      modifies this`queueClosed
      ensures forall w, f :: SendView(w, f) == S.StopAfterQueue(old(SendView(w, f)))
    {
      if !queueClosed { queueClosed := true; }
    }

    method CloseNow()
      modifies this`queueClosed, connection`closed
      ensures forall w, f :: SendView(w, true) == S.StopNow(old(SendView(w, f)))
    {
      if !queueClosed { queueClosed := true; }
      connection.Close();
    }

    /** What is left of runUDPSends once the channel is closed, which is after the handle has
        left the table: everything queued is attempted, in order, before the socket closes; each
        datagram taken wakes the waiters, and no failure is recorded any more. */
    method DrainSends(waiters: map<OpId, Waiter>) returns (woken: map<OpId, Waiter>, signals: nat)
      requires queueClosed
      modifies this`sendQueue, connection
      ensures sendQueue == [] && connection.closed
      ensures connection.sent == old(connection.sent) + old(sendQueue)
      ensures woken == if old(sendQueue) == [] then waiters else Wake(waiters, handle)
      ensures signals == if exists op :: op in waiters && waiters[op].handle == handle then |old(sendQueue)| else 0
    {
      woken, signals := waiters, 0;
      ghost var first, all := sendQueue, connection.sent + sendQueue;
      while sendQueue != []
        invariant connection.sent + sendQueue == all && |sendQueue| <= |first|
        invariant woken == if |sendQueue| == |first| then waiters else Wake(waiters, handle)
        invariant signals == if exists op :: op in waiters && waiters[op].handle == handle then |first| - |sendQueue| else 0
        decreases |sendQueue|
      {
        var request := sendQueue[0];
        assert sendQueue == [request] + sendQueue[1..];
        sendQueue := sendQueue[1..];
        WakeTwice(waiters, handle);
        var ready;
        woken, ready := WakeAll(woken, handle);
        if ready { signals := signals + 1; }
        var err := connection.WriteTo(request);
      }
      assert connection.sent == all;
      connection.Close();
    }
  }

  lemma WakeTwice(waiters: map<OpId, Waiter>, handle: Handle)
    ensures Wake(Wake(waiters, handle), handle) == Wake(waiters, handle)
    ensures forall op :: op in waiters && waiters[op].handle == handle <==> op in Wake(waiters, handle) && Wake(waiters, handle)[op].handle == handle
  {}

  class ListenerState {
    const handle: Handle
    var accepted: seq<A.Connection>
    var acceptRunning: bool
    var acceptErr: Option<IoError>

    ghost var working: bool
    ghost var arrived: seq<A.Arrival>
    ghost var taken: seq<A.Arrival>

    ghost function View(): A.Side
      reads this
    {
      A.Side(handle, accepted, acceptRunning, acceptErr, working, arrived, taken)
    }

    constructor (handle: Handle)
      ensures View() == A.NewSide(handle)
    {
      this.handle := handle;
      accepted, acceptRunning, acceptErr := [], false, None;
      working, arrived, taken := false, [], [];
    }

    method StartAccept() returns (ready: bool, startWorker: bool)
      modifies this
      ensures ready == A.Loaded(old(View())) && startWorker == (!ready && !old(acceptRunning))
      ensures View() == A.Launch(old(View()), startWorker)
    {
      ready := |accepted| > 0 || acceptErr != None;
      startWorker := !ready && !acceptRunning;
      if startWorker { acceptRunning, working := true, true; }
    }

    // runTCPAccept under the lock, with the handle still open
    method PublishAccept(arrival: A.Arrival)
      modifies this
      ensures View() == A.Store(old(View()), arrival)
    {
      acceptRunning, working := false, false;
      arrived := arrived + [arrival];
      match arrival {
        case Lost(err) =>
          acceptErr := Some(err);
        case Got(connection) =>
          accepted := accepted + [connection];
      }
    }

    method TakeAccept(more: bool) returns (result: A.TakeResult, startWorker: bool)
      modifies this
      ensures var d := old(View());
              if d.accepted == [] && d.err == None then result == A.Failed(Pending) && !startWorker && View() == d
              else if d.accepted == [] then
                && result == A.Broken(d.err.value)
                && startWorker == (!d.running && more) && View() == A.Launch(A.Tell(d), startWorker)
              else
                && result == A.Taken(d.accepted[0])
                && startWorker == (|d.accepted| == 1 && !d.running && more) && View() == A.Launch(A.TakeFirst(d), startWorker)
    {
      if |accepted| == 0 {
        if acceptErr == None {
          return A.Failed(Pending), false;
        }
        result := A.Broken(acceptErr.value);
        taken := taken + [A.Lost(acceptErr.value)];
        acceptErr := None;
      } else {
        result := A.Taken(accepted[0]);
        taken := taken + [A.Got(accepted[0])];
        accepted := accepted[1..];
      }
      startWorker := |accepted| == 0 && !acceptRunning && more;
      if startWorker { acceptRunning, working := true, true; }
    }
  }

  class Sink {
    const capacity: nat
    var packets: seq<P.Packet>
    var available: bool // a one-slot channel
    var closed: bool

    ghost var owes: nat
    ghost var accepted: seq<P.Packet>
    ghost var received: seq<P.Packet>

    ghost function View(): P.Sink
      reads this
    {
      P.Sink(!closed, capacity, packets, available, owes, accepted, received)
    }

    constructor (capacity: nat)
      ensures View() == P.NewSink(capacity)
    {
      this.capacity := capacity;
      packets, available, closed := [], false, false;
      owes, accepted, received := 0, [], [];
    }

    // TryPacketWrite up to the unlock; Announce is its last statement.
    method TryWrite(packet: P.Packet) returns (ok: bool)
      modifies this`packets, this`accepted, this`owes
      ensures ok == (|old(packets)| < capacity)
      ensures View() == if ok then P.Push(old(View()), packet) else old(View())
    {
      if |packets| >= capacity {
        return false;
      }
      packets := packets + [packet];
      accepted, owes := accepted + [packet], owes + 1;
      return true;
    }

    method Announce()
      requires owes > 0
      modifies this`available, this`owes
      ensures View() == P.PayToken(old(View()))
    {
      if !available { available := true; }
      owes := owes - 1;
    }

    /** One turn of ReceivePacket under the lock: the oldest packet leaves, and the write
        waiters of the handle are marked ready. */
    method TryReceive(waiters: map<OpId, Waiter>, handle: Handle)
      returns (packet: Option<P.Packet>, woken: map<OpId, Waiter>, ready: bool)
      modifies this`packets, this`received
      ensures packet == if old(packets) == [] then None else Some(old(packets)[0])
      ensures View() == if old(packets) == [] then old(View()) else P.Pop(old(View()))
      ensures woken == if packet == None then waiters else Wake(waiters, handle)
      ensures ready <==> packet.Some? && exists op | op in waiters :: waiters[op].handle == handle
    {
      if |packets| == 0 {
        return None, waiters, false;
      }
      packet := Some(packets[0]);
      received := received + [packets[0]];
      packets := packets[1..];
      woken, ready := WakeAll(waiters, handle);
    }
  }
}

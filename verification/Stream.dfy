/** streamState as the reactor changes it in place, every method proved against the
    functions the stream models are built from (internal/reactor/stream.go). */
module Stream {
  import opened Core
  import opened Queues
  import R = StreamReads
  import W = StreamWrites

  // removeReadOperation and removeWriteOperation: drop the first occurrence.
  method RemoveOperation<T(==)>(queue: seq<T>, operation: T) returns (rest: seq<T>)
    ensures rest == RemoveFirst(queue, operation)
  {
    for index := 0 to |queue|
      invariant forall j | 0 <= j < index :: queue[j] != operation
    {
      if queue[index] == operation {
        RemoveFirstAt(queue, index);
        return queue[..index] + queue[index + 1..];
      }
    }
    RemoveFirstAbsent(queue, operation);
    return queue;
  }

  /** The write side of a net.Conn.  A call takes any prefix of its argument and may
      fail; `wire` records what was taken. */
  class Connection {
    ghost var wire: seq<u8>

    constructor ()
      ensures wire == []
    {
      wire := [];
    }

    method Write(data: seq<u8>) returns (n: nat, err: Option<IoError>)
      modifies this
      ensures n <= |data| && wire == old(wire) + data[..n]
    {
      n :| 0 <= n <= |data|;
      err := *;
      wire := wire + data[..n];
    }
  }

  /** The inner loop of runStreamWrites.  Without an error the whole request is on the
      wire; with one, exactly the first `written` bytes are. */
  method Transmit(connection: Connection, data: seq<u8>) returns (written: nat, err: Option<IoError>)
    modifies connection
    ensures written <= |data| && connection.wire == old(connection.wire) + data[..written]
    ensures err == None ==> written == |data|
  {
    written, err := 0, None;
    assert data[..0] == [];
    while written < |data|
      invariant written <= |data|
      invariant connection.wire == old(connection.wire) + data[..written]
      decreases |data| - written
    {
      var n, failure := connection.Write(data[written..]);
      assert data[..written] + data[written..][..n] == data[..written + n];
      written := written + n;
      if failure.Some? {
        err := failure;
        break;
      }
      if n == 0 {
        err := Some(ShortWrite);
        break;
      }
    }
  }

  class StreamState {
    var closed: bool

    var readQueue: seq<R.Waiter>
    var readRunning: bool
    var readReady: bool
    var readData: seq<u8>
    var readErr: Option<IoError>

    var writeQueue: seq<W.Request>
    var writeRunning: bool
    var writeActive: Option<W.Request>

    ghost var task: nat
    ghost var arrived: seq<R.Item>
    ghost var delivered: seq<R.Item>
    ghost var served: seq<Serial>
    ghost var worker: W.Worker
    ghost var wire: seq<u8>
    ghost var segments: seq<W.Segment>

    ghost function ReadView(): R.ReadSide
      reads this
    {
      R.ReadSide(closed, readQueue, readRunning, readReady, readData, readErr, task, arrived, delivered, served)
    }

    ghost function WriteView(): W.WriteSide
      reads this
    {
      W.WriteSide(writeQueue, writeRunning, writeActive, worker, wire, segments)
    }

    // newStreamState
    constructor ()
      ensures ReadView() == R.NewSide && WriteView() == W.NewSide
    {
      closed := false;
      readQueue, readRunning, readReady, readData, readErr := [], false, false, [], None;
      writeQueue, writeRunning, writeActive := [], false, None;
      task, arrived, delivered, served := 0, [], [], [];
      worker, wire, segments := W.Absent, [], [];
    }

    method ReadAvailable() returns (available: bool)
      ensures available == R.Available(ReadView())
    {
      available := readReady || (closed && !readRunning);
    }

    // The part of StartRead that touches the stream; `ready` asks for a signal.
    method QueueRead(waiter: R.Waiter) returns (ready: bool, launch: Option<nat>)
      modifies this
      ensures var queued := R.Enqueue(old(ReadView()), waiter);
        && ready == R.Available(queued)
        && ReadView() == R.Prepare(queued, false)
        && (launch.Some? <==> ReadView() != queued)
      ensures WriteView() == old(WriteView())
    {
      readQueue := readQueue + [waiter];
      ready := ReadAvailable();
      launch := PrepareRead(false);
    }

    // prepareStreamReadLocked: whether a worker is to be launched, and with what buffer.
    method PrepareRead(reactorClosed: bool) returns (launch: Option<nat>)
      modifies this
      ensures ReadView() == R.Prepare(old(ReadView()), reactorClosed)
      ensures launch.Some? <==> ReadView() != old(ReadView())
      ensures launch.Some? ==> launch.value == task && readRunning && !old(readRunning)
      ensures WriteView() == old(WriteView())
    {
      if reactorClosed || closed || readRunning || readReady || |readQueue| == 0 {
        return None;
      }
      readRunning := true;
      task := readQueue[0].capacity;
      launch := Some(readQueue[0].capacity);
    }

    // What runStreamRead publishes; `ready` asks for a signal.
    method PublishRead(buffer: seq<u8>, n: nat, err: Option<IoError>) returns (ready: bool)
      requires n <= |buffer|
      modifies this
      ensures ReadView() == R.Publish(old(ReadView()), buffer[..n], err)
      ensures ready == (old(readQueue) != [])
      ensures WriteView() == old(WriteView())
    {
      hide R.Items;
      readRunning := false;
      readData := buffer[..n];
      readErr := err;
      readReady := true;
      arrived := arrived + R.Items(readData, err);
      ready := |readQueue| > 0;
    }

    // The part of TakeRead that copies from the buffer.
    method TakeData(capacity: nat) returns (data: seq<u8>, err: Option<IoError>)
      modifies this
      ensures (ReadView(), data, err) == R.TakeBuffered(old(ReadView()), capacity)
      ensures WriteView() == old(WriteView())
    {
      hide R.Items;
      data, err := [], None;
      if readReady {
        var take := |readData|;
        if take > capacity {
          take := capacity;
        }
        data := readData[..take];
        if take == |readData| {
          readData := [];
          err := readErr;
          readErr := None;
          readReady := false;
        } else {
          readData := readData[take..];
        }
        delivered := delivered + R.Items(data, err);
      } else {
        err := Some(NetClosed);
      }
    }

    // The body of a TakeRead that found its waiter at the head and the stream available.
    method TakeHead(reactorClosed: bool) returns (data: seq<u8>, err: Option<IoError>, ready: bool, launch: Option<nat>)
      requires readQueue != []
      modifies this
      ensures var (emptied, d, e) := R.TakeBuffered(old(ReadView()), old(readQueue[0].capacity));
        && data == d && err == R.HideEof(e)
        && emptied.queue == old(readQueue)
        && ReadView() == R.Prepare(R.PopHead(emptied), reactorClosed)
        && ready == (R.PopHead(emptied).queue != [] && R.Available(R.PopHead(emptied)))
      ensures WriteView() == old(WriteView())
    {
      hide R.Items;
      data, err := TakeData(readQueue[0].capacity);
      served := served + [readQueue[0].serial];
      readQueue := readQueue[1..];
      var available := ReadAvailable();
      ready := |readQueue| > 0 && available;
      launch := PrepareRead(reactorClosed);
      if err == Some(EOF) {
        err := None;
      }
    }

    // cancelStreamReadLocked
    method CancelRead(waiter: R.Waiter, reactorClosed: bool) returns (ready: bool, launch: Option<nat>)
      modifies this
      ensures var removed := R.Remove(old(ReadView()), waiter);
        && ReadView() == R.Prepare(removed, reactorClosed)
        && ready == (old(readQueue) != [] && old(readQueue)[0] == waiter && removed.queue != [] && R.Available(removed))
      ensures WriteView() == old(WriteView())
    {
      var wasFirst := |readQueue| > 0 && readQueue[0] == waiter;
      readQueue := RemoveOperation(readQueue, waiter);
      var available := ReadAvailable();
      ready := wasFirst && |readQueue| > 0 && available;
      launch := PrepareRead(reactorClosed);
    }

    // The part of StartWrite that touches the stream.
    method QueueWrite(request: W.Request) returns (startWorker: bool)
      modifies this
      ensures WriteView() == W.Enqueue(old(WriteView()), request)
      ensures startWorker <==> !old(writeRunning)
      ensures ReadView() == old(ReadView())
    {
      writeQueue := writeQueue + [request];
      startWorker := !writeRunning;
      if startWorker {
        writeRunning := true;
        worker := W.Fetching;
      }
    }

    // The first critical section of the loop of runStreamWrites; None ends the worker.
    method FetchWrite(reactorClosed: bool) returns (request: Option<W.Request>)
      modifies this
      ensures WriteView() == W.FetchNext(old(WriteView()), reactorClosed)
      ensures request == if reactorClosed || old(writeQueue) == [] then None else Some(old(writeQueue)[0])
      ensures ReadView() == old(ReadView())
    {
      if reactorClosed || |writeQueue| == 0 {
        writeQueue := [];
        writeRunning := false;
        worker := W.Absent;
        return None;
      }
      var head := writeQueue[0];
      writeQueue := writeQueue[1..];
      writeActive := Some(head);
      worker := if head.data == [] then W.Finishing(head, None) else W.Writing(head, 0);
      segments := segments + [W.Segment(head.serial, head.data, 0)];
      request := Some(head);
    }

    // The second critical section, as far as the stream is concerned.
    method RetireWrite()
      modifies this
      ensures WriteView() == W.Retire(old(WriteView())) && ReadView() == old(ReadView())
    {
      writeActive := None;
      worker := W.Fetching;
    }

    // cancelStreamWriteLocked: the active request is left to finish.
    method CancelWrite(request: W.Request)
      modifies this
      ensures WriteView() == if old(writeActive) == Some(request) then old(WriteView()) else W.Remove(old(WriteView()), request)
      ensures ReadView() == old(ReadView())
    {
      if writeActive == Some(request) {
        return;
      }
      writeQueue := RemoveOperation(writeQueue, request);
    }

    /** closeStreamLocked: the queued writes fail with net.ErrClosed, unless they have left the
        map; `ready` asks for a signal, for a read that has an answer or a write that failed. */
    method CloseLocked(writes: map<OpId, W.Entry>) returns (ready: bool, failed: map<OpId, W.Entry>)
      modifies this
      ensures ReadView() == R.CloseSide(old(ReadView())) && WriteView() == W.Drop(old(WriteView()))
      ensures failed == W.FailQueued(writes, old(writeQueue))
      ensures ready <==> (readQueue != [] && R.Available(ReadView())) || exists q | q in old(writeQueue) :: W.InMap(writes, q)
    {
      closed := true;
      var available := ReadAvailable();
      ready := |readQueue| > 0 && available;
      failed := writes;
      for i := 0 to |writeQueue|
        invariant ReadView() == R.CloseSide(old(ReadView())) && WriteView() == old(WriteView())
        invariant failed == W.FailQueued(writes, writeQueue[..i])
        invariant ready <==> (readQueue != [] && R.Available(ReadView())) || exists q | q in writeQueue[..i] :: W.InMap(writes, q)
      {
        var request := writeQueue[i];
        FailOneMore(writes, writeQueue, i);
        if request.op in failed && failed[request.op].request == request {
          failed := failed[request.op := failed[request.op].(done := true, err := Some(NetClosed))];
          ready := true;
        }
      }
      assert writeQueue[..|writeQueue|] == writeQueue;
      writeQueue := [];
    }

    method ShutdownLocked()
      modifies this
      ensures ReadView() == R.Shutdown(old(ReadView())) && WriteView() == W.Drop(old(WriteView()))
    {
      closed := true;
      readQueue := [];
      writeQueue := [];
    }
  }

  lemma FailOneMore(writes: map<OpId, W.Entry>, queue: seq<W.Request>, i: nat)
    requires i < |queue|
    ensures forall q :: q in queue[..i + 1] <==> q in queue[..i] || q == queue[i]
    ensures var before, after := W.FailQueued(writes, queue[..i]), W.FailQueued(writes, queue[..i + 1]);
            && (W.InMap(before, queue[i]) <==> W.InMap(writes, queue[i]))
            && after == if W.InMap(before, queue[i])
                        then before[queue[i].op := before[queue[i].op].(done := true, err := Some(NetClosed))] else before
  {
    assert queue[..i + 1] == queue[..i] + [queue[i]];
  }
}

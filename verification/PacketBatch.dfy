/** A run of SendPacket commands that the driver takes off its queue in one go
    (internal/engine/instance.go, handlePacketBatch). */
module PacketBatch {
  import opened Core

  const MAXIMUM_BATCH := 32

  // A queued command, by its submitter, and whether it is a SendPacket.
  datatype Command = Command(submitter: nat, isPacket: bool)

  type Failure = Option<nat>

  // What a submitter hears: its own command's error, or that of the drive that followed.
  datatype Response = Response(submitter: nat, error: Failure)

  /** How many commands join a batch of `count`: the packets at the head of the queue, up to
      the batch's room. */
  function Joining(queue: seq<Command>, count: nat): (n: nat)
    ensures n <= |queue|
    decreases |queue|
  {
    if count >= MAXIMUM_BATCH || queue == [] || !queue[0].isPacket then 0
    else 1 + Joining(queue[1..], count + 1)
  }

  // The command behind the batch, which was taken off the queue to be looked at.
  function Following(queue: seq<Command>, count: nat): Option<Command> {
    var n := Joining(queue, count);
    if count + n < MAXIMUM_BATCH && n < |queue| then Some(queue[n]) else None
  }

  predicate AnySucceeds(batch: seq<Command>, handle: Command -> Failure) {
    exists i | 0 <= i < |batch| :: handle(batch[i]) == None
  }

  /** The answers to a batch, in order: each command's own error, or the drive's. */
  function Answers(batch: seq<Command>, handle: Command -> Failure, driven: Failure): (r: seq<Response>)
    ensures |r| == |batch|
  {
    seq(|batch|, i requires 0 <= i < |batch| =>
      Response(batch[i].submitter, if handle(batch[i]).Some? then handle(batch[i]) else driven))
  }

  function Driven(batch: seq<Command>, handle: Command -> Failure, drive: Failure): Failure {
    if AnySucceeds(batch, handle) then drive else None
  }

  /** All the responses of one call, in order. */
  function Responses(first: Command, queue: seq<Command>, handle: Command -> Failure, firstDrive: Failure, secondDrive: Failure): seq<Response> {
    var batch := [first] + queue[..Joining(queue, 1)];
    var following := Following(queue, 1);
    var driven := Driven(batch, handle, firstDrive);
    Answers(batch, handle, driven)
    + (if following == None || driven.Some? then []
       else if handle(following.value).Some? then [Response(following.value.submitter, handle(following.value))]
       else [Response(following.value.submitter, secondDrive)])
  }

  /** Every command that was taken off the queue gets one response, in order, except that the
      one behind the batch gets its response if and only if the batch's drive did not fail. */
  lemma OneResponseEach(first: Command, queue: seq<Command>, handle: Command -> Failure, firstDrive: Failure, secondDrive: Failure)
    ensures var batch, r := [first] + queue[..Joining(queue, 1)], Responses(first, queue, handle, firstDrive, secondDrive);
      && (forall i | 0 <= i < |batch| :: i < |r| && r[i].submitter == batch[i].submitter)
      && (Following(queue, 1).Some? ==> (|r| == |batch| + 1 <==> Driven(batch, handle, firstDrive) == None))
      && (|r| == |batch| + 1 ==> Following(queue, 1).Some? && r[|batch|].submitter == Following(queue, 1).value.submitter)
      && |batch| <= |r| <= |batch| + 1
  {}

  /** So it happens that a command is taken off the queue and never answered. */
  lemma FollowerUnanswered()
    ensures var r := Responses(Command(0, true), [Command(1, false)], _ => None, Some(9), None);
      Following([Command(1, false)], 1) == Some(Command(1, false)) && r == [Response(0, Some(9))]
  {
    var batch := [Command(0, true)] + [Command(1, false)][..0];
    assert batch == [Command(0, true)];
    var handle: Command -> Failure := _ => None;
    assert handle(batch[0]) == None;
    assert AnySucceeds(batch, handle);
  }

  lemma {:induction false} JoiningArePackets(queue: seq<Command>, count: nat)
    ensures forall i | 0 <= i < Joining(queue, count) :: queue[i].isPacket
    ensures count <= MAXIMUM_BATCH ==> count + Joining(queue, count) <= MAXIMUM_BATCH
    decreases |queue|
  {
    if count < MAXIMUM_BATCH && queue != [] && queue[0].isPacket {
      JoiningArePackets(queue[1..], count + 1);
      forall i | 0 <= i < Joining(queue, count) ensures queue[i].isPacket {
        if i > 0 { assert queue[1..][i - 1].isPacket; }
      }
    }
  }

  /** The driver's queue of commands and the responses it has sent. */
  class Driver {
    var commands: seq<Command>
    ghost var responses: seq<Response>
    ghost var drives: nat

    // A send on the one-slot response channel of the command.
    method Respond(to: Command, error: Failure)
      modifies this`responses
      ensures responses == old(responses) + [Response(to.submitter, error)]
    {
      responses := responses + [Response(to.submitter, error)];
    }

    method Drive(outcome: Failure) returns (error: Failure)
      modifies this`drives
      ensures drives == old(drives) + 1 && error == outcome
    {
      drives := drives + 1;
      return outcome;
    }

    // The drain loop: packets join the batch until it is full, the queue is empty, or another
    // command turns up.
    method Collect(first: Command) returns (batch: seq<Command>, following: Option<Command>)
      modifies this`commands
      ensures batch == [first] + old(commands)[..Joining(old(commands), 1)]
      ensures following == Following(old(commands), 1)
      ensures commands == old(commands)[Joining(old(commands), 1) + (if following.Some? then 1 else 0)..]
    {
      batch, following := [first], None;
      ghost var queue := commands;
      while |batch| < MAXIMUM_BATCH && commands != []
        invariant 1 <= |batch| <= MAXIMUM_BATCH && |batch| - 1 <= |queue|
        invariant batch == [first] + queue[..|batch| - 1] && commands == queue[|batch| - 1..]
        invariant Joining(queue, 1) == |batch| - 1 + Joining(commands, |batch|)
        decreases |commands|
      {
        var request := commands[0];
        commands := commands[1..];
        if !request.isPacket {
          following := Some(request);
          return;
        }
        batch := batch + [request];
      }
    }

    // The sends of a batch, one drive for all of them, and their responses.
    method AnswerBatch(batch: seq<Command>, handle: Command -> Failure, drive: Failure) returns (driveErr: Failure)
      modifies this`responses, this`drives
      ensures driveErr == Driven(batch, handle, drive)
      ensures responses == old(responses) + Answers(batch, handle, driveErr)
      ensures drives == old(drives) + (if AnySucceeds(batch, handle) then 1 else 0)
    {
      var successful := false;
      var sendErrors: seq<Failure> := [];
      for index := 0 to |batch|
        invariant |sendErrors| == index && forall i | 0 <= i < index :: sendErrors[i] == handle(batch[i])
        invariant successful <==> exists i | 0 <= i < index :: handle(batch[i]) == None
        invariant responses == old(responses) && drives == old(drives)
      {
        var err := handle(batch[index]);
        sendErrors := sendErrors + [err];
        successful := successful || err == None;
      }
      driveErr := None;
      if successful {
        driveErr := Drive(drive);
      }
      assert successful == AnySucceeds(batch, handle);
      ghost var answers := Answers(batch, handle, driveErr);
      for index := 0 to |batch|
        invariant responses == old(responses) + answers[..index]
        invariant drives == old(drives) + (if successful then 1 else 0)
      {
        Respond(batch[index], if sendErrors[index].Some? then sendErrors[index] else driveErr);
        assert answers[..index + 1] == answers[..index] + [answers[index]];
      }
      assert answers[..|batch|] == answers;
    }

    /** Every command that was taken gets exactly one response, in order, but for one: the
        command behind the batch gets none exactly when the batch's drive failed.  One drive
        serves the whole batch, and none is made if every packet was refused. */
    method HandlePacketBatch(first: Command, handle: Command -> Failure, firstDrive: Failure, secondDrive: Failure)
      returns (error: Failure)
      requires first.isPacket
      modifies this
      ensures responses == old(responses) + Responses(first, old(commands), handle, firstDrive, secondDrive)
      ensures var n, following := Joining(old(commands), 1), Following(old(commands), 1);
              var batch := [first] + old(commands)[..n];
              var driven := Driven(batch, handle, firstDrive);
              && commands == old(commands)[n + (if following.Some? then 1 else 0)..]
              && error == (if driven.Some? then driven
                           else if following.Some? && handle(following.value) == None then secondDrive else None)
              && drives == old(drives) + (if AnySucceeds(batch, handle) then 1 else 0)
                           + (if following.Some? && driven == None && handle(following.value) == None then 1 else 0)
    {
      var batch, following := Collect(first);
      var driveErr := AnswerBatch(batch, handle, firstDrive);
      hide Joining, Following, Answers, AnySucceeds;
      if driveErr.Some? || following == None {
        return driveErr;
      }
      var commandErr := handle(following.value);
      if commandErr.Some? {
        Respond(following.value, commandErr);
        return None;
      }
      driveErr := Drive(secondDrive);
      Respond(following.value, driveErr);
      return driveErr;
    }
  }
}

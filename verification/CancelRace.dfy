/** One call of performOperation against the driver goroutine: submission, cancellation and
    close race over unbuffered and one-slot channels (internal/engine/dataplane.go:118-245,
    instance.go:257-342).  Every select is a free choice among the branches that are ready. */
module CancelRace {
  import opened Core
  import opened Outcomes

  // The ErrorCancelled kind of a data-plane error.
  const CANCELLED := 1

  // What the driver puts in the response channel of a submit command.
  datatype Response = Refused(error: OpError) | Completed(outcome: Outcome) | Ticket(id: OpId)

  // What the call returns: the mapped outcome, an error, net.ErrClosed or the context's error.
  datatype Answer = Real(outcome: Outcome) | Failed(error: OpError) | Closed | ContextError

  /** Where the caller is: blocked in the select named in each line. */
  datatype Caller =
    | Offering                      // performOperation, handing over the submit command
    | AwaitingTicket                // its second select
    | AwaitingTicketOnly            // the same, after the context ended
    | Waiting(ticket: OpId)         // its last select
    | OfferingCancel(ticket: OpId)  // cancelAndWait, handing over the cancel command
    | AwaitingCancel(ticket: OpId)  // its second select
    | AwaitingOutcome(ticket: OpId) // its last select
    | Returned(answer: Answer)

  // Where the driver is: in its select, inside a command, past its loop, or done.
  datatype Driver = Idle | Submitting | DrivingSubmit(id: OpId) | Cancelling(target: OpId) | DrivingCancel | Ending | Finished

  /** `response`, `reply` and `slot` are the one-slot channels for the ticket, for the cancel
      command and for the outcome.  The rest is bookkeeping: the id the core gave, the outcome
      sent, the core's refusals, and the ids whose cancellation reached the core. */
  datatype State = State(
    caller: Caller,
    driver: Driver,
    contextDone: bool,
    closing: bool,
    pending: Option<OpId>,
    response: Option<Response>,
    reply: Option<Option<OpError>>,
    slot: Option<Outcome>,
    submitted: Option<OpId>,
    outcome: Option<Outcome>,
    refusal: Option<OpError>,
    cancelRefusal: Option<OpError>,
    cancels: seq<OpId>)

  const Init := State.State(Offering, Idle, false, false, None, None, None, None, None, None, None, None, [])

  datatype Step =
    // the world
    | EndContext
    | RequestClose
    // the caller
    | HandSubmit
    | HandCancel
    | NoteContext
    | NoteClosed
    | TakeResponse
    | TakeReply
    | TakeOutcome
    // the driver
    | AnswerSubmit(got: OpId, refused: Option<OpError>)
    | AnswerCancel(refused: Option<OpError>)
    | Drive(done: Option<Outcome>, fault: Option<OpError>)
    | LeaveLoop
    | FailPending
    | Finish

  function Return(s: State, a: Answer): State {
    s.(caller := Returned(a))
  }

  // ---- the caller's branches

  function DoHandSubmit(s: State): State {
    if s.caller == Offering && s.driver == Idle then s.(caller := AwaitingTicket, driver := Submitting) else s
  }

  function DoHandCancel(s: State): State {
    if s.caller.OfferingCancel? && s.driver == Idle
    then s.(caller := AwaitingCancel(s.caller.ticket), driver := Cancelling(s.caller.ticket))
    else s
  }

  // The branch on ctx.Done, in the selects that have one.
  function DoNoteContext(s: State): State {
    if !s.contextDone then s
    else
      match s.caller
      case Offering => Return(s, ContextError)
      case AwaitingTicket => s.(caller := AwaitingTicketOnly)
      case Waiting(id) => s.(caller := OfferingCancel(id))
      case _ => s
  }

  // The branches on done and on closeRequested; every select has both.
  function DoNoteClosed(s: State): State {
    if (s.closing || s.driver == Finished) && !s.caller.Returned? then Return(s, Closed) else s
  }

  function DoTakeResponse(s: State): State {
    if s.response == None then s
    else
      match s.caller
      case AwaitingTicket => TookResponse(s.(response := None), s.response.value, false)
      case AwaitingTicketOnly => TookResponse(s.(response := None), s.response.value, true)
      case _ => s
  }

  function TookResponse(s: State, r: Response, cancel: bool): State {
    match r
    case Refused(e) => Return(s, Answer.Failed(e))
    case Completed(o) => Return(s, Real(o))
    case Ticket(id) => s.(caller := if cancel then OfferingCancel(id) else Waiting(id))
  }

  function DoTakeReply(s: State): State {
    if s.reply == None || !s.caller.AwaitingCancel? then s
    else
      match s.reply.value
      case Some(e) => Return(s.(reply := None), Answer.Failed(e))
      case None => s.(reply := None, caller := AwaitingOutcome(s.caller.ticket))
  }

  // cancelledOutcome
  function CancelledOutcome(o: Outcome): Answer {
    if o.error == Some(DataPlane(CANCELLED)) then ContextError else Real(o)
  }

  function DoTakeOutcome(s: State): State {
    if s.slot == None then s
    else
      var o, t := s.slot.value, s.(slot := None);
      match s.caller
      case Waiting(_) => Return(t, Real(o))
      case OfferingCancel(_) => Return(t, Real(o))
      case AwaitingCancel(_) => Return(t, CancelledOutcome(o))
      case AwaitingOutcome(_) => Return(t, CancelledOutcome(o))
      case _ => s
  }

  // ---- the driver's steps

  function DoAnswerSubmit(s: State, id: OpId, refused: Option<OpError>): State {
    if s.driver != Submitting then s
    else
      match refused
      case Some(e) => s.(driver := Idle, response := Some(Refused(e)), refusal := Some(e))
      case None => s.(driver := DrivingSubmit(id), pending := Some(id), submitted := Some(id))
  }

  function DoAnswerCancel(s: State, refused: Option<OpError>): State {
    if !s.driver.Cancelling? then s
    else if s.pending != Some(s.driver.target) then s.(driver := DrivingCancel)
    else
      var t := s.(cancels := s.cancels + [s.driver.target]);
      match refused
      case Some(e) => t.(driver := Idle, reply := Some(Some(e)), cancelRefusal := Some(e))
      case None => t.(driver := DrivingCancel)
  }

  // The outcome of the operation reaches its channel.
  function Deliver(s: State, o: Outcome): State {
    if s.pending == None then s else s.(pending := None, slot := Some(o), outcome := Some(o))
  }

  /** Instance.drive: it may deliver the operation's outcome, and it may fail.  The answer to
      the command that it ran for follows at once. */
  function DoDrive(s: State, done: Option<Outcome>, fault: Option<OpError>): State {
    var t := if done.Some? then Deliver(s, done.value) else s;
    match s.driver
    case Idle => if fault.Some? then t.(driver := Ending) else t
    case DrivingSubmit(id) =>
      (match fault
       case Some(e) => t.(driver := Ending, response := Some(Refused(e)), refusal := Some(e))
       case None =>
         if t.slot.Some? then t.(driver := Idle, slot := None, response := Some(Completed(t.slot.value)))
         else t.(driver := Idle, response := Some(Ticket(id))))
    case DrivingCancel =>
      (match fault
       case Some(e) => t.(driver := Ending, reply := Some(Some(e)), cancelRefusal := Some(e))
       case None => t.(driver := Idle, reply := Some(None)))
    case _ => s
  }

  function Apply(s: State, e: Step): State {
    match e
    case EndContext => s.(contextDone := true)
    case RequestClose => s.(closing := true)
    case HandSubmit => DoHandSubmit(s)
    case HandCancel => DoHandCancel(s)
    case NoteContext => DoNoteContext(s)
    case NoteClosed => DoNoteClosed(s)
    case TakeResponse => DoTakeResponse(s)
    case TakeReply => DoTakeReply(s)
    case TakeOutcome => DoTakeOutcome(s)
    case AnswerSubmit(id, refused) => DoAnswerSubmit(s, id, refused)
    case AnswerCancel(refused) => DoAnswerCancel(s, refused)
    case Drive(done, fault) => DoDrive(s, done, fault)
    case LeaveLoop => if s.driver == Idle then s.(driver := Ending) else s
    case FailPending => if s.driver == Ending then Deliver(s, CLOSED) else s
    case Finish => if s.driver == Ending && s.pending == None then s.(driver := Finished) else s
  }

  function Run(es: seq<Step>): State {
    if es == [] then Init else Apply(Run(es[..|es| - 1]), es[|es| - 1])
  }

  // ---------------------------------------------------------------- the invariant

  predicate Before(s: State) {
    && s.pending == None && s.response == None && s.submitted == None && s.outcome == None && s.slot == None
    && s.refusal == None
  }

  predicate BusySubmitting(s: State) {
    s.driver == Submitting || s.driver.DrivingSubmit?
  }

  predicate BusyCancelling(s: State) {
    s.driver.Cancelling? || s.driver == DrivingCancel
  }

  // Which channels can be in use in which phase of the call.
  predicate CallerOk(s: State) {
    match s.caller
    case Offering => Before(s) && !BusySubmitting(s) && !BusyCancelling(s) && s.reply == None && s.cancels == []
    case AwaitingTicket => s.cancels == [] && s.reply == None && !BusyCancelling(s) && (BusySubmitting(s) <==> s.response == None)
    case AwaitingTicketOnly =>
      s.cancels == [] && s.reply == None && !BusyCancelling(s) && (BusySubmitting(s) <==> s.response == None) && s.contextDone
    case Waiting(id) => s.cancels == [] && s.reply == None && !BusySubmitting(s) && !BusyCancelling(s) && Holds(s, id)
    case OfferingCancel(id) =>
      s.cancels == [] && s.reply == None && !BusySubmitting(s) && !BusyCancelling(s) && s.contextDone && Holds(s, id)
    case AwaitingCancel(id) => s.contextDone && !BusySubmitting(s) && (BusyCancelling(s) <==> s.reply == None) && Holds(s, id)
    case AwaitingOutcome(id) => s.contextDone && s.reply == None && !BusySubmitting(s) && !BusyCancelling(s) && Holds(s, id)
    case Returned(a) =>
      && (BusySubmitting(s) || s.response.Some? ==> a == Closed)
      && (BusySubmitting(s) ==> s.response == None)
      && (BusyCancelling(s) ==> s.submitted.Some? && s.response == None && !a.Failed?)
  }

  // The call has its ticket, and the operation's outcome is still to come or is in its channel.
  predicate Holds(s: State, id: OpId) {
    && s.submitted == Some(id) && s.response == None && s.refusal == None
    && (s.pending == Some(id) || s.slot.Some?)
  }

  // The answer given is the right one.
  predicate AnswerOk(s: State, a: Answer) {
    match a
    case Real(o) => s.outcome == Some(o)
    case Failed(e) => s.refusal == Some(e) || s.cancelRefusal == Some(e)
    case Closed => s.closing || s.driver == Finished
    case ContextError =>
      s.contextDone && ((s.submitted == None && s.refusal == None) || (s.outcome.Some? && s.outcome.value.error == Some(DataPlane(CANCELLED))))
  }

  predicate ChannelsOk(s: State) {
    && (s.slot.Some? ==> s.outcome == s.slot && s.pending == None)
    && (s.pending.Some? ==> s.pending == s.submitted && s.outcome == None)
    && (s.submitted == None ==> s.outcome == None)
    && (s.outcome.Some? ==> s.pending == None)
    && (match s.response
        case Some(Refused(e)) => s.refusal == Some(e)
        case Some(Completed(o)) => s.outcome == Some(o)
        case Some(Ticket(id)) => s.submitted == Some(id) && s.refusal == None && (s.pending == Some(id) || s.slot.Some?)
        case None => true)
    && (s.reply.Some? && s.reply.value.Some? ==> s.cancelRefusal == s.reply.value)
    && (match s.driver
        case Submitting => Before(s)
        case DrivingSubmit(id) => s.pending == Some(id) && s.response == None && s.refusal == None && s.slot == None
        case Cancelling(id) => s.submitted == Some(id)
        case _ => true)
  }

  predicate AnswerPart(s: State) {
    && (s.caller.Returned? ==> AnswerOk(s, s.caller.answer))
    && (forall id | id in s.cancels :: s.submitted == Some(id))
  }

  predicate Inv(s: State) {
    && CallerOk(s) && ChannelsOk(s)
    && AnswerPart(s)
  }

  lemma HandSubmitInv(s: State)
    requires Inv(s)
    ensures Inv(DoHandSubmit(s))
  {}

  lemma HandCancelInv(s: State)
    requires Inv(s)
    ensures Inv(DoHandCancel(s))
  {}

  lemma NoteContextCaller(s: State)
    requires Inv(s)
    ensures CallerOk(DoNoteContext(s))
  {
    hide AnswerPart;
  }

  lemma NoteContextAnswer(s: State)
    requires Inv(s)
    ensures AnswerPart(DoNoteContext(s))
  {
    hide ChannelsOk;
  }

  lemma ChannelsIgnoreCaller(s: State, caller: Caller)
    requires ChannelsOk(s)
    ensures ChannelsOk(s.(caller := caller))
  {}

  lemma NoteContextInv(s: State)
    requires Inv(s)
    ensures Inv(DoNoteContext(s))
  {
    NoteContextCaller(s);
    NoteContextAnswer(s);
    ChannelsIgnoreCaller(s, DoNoteContext(s).caller);
    hide CallerOk, ChannelsOk, AnswerPart;
  }

  lemma NoteClosedInv(s: State)
    requires Inv(s)
    ensures Inv(DoNoteClosed(s))
  {}

  lemma TakeResponseCaller(s: State)
    requires Inv(s)
    ensures CallerOk(DoTakeResponse(s))
  {
    if s.response.Some? && (s.caller == AwaitingTicket || s.caller == AwaitingTicketOnly) { NotBusy(s); }
    hide AnswerPart;
  }

  // Whoever takes the response finds the driver done with the submission.
  lemma NotBusy(s: State)
    requires CallerOk(s) && s.response.Some? && (s.caller == AwaitingTicket || s.caller == AwaitingTicketOnly)
    ensures !BusySubmitting(s) && !BusyCancelling(s)
  {}

  lemma TakeResponseChannels(s: State)
    requires Inv(s)
    ensures ChannelsOk(DoTakeResponse(s))
  {
    if s.response.Some? && (s.caller == AwaitingTicket || s.caller == AwaitingTicketOnly) { NotBusy(s); }
    hide AnswerPart, CallerOk;
  }

  // A response tells the truth about the submission.
  predicate ResponseOk(s: State, r: Response) {
    match r
    case Refused(e) => s.refusal == Some(e)
    case Completed(o) => s.outcome == Some(o)
    case Ticket(_) => true
  }

  lemma TookAnswer(s: State, r: Response, cancel: bool)
    requires !s.caller.Returned? && AnswerPart(s) && ResponseOk(s, r)
    ensures AnswerPart(TookResponse(s.(response := None), r, cancel))
  {}

  lemma ResponseIsOk(s: State)
    requires ChannelsOk(s) && s.response.Some?
    ensures ResponseOk(s, s.response.value)
  {}

  lemma TakeResponseAnswer(s: State)
    requires Inv(s)
    ensures AnswerPart(DoTakeResponse(s))
  {
    if s.response.Some? && (s.caller == AwaitingTicket || s.caller == AwaitingTicketOnly) {
      ResponseIsOk(s);
      TookAnswer(s, s.response.value, s.caller == AwaitingTicketOnly);
    }
    hide CallerOk, ChannelsOk, AnswerPart, TookResponse;
  }

  lemma TakeResponseInv(s: State)
    requires Inv(s)
    ensures Inv(DoTakeResponse(s))
  {
    TakeResponseCaller(s);
    TakeResponseChannels(s);
    TakeResponseAnswer(s);
  }

  lemma TakeReplyInv(s: State)
    requires Inv(s)
    ensures Inv(DoTakeReply(s))
  {}

  lemma TakeOutcomeCaller(s: State)
    requires Inv(s)
    ensures CallerOk(DoTakeOutcome(s))
  {
    hide AnswerPart;
  }

  lemma TakeOutcomeChannels(s: State)
    requires Inv(s)
    ensures ChannelsOk(DoTakeOutcome(s))
  {
    hide AnswerPart;
  }

  lemma TakeOutcomeAnswer(s: State)
    requires Inv(s)
    ensures AnswerPart(DoTakeOutcome(s))
  {}

  lemma TakeOutcomeInv(s: State)
    requires Inv(s)
    ensures Inv(DoTakeOutcome(s))
  {
    TakeOutcomeCaller(s);
    TakeOutcomeChannels(s);
    TakeOutcomeAnswer(s);
    hide CallerOk, ChannelsOk, AnswerPart, DoTakeOutcome;
  }

  lemma AnswerSubmitInv(s: State, id: OpId, refused: Option<OpError>)
    requires Inv(s)
    ensures Inv(DoAnswerSubmit(s, id, refused))
  {}

  lemma AnswerCancelCaller(s: State, refused: Option<OpError>)
    requires Inv(s)
    ensures CallerOk(DoAnswerCancel(s, refused))
  {
    hide AnswerPart;
  }

  lemma AnswerCancelChannels(s: State, refused: Option<OpError>)
    requires Inv(s)
    ensures ChannelsOk(DoAnswerCancel(s, refused))
  {
    hide AnswerPart, CallerOk;
  }

  lemma AnswerCancelAnswer(s: State, refused: Option<OpError>)
    requires Inv(s)
    ensures AnswerPart(DoAnswerCancel(s, refused))
  {}

  lemma AnswerCancelInv(s: State, refused: Option<OpError>)
    requires Inv(s)
    ensures Inv(DoAnswerCancel(s, refused))
  {
    AnswerCancelCaller(s, refused);
    AnswerCancelChannels(s, refused);
    AnswerCancelAnswer(s, refused);
    hide CallerOk, ChannelsOk, AnswerPart, DoAnswerCancel;
  }

  lemma DriveIdleCaller(s: State, done: Option<Outcome>, fault: Option<OpError>)
    requires Inv(s) && s.driver == Idle
    ensures CallerOk(DoDrive(s, done, fault))
  {
    hide AnswerPart;
  }

  lemma DriveSubmitCaller(s: State, done: Option<Outcome>, fault: Option<OpError>)
    requires Inv(s) && s.driver.DrivingSubmit?
    ensures CallerOk(DoDrive(s, done, fault))
  {
    hide AnswerPart;
  }

  lemma DriveCancelCaller(s: State, done: Option<Outcome>, fault: Option<OpError>)
    requires Inv(s) && s.driver == DrivingCancel
    ensures CallerOk(DoDrive(s, done, fault))
  {
    hide AnswerPart;
  }

  lemma DriveCaller(s: State, done: Option<Outcome>, fault: Option<OpError>)
    requires Inv(s)
    ensures CallerOk(DoDrive(s, done, fault))
  {
    match s.driver
    case Idle =>
      DriveIdleCaller(s, done, fault);
      hide DoDrive;
    case DrivingSubmit(_) =>
      DriveSubmitCaller(s, done, fault);
      hide DoDrive;
    case DrivingCancel =>
      DriveCancelCaller(s, done, fault);
      hide DoDrive;
    case _ =>
  }

  lemma DriveIdleChannels(s: State, done: Option<Outcome>, fault: Option<OpError>)
    requires Inv(s) && s.driver == Idle
    ensures ChannelsOk(DoDrive(s, done, fault))
  {
    hide AnswerPart;
  }

  lemma DriveSubmitChannels(s: State, done: Option<Outcome>, fault: Option<OpError>)
    requires Inv(s) && s.driver.DrivingSubmit?
    ensures ChannelsOk(DoDrive(s, done, fault))
  {
    hide AnswerPart;
  }

  lemma DriveCancelChannels(s: State, done: Option<Outcome>, fault: Option<OpError>)
    requires Inv(s) && s.driver == DrivingCancel
    ensures ChannelsOk(DoDrive(s, done, fault))
  {
    hide AnswerPart;
  }

  lemma DriveChannels(s: State, done: Option<Outcome>, fault: Option<OpError>)
    requires Inv(s)
    ensures ChannelsOk(DoDrive(s, done, fault))
  {
    match s.driver
    case Idle =>
      DriveIdleChannels(s, done, fault);
      hide DoDrive;
    case DrivingSubmit(_) =>
      DriveSubmitChannels(s, done, fault);
      hide DoDrive;
    case DrivingCancel =>
      DriveCancelChannels(s, done, fault);
      hide DoDrive;
    case _ =>
  }

  lemma DriveIdleAnswer(s: State, done: Option<Outcome>, fault: Option<OpError>)
    requires Inv(s) && s.driver == Idle
    ensures AnswerPart(DoDrive(s, done, fault))
  {
    hide CallerOk;
  }

  lemma DriveSubmitAnswer(s: State, done: Option<Outcome>, fault: Option<OpError>)
    requires Inv(s) && s.driver.DrivingSubmit?
    ensures AnswerPart(DoDrive(s, done, fault))
  {}

  lemma DriveCancelAnswer(s: State, done: Option<Outcome>, fault: Option<OpError>)
    requires Inv(s) && s.driver == DrivingCancel
    ensures AnswerPart(DoDrive(s, done, fault))
  {}

  lemma DriveAnswer(s: State, done: Option<Outcome>, fault: Option<OpError>)
    requires Inv(s)
    ensures AnswerPart(DoDrive(s, done, fault))
  {
    match s.driver
    case Idle =>
      DriveIdleAnswer(s, done, fault);
      hide DoDrive;
    case DrivingSubmit(_) =>
      DriveSubmitAnswer(s, done, fault);
      hide DoDrive;
    case DrivingCancel =>
      DriveCancelAnswer(s, done, fault);
      hide DoDrive;
    case _ =>
  }

  lemma DriveInv(s: State, done: Option<Outcome>, fault: Option<OpError>)
    requires Inv(s)
    ensures Inv(DoDrive(s, done, fault))
  {
    DriveCaller(s, done, fault);
    DriveChannels(s, done, fault);
    DriveAnswer(s, done, fault);
  }

  lemma FailPendingInv(s: State)
    requires Inv(s) && s.driver == Ending
    ensures Inv(Deliver(s, CLOSED))
  {}

  lemma EndContextInv(s: State)
    requires Inv(s)
    ensures Inv(s.(contextDone := true))
  {}

  lemma RequestCloseInv(s: State)
    requires Inv(s)
    ensures Inv(s.(closing := true))
  {}

  lemma LeaveLoopInv(s: State)
    requires Inv(s) && s.driver == Idle
    ensures Inv(s.(driver := Ending))
  {}

  lemma FinishInv(s: State)
    requires Inv(s) && s.driver == Ending
    ensures Inv(s.(driver := Finished))
  {}

  lemma ApplyInv(s: State, e: Step)
    requires Inv(s)
    ensures Inv(Apply(s, e))
  {
    hide Inv, Deliver, DoHandSubmit, DoHandCancel, DoNoteContext, DoNoteClosed, DoTakeResponse, DoTakeReply, DoTakeOutcome,
      DoAnswerSubmit, DoAnswerCancel, DoDrive;
    match e
    case HandSubmit => HandSubmitInv(s);
    case HandCancel => HandCancelInv(s);
    case NoteContext => NoteContextInv(s);
    case NoteClosed => NoteClosedInv(s);
    case TakeResponse => TakeResponseInv(s);
    case TakeReply => TakeReplyInv(s);
    case TakeOutcome => TakeOutcomeInv(s);
    case AnswerSubmit(id, refused) => AnswerSubmitInv(s, id, refused);
    case AnswerCancel(refused) => AnswerCancelInv(s, refused);
    case Drive(done, fault) => DriveInv(s, done, fault);
    case FailPending => if s.driver == Ending { FailPendingInv(s); }
    case EndContext => EndContextInv(s);
    case RequestClose => RequestCloseInv(s);
    case LeaveLoop => if s.driver == Idle { LeaveLoopInv(s); }
    case Finish => if s.driver == Ending { FinishInv(s); }
  }

  lemma {:induction false} RunInv(es: seq<Step>)
    ensures Inv(Run(es))
  {
    if es != [] {
      RunInv(es[..|es| - 1]);
      ApplyInv(Run(es[..|es| - 1]), es[|es| - 1]);
    }
  }

  // ---------------------------------------------------------------- main results

  /** What the call returns: an outcome is the one the operation really had; an error is the
      core's refusal of the submission or of the cancellation; net.ErrClosed is returned only
      by a closing or finished instance; and the context's own error only if nothing was
      submitted or the operation did end cancelled. */
  lemma AnswerIsTrue(es: seq<Step>, a: Answer)
    requires Run(es).caller == Returned(a)
    ensures AnswerOk(Run(es), a)
  {
    RunInv(es);
  }

  /** A call whose operation was submitted on an instance that is neither closing nor finished,
      and whose cancellation the core did not refuse, returns the operation's own outcome; the
      context's error replaces nothing but an outcome that says cancelled. */
  lemma CancellationKeepsTheOutcome(es: seq<Step>, a: Answer)
    requires var s := Run(es);
             && s.caller == Returned(a) && s.submitted.Some?
             && !s.closing && s.driver != Finished && s.refusal == None && s.cancelRefusal == None
    ensures var s := Run(es); s.outcome.Some? && a == (if a.ContextError? then CancelledOutcome(s.outcome.value) else Real(s.outcome.value))
  {
    RunInv(es);
  }

  /** So a success is never reported as a cancellation. */
  lemma SuccessIsReported(es: seq<Step>, a: Answer, o: Outcome)
    requires var s := Run(es); s.caller == Returned(a) && s.outcome == Some(o) && o.error == None
    requires !a.Failed? && !a.Closed?
    ensures a == Real(o)
  {
    RunInv(es);
  }

  /** The core is asked to cancel the operation that was submitted and no other. */
  lemma CancelNamesTheOperation(es: seq<Step>, id: OpId)
    requires id in Run(es).cancels
    ensures Run(es).submitted == Some(id)
  {
    RunInv(es);
  }

  /** Whatever the call waits for is in its channel or has a sender that still owes it. */
  lemma NeverWaitsInVain(es: seq<Step>)
    ensures var s := Run(es);
            match s.caller
            case AwaitingTicket => s.response.Some? != BusySubmitting(s)
            case AwaitingTicketOnly => s.response.Some? != BusySubmitting(s)
            case AwaitingCancel(id) => s.reply.Some? != BusyCancelling(s)
            case Waiting(id) => s.slot.Some? != (s.pending == Some(id))
            case OfferingCancel(id) => s.slot.Some? != (s.pending == Some(id))
            case AwaitingOutcome(id) => s.slot.Some? != (s.pending == Some(id))
            case _ => true
  {
    RunInv(es);
  }
}

/** The table of pending operations that the driver of one instance owns, and the one-slot
    channel on which each submitter waits (internal/engine/dataplane.go, rpc.go). */
module Outcomes {
  import opened Core

  datatype OpError = DataPlane(kind: nat) | ErrClosed | Plain(code: nat)

  datatype Outcome = Outcome(result: nat, error: Option<OpError>)

  const CLOSED := Outcome(0, Some(ErrClosed))

  // A completion record, with what TakeResult answers for it.
  datatype Completion = Completion(op: OpId, kind: nat, status: nat, taken: Outcome)

  const BATCH := 64

  // Submission number `slot` waits under some id; the result must be of its kind.
  datatype Entry = Entry(kind: nat, slot: Serial)

  /** `asked` and `sent` log, by submission number, the id and kind of every submission and
      the sends on its result channel; `lost` and `freed` note the submissions whose entry was
      replaced or freed. */
  datatype Table = Table(
    pending: map<OpId, Entry>,
    asked: map<Serial, (OpId, nat)>,
    sent: map<Serial, seq<Outcome>>,
    next: nat,
    lost: set<Serial>,
    freed: set<Serial>)

  const Empty := Table(map[], map[], map[], 0, {}, {})

  function Submit(t: Table, id: OpId, kind: nat): Table {
    t.(pending := t.pending[id := Entry(kind, t.next)],
       asked := t.asked[t.next := (id, kind)],
       sent := t.sent[t.next := []],
       next := t.next + 1,
       lost := if id in t.pending then t.lost + {t.pending[id].slot} else t.lost)
  }

  // The send on a result channel would block.
  predicate Full(t: Table, slot: Serial) {
    slot in t.sent && t.sent[slot] != []
  }

  function Send(t: Table, slot: Serial, o: Outcome): Table {
    t.(sent := t.sent[slot := (if slot in t.sent then t.sent[slot] else []) + [o]])
  }

  function Deliver(t: Table, id: OpId, o: Outcome): Table
    requires id in t.pending
  {
    Send(t.(pending := t.pending - {id}), t.pending[id].slot, o)
  }

  function Free(t: Table, id: OpId): Table {
    if id in t.pending then t.(pending := t.pending - {id}, freed := t.freed + {t.pending[id].slot}) else t
  }

  // Every pending submission gets the outcome.
  function FailAll(t: Table, o: Outcome): Table {
    t.(pending := map[], sent := Told(t.sent, Slots(t.pending), o))
  }

  // The channels of the pending submissions.
  function Slots(pending: map<OpId, Entry>): set<Serial> {
    set id | id in pending :: pending[id].slot
  }

  function Told(sent: map<Serial, seq<Outcome>>, slots: set<Serial>, o: Outcome): map<Serial, seq<Outcome>> {
    map k | k in sent :: if k in slots then sent[k] + [o] else sent[k]
  }

  // validateCompletionResult: the record and the result agree about failure.
  predicate Agrees(c: Completion) {
    if c.status == 0 then c.taken.error == None
    else c.taken.error == Some(DataPlane(c.status))
  }

  predicate Acceptable(t: Table, c: Completion) {
    c.op in t.pending && t.pending[c.op].kind == c.kind && Agrees(c)
  }

  // drainDataPlaneCompletions: outcomes are sent up to the first bad record.
  function Drain(t: Table, batch: seq<Completion>): (Table, bool)
    decreases |batch|
  {
    if batch == [] then (t, true)
    else if !Acceptable(t, batch[0]) then (t, false)
    else Drain(Deliver(t, batch[0].op, batch[0].taken), batch[1..])
  }

  // ---------------------------------------------------------------- the driver

  datatype State = State(operations: Table, rpcs: Table, running: bool)

  const Init := State(Empty, Empty, true)

  // The driver's goroutine returns: whatever is still pending fails.
  function End(s: State): State {
    State(FailAll(s.operations, CLOSED), FailAll(s.rpcs, CLOSED), false)
  }

  /** What happens to the two tables.  DoDrain is one pass over the completions that
      DrainCompletions returned, or its failure; DoEnd is any other error, Close or the end of
      the context. */
  datatype Step =
    | DoSubmit(id: OpId, kind: nat)
    | DoDrain(completions: Option<seq<Completion>>)
    | DoSubmitRPC(id: OpId)
    | DoFreeRPC(id: OpId)
    | DoTakeRPC(id: OpId, response: nat)
    | DoEnd

  function Apply(s: State, e: Step): State {
    if !s.running then s else
      match e
      case DoSubmit(id, kind) => s.(operations := Submit(s.operations, id, kind))
      case DoDrain(None) => if s.operations.pending == map[] then s else End(s)
      case DoDrain(Some(batch)) =>
        if s.operations.pending == map[] then s
        else
          var (t, ok) := Drain(s.operations, batch);
          if ok then s.(operations := t) else End(s.(operations := t))
      case DoSubmitRPC(id) => s.(rpcs := Submit(s.rpcs, id, 0))
      case DoFreeRPC(id) => s.(rpcs := Free(s.rpcs, id))
      case DoTakeRPC(id, response) =>
        if id in s.rpcs.pending then s.(rpcs := Deliver(s.rpcs, id, Outcome(response, None))) else s
      case DoEnd => End(s)
  }

  function Run(es: seq<Step>): State {
    if es == [] then Init else Apply(Run(es[..|es| - 1]), es[|es| - 1])
  }

  // ---------------------------------------------------------------- the invariant

  ghost predicate Waits(t: Table, k: Serial) {
    exists id :: id in t.pending && t.pending[id].slot == k
  }

  // Every submission waits, has its one outcome, was replaced or was freed: exactly one of these.
  ghost predicate SlotOk(t: Table, k: Serial)
    requires k in t.sent
  {
    && |t.sent[k]| <= 1
    && (Waits(t, k) <==> t.sent[k] == [] && k !in t.lost && k !in t.freed)
    && (k in t.lost + t.freed ==> t.sent[k] == [])
    && !(k in t.lost && k in t.freed)
  }

  ghost predicate Inv(t: Table) {
    && (forall k: Serial :: k in t.sent <==> k < t.next)
    && (forall id | id in t.pending :: t.pending[id].slot < t.next)
    && (forall a, b | a in t.pending && b in t.pending && a != b :: t.pending[a].slot != t.pending[b].slot)
    && (forall k | k in t.lost :: k < t.next) && (forall k | k in t.freed :: k < t.next)
    && (forall k | k in t.sent :: SlotOk(t, k))
  }

  lemma SubmitSlot(t: Table, id: OpId, kind: nat, k: Serial)
    requires Inv(t) && k in t.sent
    ensures SlotOk(Submit(t, id, kind), k)
  {
    var u := Submit(t, id, kind);
    assert SlotOk(t, k);
    if id in t.pending { assert Waits(t, t.pending[id].slot) && SlotOk(t, t.pending[id].slot); }
    if Waits(t, k) && k !in u.lost {
      var a :| a in t.pending && t.pending[a].slot == k;
      assert a in u.pending && u.pending[a].slot == k;
    }
  }

  lemma SubmitInv(t: Table, id: OpId, kind: nat)
    requires Inv(t)
    ensures Inv(Submit(t, id, kind))
  {
    var u := Submit(t, id, kind);
    assert Waits(u, t.next) by { assert u.pending[id].slot == t.next; }
    assert SlotOk(u, t.next);
    hide SlotOk, Waits;
    forall k | k in t.sent ensures SlotOk(u, k) { SubmitSlot(t, id, kind, k); }
  }

  lemma DeliverInv(t: Table, id: OpId, o: Outcome)
    requires Inv(t) && id in t.pending
    ensures !Full(t, t.pending[id].slot)
    ensures Inv(Deliver(t, id, o))
  {
    var u, slot := Deliver(t, id, o), t.pending[id].slot;
    assert Waits(t, slot) && SlotOk(t, slot);
    forall k | k in u.sent ensures SlotOk(u, k) {
      assert SlotOk(t, k);
      if Waits(t, k) && k != slot {
        var a :| a in t.pending && t.pending[a].slot == k;
        assert a in u.pending && u.pending[a].slot == k;
      }
    }
  }

  lemma FreeInv(t: Table, id: OpId)
    requires Inv(t)
    ensures Inv(Free(t, id))
  {
    if id in t.pending {
      var u, slot := Free(t, id), t.pending[id].slot;
      assert Waits(t, slot) && SlotOk(t, slot);
      forall k | k in u.sent ensures SlotOk(u, k) {
        assert SlotOk(t, k);
        if Waits(t, k) && k != slot {
          var a :| a in t.pending && t.pending[a].slot == k;
          assert a in u.pending && u.pending[a].slot == k;
        }
      }
    }
  }

  lemma FailAllInv(t: Table, o: Outcome)
    requires Inv(t)
    ensures Inv(FailAll(t, o))
    ensures forall k | k in t.sent :: FailAll(t, o).sent[k] == if Waits(t, k) then [o] else t.sent[k]
  {
    assert forall k :: k in FailAll(t, o).sent <==> k in t.sent;
    forall k | k in t.sent ensures SlotOk(FailAll(t, o), k) && FailAll(t, o).sent[k] == if Waits(t, k) then [o] else t.sent[k] {
      assert SlotOk(t, k);
    }
  }

  lemma {:induction false} DrainInv(t: Table, batch: seq<Completion>)
    requires Inv(t)
    ensures Inv(Drain(t, batch).0)
    decreases |batch|
  {
    if batch != [] && Acceptable(t, batch[0]) {
      DeliverInv(t, batch[0].op, batch[0].taken);
      DrainInv(Deliver(t, batch[0].op, batch[0].taken), batch[1..]);
    }
  }

  lemma ApplyInv(s: State, e: Step)
    requires Inv(s.operations) && Inv(s.rpcs)
    ensures Inv(Apply(s, e).operations) && Inv(Apply(s, e).rpcs)
  {
    hide Inv;
    FailAllInv(s.operations, CLOSED);
    FailAllInv(s.rpcs, CLOSED);
    match e
    case DoSubmit(id, kind) => SubmitInv(s.operations, id, kind);
    case DoDrain(Some(batch)) =>
      DrainInv(s.operations, batch);
      FailAllInv(Drain(s.operations, batch).0, CLOSED);
    case DoSubmitRPC(id) => SubmitInv(s.rpcs, id, 0);
    case DoFreeRPC(id) => FreeInv(s.rpcs, id);
    case DoTakeRPC(id, response) => if id in s.rpcs.pending { DeliverInv(s.rpcs, id, Outcome(response, None)); }
    case _ =>
  }

  lemma InitInv()
    ensures Inv(Empty)
  {}

  lemma {:induction false} RunInv(es: seq<Step>)
    ensures Inv(Run(es).operations) && Inv(Run(es).rpcs)
  {
    hide Inv;
    InitInv();
    if es != [] {
      RunInv(es[..|es| - 1]);
      ApplyInv(Run(es[..|es| - 1]), es[|es| - 1]);
    }
  }

  // ---------------------------------------------------------------- where outcomes come from

  // The guest answered this under the id and kind of the submission.
  predicate Answers(c: Completion, asked: (OpId, nat), o: Outcome) {
    c.op == asked.0 && c.kind == asked.1 && c.taken == o && Agrees(c)
  }

  // The outcomes of one table: each was answered by a completion, or is the closing one.
  ghost predicate Sourced(t: Table, cs: set<Completion>, closed: bool) {
    && t.asked.Keys == t.sent.Keys && (forall k | k in t.asked :: k < t.next)
    && (forall id | id in t.pending :: t.pending[id].slot in t.asked && t.asked[t.pending[id].slot] == (id, t.pending[id].kind))
    && forall k, o | k in t.sent && o in t.sent[k] :: (o == CLOSED && closed) || exists c | c in cs :: Answers(c, t.asked[k], o)
  }

  lemma DeliverSourced(t: Table, cs: set<Completion>, closed: bool, c: Completion)
    requires Sourced(t, cs, closed) && c in cs && Acceptable(t, c)
    ensures Sourced(Deliver(t, c.op, c.taken), cs, closed)
  {
    var u, slot := Deliver(t, c.op, c.taken), t.pending[c.op].slot;
    assert Answers(c, t.asked[slot], c.taken);
    forall k, o | k in u.sent && o in u.sent[k]
      ensures (o == CLOSED && closed) || exists c | c in cs :: Answers(c, u.asked[k], o)
    {
      assert o in t.sent[k] || (k == slot && o == c.taken);
    }
  }

  lemma {:induction false} DrainSourced(t: Table, batch: seq<Completion>, cs: set<Completion>, closed: bool)
    requires Sourced(t, cs, closed) && forall c | c in batch :: c in cs
    ensures Sourced(Drain(t, batch).0, cs, closed)
    decreases |batch|
  {
    if batch != [] && Acceptable(t, batch[0]) {
      assert batch[0] in batch;
      DeliverSourced(t, cs, closed, batch[0]);
      DrainSourced(Deliver(t, batch[0].op, batch[0].taken), batch[1..], cs, closed);
    }
  }

  lemma FailAllSourced(t: Table, cs: set<Completion>, closed: bool)
    requires Sourced(t, cs, closed)
    ensures Sourced(FailAll(t, CLOSED), cs, true)
  {
    var u := FailAll(t, CLOSED);
    forall k, o | k in u.sent && o in u.sent[k] ensures o == CLOSED || exists c | c in cs :: Answers(c, u.asked[k], o) {
      assert o in t.sent[k] || o == CLOSED;
    }
  }

  lemma SourcedMore(t: Table, cs: set<Completion>, ds: set<Completion>, closed: bool)
    requires Sourced(t, cs, closed) && cs <= ds
    ensures Sourced(t, ds, closed)
  {
    forall k, o | k in t.sent && o in t.sent[k] ensures (o == CLOSED && closed) || exists c | c in ds :: Answers(c, t.asked[k], o) {
      if !(o == CLOSED && closed) {
        var c :| c in cs && Answers(c, t.asked[k], o);
        assert c in ds;
      }
    }
  }

  // Every completion that the guest reported over the run.
  ghost function Reported(es: seq<Step>): set<Completion> {
    if es == [] then {}
    else
      Reported(es[..|es| - 1])
      + match es[|es| - 1] {
          case DoDrain(Some(batch)) => set c | c in batch
          case DoTakeRPC(id, response) => {Completion(id, 0, 0, Outcome(response, None))}
          case _ => {}
        }
  }

  lemma SubmitSourced(t: Table, id: OpId, kind: nat, cs: set<Completion>, closed: bool)
    requires Sourced(t, cs, closed)
    ensures Sourced(Submit(t, id, kind), cs, closed)
  {}

  lemma FreeSourced(t: Table, id: OpId, cs: set<Completion>, closed: bool)
    requires Sourced(t, cs, closed)
    ensures Sourced(Free(t, id), cs, closed)
  {}

  ghost predicate KindsAre0(t: Table) {
    forall id | id in t.pending :: t.pending[id].kind == 0
  }

  lemma ApplySourced(s: State, e: Step, cs: set<Completion>)
    requires Sourced(s.operations, cs, !s.running) && Sourced(s.rpcs, cs, !s.running) && KindsAre0(s.rpcs)
    requires e.DoDrain? && e.completions.Some? ==> forall c | c in e.completions.value :: c in cs
    requires e.DoTakeRPC? ==> Completion(e.id, 0, 0, Outcome(e.response, None)) in cs
    ensures Sourced(Apply(s, e).operations, cs, !Apply(s, e).running)
    ensures Sourced(Apply(s, e).rpcs, cs, !Apply(s, e).running)
  {
    hide Sourced, FailAll, Drain;
    FailAllSourced(s.operations, cs, !s.running);
    FailAllSourced(s.rpcs, cs, !s.running);
    match e
    case DoSubmit(id, kind) => SubmitSourced(s.operations, id, kind, cs, !s.running);
    case DoSubmitRPC(id) => SubmitSourced(s.rpcs, id, 0, cs, !s.running);
    case DoFreeRPC(id) => FreeSourced(s.rpcs, id, cs, !s.running);
    case DoDrain(Some(batch)) =>
      DrainSourced(s.operations, batch, cs, !s.running);
      FailAllSourced(Drain(s.operations, batch).0, cs, !s.running);
    case DoTakeRPC(id, response) =>
      if id in s.rpcs.pending {
        DeliverSourced(s.rpcs, cs, !s.running, Completion(id, 0, 0, Outcome(response, None)));
      }
    case _ =>
  }

  lemma ApplyKinds(s: State, e: Step)
    requires KindsAre0(s.rpcs) && s.operations.freed == {}
    ensures KindsAre0(Apply(s, e).rpcs) && Apply(s, e).operations.freed == {}
  {
    match e
    case DoDrain(Some(batch)) => DrainLost(s.operations, batch);
    case _ =>
  }

  lemma {:induction false} RunKinds(es: seq<Step>)
    ensures KindsAre0(Run(es).rpcs) && Run(es).operations.freed == {}
  {
    if es != [] {
      RunKinds(es[..|es| - 1]);
      ApplyKinds(Run(es[..|es| - 1]), es[|es| - 1]);
      hide Apply, KindsAre0;
    }
  }

  lemma {:induction false} RunSourced(es: seq<Step>)
    ensures Sourced(Run(es).operations, Reported(es), !Run(es).running)
    ensures Sourced(Run(es).rpcs, Reported(es), !Run(es).running)
  {
    if es != [] {
      var before := es[..|es| - 1];
      RunSourced(before);
      RunKinds(before);
      SourcedMore(Run(before).operations, Reported(before), Reported(es), !Run(before).running);
      SourcedMore(Run(before).rpcs, Reported(before), Reported(es), !Run(before).running);
      ApplySourced(Run(before), es[|es| - 1], Reported(es));
    }
  }

  // ---------------------------------------------------------------- main results

  /** No result channel ever sees a second send, so with one slot no send blocks the driver,
      and every outcome sent is what the guest reported under the id and the kind that were
      submitted, or the closing one. */
  lemma AtMostOneOutcome(es: seq<Step>, k: Serial)
    requires k in Run(es).operations.sent
    ensures var t := Run(es).operations;
            && |t.sent[k]| <= 1 && k in t.asked
            && forall o | o in t.sent[k] ::
                 (o == CLOSED && !Run(es).running) || exists c | c in Reported(es) :: Answers(c, t.asked[k], o)
  {
    RunInv(es);
    RunSourced(es);
    assert SlotOk(Run(es).operations, k);
  }

  // The guest hands out an id that is still pending.
  predicate Reissues(s: State, e: Step) {
    s.running && ((e.DoSubmit? && e.id in s.operations.pending) || (e.DoSubmitRPC? && e.id in s.rpcs.pending))
  }

  /** When the driver has ended, a data-plane submission has had exactly one outcome if and
      only if the guest did not hand its id out again while it was pending. */
  lemma ExactlyOneOutcome(es: seq<Step>, k: Serial)
    requires !Run(es).running && k in Run(es).operations.sent
    ensures |Run(es).operations.sent[k]| == 1 <==> k !in Run(es).operations.lost
  {
    RunInv(es);
    RunKinds(es);
    EndedIsEmpty(es);
    assert SlotOk(Run(es).operations, k);
  }

  lemma {:induction false} EndedIsEmpty(es: seq<Step>)
    ensures !Run(es).running ==> Run(es).operations.pending == map[] && Run(es).rpcs.pending == map[]
  {
    if es != [] {
      EndedIsEmpty(es[..|es| - 1]);
    }
  }

  /** For an RPC the caller may also free the id, and then it gets none. */
  lemma ExactlyOneResponse(es: seq<Step>, k: Serial)
    requires !Run(es).running && k in Run(es).rpcs.sent
    ensures |Run(es).rpcs.sent[k]| == 1 <==> k !in Run(es).rpcs.lost && k !in Run(es).rpcs.freed
    ensures |Run(es).rpcs.sent[k]| <= 1
  {
    RunInv(es);
    EndedIsEmpty(es);
    assert SlotOk(Run(es).rpcs, k);
  }

  ghost predicate NeverReissues(es: seq<Step>) {
    forall j | 0 <= j < |es| :: !Reissues(Run(es[..j]), es[j])
  }

  lemma NeverReissuesLast(es: seq<Step>)
    requires es != []
    ensures NeverReissues(es) <==> NeverReissues(es[..|es| - 1]) && !Reissues(Run(es[..|es| - 1]), es[|es| - 1])
  {
    hide Run, Reissues;
    var n, before := |es| - 1, es[..|es| - 1];
    assert forall j | 0 <= j < n :: before[..j] == es[..j] && before[j] == es[j];
    if NeverReissues(before) && !Reissues(Run(before), es[n]) {
      forall j | 0 <= j < |es| ensures !Reissues(Run(es[..j]), es[j]) {
        if j < n { assert !Reissues(Run(before[..j]), before[j]); }
      }
    }
  }

  /** Nothing is lost exactly when no id was ever handed out while pending. */
  lemma {:induction false} LostOnlyByReissue(es: seq<Step>)
    ensures Run(es).operations.lost + Run(es).rpcs.lost == {} <==> NeverReissues(es)
  {
    if es != [] {
      var before := es[..|es| - 1];
      LostOnlyByReissue(before);
      LostGrows(Run(before), es[|es| - 1]);
      NeverReissuesLast(es);
      hide NeverReissues, Apply, Reissues;
    }
  }

  lemma {:induction false} DrainLost(t: Table, batch: seq<Completion>)
    ensures Drain(t, batch).0.lost == t.lost && Drain(t, batch).0.freed == t.freed
    decreases |batch|
  {
    if batch != [] && Acceptable(t, batch[0]) {
      DrainLost(Deliver(t, batch[0].op, batch[0].taken), batch[1..]);
    }
  }

  lemma LostGrows(s: State, e: Step)
    ensures var t := Apply(s, e);
            t.operations.lost + t.rpcs.lost == {} <==> s.operations.lost + s.rpcs.lost == {} && !Reissues(s, e)
  {
    match e
    case DoDrain(Some(batch)) => DrainLost(s.operations, batch);
    case _ =>
  }

  // The state just before the closing outcomes go out.
  function Drained(s: State, e: Step): Table {
    if e.DoDrain? && e.completions.Some? then Drain(s.operations, e.completions.value).0 else s.operations
  }

  /** Whatever ends the driver, each operation still pending then gets net.ErrClosed, and the
      ones that were already answered keep their outcome. */
  lemma EndingAnswersAll(es: seq<Step>, e: Step, k: Serial)
    requires Run(es).running && !Apply(Run(es), e).running && k in Run(es).operations.sent
    ensures var t, u := Drained(Run(es), e), Apply(Run(es), e).operations;
            k in t.sent && k in u.sent && u.sent[k] == if Waits(t, k) then [CLOSED] else t.sent[k]
  {
    RunInv(es);
    hide Run, Inv, SlotOk, FailAll, Drain, Waits;
    var s := Run(es);
    FailAllInv(s.operations, CLOSED);
    if e.DoDrain? && e.completions.Some? {
      DrainInv(s.operations, e.completions.value);
      DrainKeys(s.operations, e.completions.value);
      FailAllInv(Drain(s.operations, e.completions.value).0, CLOSED);
    }
    FailAllKeys(Drained(s, e));
  }

  lemma FailAllKeys(t: Table)
    ensures FailAll(t, CLOSED).sent.Keys == t.sent.Keys
  {}

  lemma {:induction false} DrainKeys(t: Table, batch: seq<Completion>)
    requires Inv(t)
    ensures Drain(t, batch).0.sent.Keys == t.sent.Keys
    decreases |batch|
  {
    if batch != [] && Acceptable(t, batch[0]) {
      DeliverInv(t, batch[0].op, batch[0].taken);
      DrainKeys(Deliver(t, batch[0].op, batch[0].taken), batch[1..]);
    }
  }

  lemma TwiceSubmitted()
    ensures Run([DoSubmit(7, 1), DoSubmit(7, 1)])
            == State(Table(map[7 := Entry(1, 1)], map[0 := (7, 1), 1 := (7, 1)], map[0 := [], 1 := []], 2, {0}, {}), Empty, true)
  {
    var a, b := [DoSubmit(7, 1)], [DoSubmit(7, 1), DoSubmit(7, 1)];
    assert a[..0] == [] && b[..1] == a;
    assert Run(a) == State(Table(map[7 := Entry(1, 0)], map[0 := (7, 1)], map[0 := []], 1, {}, {}), Empty, true);
  }

  /** An operation whose id is handed out again never gets an outcome. */
  lemma ReissueLosesTheFirst()
    ensures var s := Run([DoSubmit(7, 1), DoSubmit(7, 1), DoEnd]);
            !s.running && s.operations.sent.Keys == {0, 1} && s.operations.sent[0] == [] && s.operations.sent[1] == [CLOSED]
  {
    var b, c := [DoSubmit(7, 1), DoSubmit(7, 1)], [DoSubmit(7, 1), DoSubmit(7, 1), DoEnd];
    assert c[..2] == b;
    TwiceSubmitted();
    assert Run(c) == End(Run(b));
    hide Run;
    var t := Run(b).operations;
    assert Slots(t.pending) == {1} by { assert 7 in t.pending; }
    var u := FailAll(t, CLOSED);
    assert u.sent.Keys == {0, 1} && u.sent[0] == [] && u.sent[1] == [] + [CLOSED] == [CLOSED];
  }

  // ---------------------------------------------------------------- what a cancel reaches

  // An entry belongs to the last submission that was given its id.
  ghost predicate Latest(t: Table) {
    && (forall k | k in t.asked :: k < t.next)
    && (forall id, k | id in t.pending && k in t.asked && t.asked[k].0 == id :: k <= t.pending[id].slot)
  }

  lemma {:induction false} DrainLatest(t: Table, batch: seq<Completion>)
    requires Latest(t)
    ensures Latest(Drain(t, batch).0)
    decreases |batch|
  {
    if batch != [] && Acceptable(t, batch[0]) {
      DrainLatest(Deliver(t, batch[0].op, batch[0].taken), batch[1..]);
    }
  }

  lemma ApplyLatest(s: State, e: Step)
    requires Latest(s.operations)
    ensures Latest(Apply(s, e).operations)
  {
    match e
    case DoDrain(Some(batch)) =>
      DrainLatest(s.operations, batch);
      hide Drain;
    case _ =>
  }

  lemma {:induction false} RunLatest(es: seq<Step>)
    ensures Latest(Run(es).operations)
  {
    if es != [] {
      RunLatest(es[..|es| - 1]);
      ApplyLatest(Run(es[..|es| - 1]), es[|es| - 1]);
      hide Apply, Latest;
    }
  }

  /** Among any number of callers, the cancel command of submission k, which names its id, finds
      k's own entry in the table exactly when an entry is there and the id was not handed out
      again since; otherwise it reaches nothing, or the caller that has the id now. */
  lemma CancelHitsItsOwn(es: seq<Step>, k: Serial)
    requires k in Run(es).operations.asked
    ensures var t := Run(es).operations; var id := t.asked[k].0;
      id in t.pending && t.pending[id].slot == k
      <==> id in t.pending && forall j | j in t.asked && t.asked[j].0 == id :: j <= k
  {
    RunLatest(es);
    RunSourced(es);
    var t := Run(es).operations;
    var id := t.asked[k].0;
    if id in t.pending && forall j | j in t.asked && t.asked[j].0 == id :: j <= k {
      assert t.asked[t.pending[id].slot].0 == id;
    }
    hide Run;
  }

  lemma OnceAnswered()
    ensures Run([DoSubmit(7, 1), DoDrain(Some([Completion(7, 1, 0, Outcome(0, None))]))])
            == State(Table(map[], map[0 := (7, 1)], map[0 := [Outcome(0, None)]], 1, {}, {}), Empty, true)
  {
    var c := Completion(7, 1, 0, Outcome(0, None));
    var a, b := [DoSubmit(7, 1)], [DoSubmit(7, 1), DoDrain(Some([c]))];
    assert a[..0] == [] && b[..1] == a;
    var t := Table(map[7 := Entry(1, 0)], map[0 := (7, 1)], map[0 := []], 1, {}, {});
    assert Run(a) == State(t, Empty, true);
    assert Acceptable(t, c) && [c][1..] == [];
    var u := Deliver(t, 7, c.taken);
    assert u == Table(map[], map[0 := (7, 1)], map[0 := [Outcome(0, None)]], 1, {}, {}) by {
      assert t.sent[0] + [c.taken] == [c.taken];
    }
    assert Drain(u, [c][1..]) == (u, true);
    assert Drain(t, [c]) == (u, true);
  }

  /** And that happens: the guest may hand an id out again once it is answered, and a cancel
      that is still on its way then reaches the newer operation. */
  lemma CancelCanReachAnother()
    ensures var t := Run([DoSubmit(7, 1), DoDrain(Some([Completion(7, 1, 0, Outcome(0, None))]))] + [DoSubmit(7, 2)]).operations;
            0 in t.asked && t.asked[0].0 == 7 && 7 in t.pending && t.pending[7].slot == 1
  {
    OnceAnswered();
    var es := [DoSubmit(7, 1), DoDrain(Some([Completion(7, 1, 0, Outcome(0, None))]))];
    assert (es + [DoSubmit(7, 2)])[..2] == es;
    var s := Run(es);
    assert Run(es + [DoSubmit(7, 2)]) == Apply(s, DoSubmit(7, 2));
    hide Run;
  }

  // ---------------------------------------------------------------- the driver's loops, in place

  // What the core says of one RPC: TakeRPCResponse fails, is not ready, or has the response.
  datatype Poll = Failed | NotReady | Ready(response: nat)

  /** A table of pending operations as the driver updates it. */
  class Operations {
    var pending: map<OpId, Entry>
    var asked: map<Serial, (OpId, nat)>
    var sent: map<Serial, seq<Outcome>>
    var next: nat
    var lost: set<Serial>
    var freed: set<Serial>

    ghost function Contents(): Table
      reads this
    {
      Table(pending, asked, sent, next, lost, freed)
    }

    constructor ()
      ensures Contents() == Empty
    {
      pending, asked, sent, next, lost, freed := map[], map[], map[], 0, {}, {};
    }

    // A send on a one-slot channel that nobody else sends on; the precondition is that it
    // does not block.
    method Put(slot: Serial, o: Outcome)
      requires slot in sent && !Full(Contents(), slot)
      modifies this`sent
      ensures Contents() == Send(old(Contents()), slot, o)
    {
      sent := sent[slot := sent[slot] + [o]];
    }

    method Register(id: OpId, kind: nat)
      modifies this
      ensures Contents() == Submit(old(Contents()), id, kind)
    {
      if id in pending { lost := lost + {pending[id].slot}; }
      pending := pending[id := Entry(kind, next)];
      asked := asked[next := (id, kind)];
      sent := sent[next := []];
      next := next + 1;
    }

    // The entry goes and its submitter gets the outcome.
    method Finish(id: OpId, o: Outcome)
      requires Inv(Contents()) && id in pending
      modifies this
      ensures Contents() == Deliver(old(Contents()), id, o) && Inv(Contents())
    {
      DeliverInv(Contents(), id, o);
      var slot := pending[id].slot;
      pending := pending - {id};
      Put(slot, o);
    }

    // drainDataPlaneCompletions, after DrainCompletions has returned a batch
    method DrainBatch(batch: seq<Completion>) returns (more: bool, ok: bool)
      requires Inv(Contents())
      modifies this
      ensures (Contents(), ok) == Drain(old(Contents()), batch)
      ensures Inv(Contents())
      ensures more == (ok && |batch| == BATCH)
    {
      var i := 0;
      while i < |batch|
        invariant 0 <= i <= |batch| && Inv(Contents())
        invariant Drain(Contents(), batch[i..]) == Drain(old(Contents()), batch)
      {
        var c := batch[i];
        assert batch[i..][0] == c && batch[i..][1..] == batch[i + 1..];
        if c.op !in pending || pending[c.op].kind != c.kind {
          return false, false;
        }
        if !Agrees(c) {
          return false, false;
        }
        Finish(c.op, c.taken);
        i := i + 1;
      }
      return |batch| == BATCH, true;
    }

    // failPendingOperations and failPendingRPCs: in whatever order the map yields them
    method FailPending(o: Outcome)
      requires Inv(Contents())
      modifies this
      ensures Contents() == FailAll(old(Contents()), o)
    {
      ghost var t := Contents();
      hide Inv, FailAll;
      while pending != map[]
        invariant Inv(Contents())
        invariant FailAll(Contents(), o) == FailAll(t, o)
        decreases |pending|
      {
        ghost var before := Contents();
        var id :| id in pending;
        DeliverInv(before, id, o);
        SlotsDiffer(before);
        FailOne(before, id, o);
        var slot := pending[id].slot;
        Put(slot, o);
        pending := pending - {id};
      }
      FailNone(Contents(), o);
    }

    // takeRPCResponses: an error stops it at whatever entry the map has reached
    method TakeResponses(poll: OpId -> Poll) returns (ok: bool)
      requires Inv(Contents())
      modifies this
      ensures Inv(Contents()) && Answered(old(Contents()), Contents(), poll)
      ensures ok == forall id | id in old(pending) :: poll(id) != Failed
      ensures ok ==> forall id | id in pending :: poll(id) == NotReady
    {
      ghost var first := Contents();
      assert Answered(first, first, poll);
      hide Inv, Answered;
      var todo := pending.Keys;
      while todo != {}
        invariant Inv(Contents()) && Answered(first, Contents(), poll)
        invariant todo <= pending.Keys
        invariant forall id | id in first.pending && id !in todo :: poll(id) != Failed
        invariant forall id | id in pending && id !in todo :: poll(id) == NotReady
        decreases |todo|
      {
        var id :| id in todo;
        todo := todo - {id};
        PendingBefore(first, Contents(), poll);
        match poll(id) {
          case Failed =>
            return false;
          case NotReady =>
          case Ready(response) =>
            AnswerOne(first, Contents(), poll, id);
            Finish(id, Outcome(response, None));
        }
      }
      return true;
    }
  }

  // The entries that have gone were ready, and their submitters have the response.
  ghost predicate Answered(first: Table, now: Table, poll: OpId -> Poll) {
    && now.sent.Keys == first.sent.Keys
    && (forall id | id in now.pending :: id in first.pending && now.pending[id] == first.pending[id])
    && forall id | id in first.pending && id !in now.pending ::
         && poll(id).Ready? && first.pending[id].slot in now.sent
         && now.sent[first.pending[id].slot] == [Outcome(poll(id).response, None)]
  }

  lemma PendingBefore(first: Table, now: Table, poll: OpId -> Poll)
    requires Answered(first, now, poll) && Inv(now)
    ensures now.pending.Keys <= first.pending.Keys
    ensures forall id | id in first.pending && id !in now.pending :: poll(id) != Failed
    ensures forall id | id in now.pending :: now.pending[id].slot in now.sent
  {}

  lemma AnswerOne(first: Table, now: Table, poll: OpId -> Poll, id: OpId)
    requires Inv(first) && Inv(now) && Answered(first, now, poll) && id in now.pending && poll(id).Ready?
    ensures Answered(first, Deliver(now, id, Outcome(poll(id).response, None)), poll)
  {
    hide Inv, Answered;
    DeliverInv(now, id, CLOSED);
    SlotsDiffer(first);
    SlotsDiffer(now);
    var slot := now.pending[id].slot;
    assert now.sent[slot] == [];
    var o := Outcome(poll(id).response, None);
    assert [] + [o] == [o];
    AnswersOneMore(first, now, Deliver(now, id, o), poll, id);
  }

  lemma AnswersOneMore(first: Table, now: Table, u: Table, poll: OpId -> Poll, id: OpId)
    requires Answered(first, now, poll) && id in now.pending && poll(id).Ready?
    requires forall a, b | a in first.pending && b in first.pending && a != b :: first.pending[a].slot != first.pending[b].slot
    requires now.pending[id].slot in now.sent && u.pending == now.pending - {id}
    requires u.sent == now.sent[now.pending[id].slot := [Outcome(poll(id).response, None)]]
    ensures Answered(first, u, poll)
  {}

  // Two entries have two channels.
  lemma SlotsDiffer(t: Table)
    requires Inv(t)
    ensures forall id | id in t.pending :: t.pending[id].slot in t.sent
    ensures forall a, b | a in t.pending && b in t.pending && a != b :: t.pending[a].slot != t.pending[b].slot
  {
    hide SlotOk;
  }

  lemma FailOne(t: Table, id: OpId, o: Outcome)
    requires Inv(t) && id in t.pending
    ensures FailAll(Deliver(t, id, o), o) == FailAll(t, o)
  {
    hide Inv, Slots, Told;
    SlotsDiffer(t);
    var slot := t.pending[id].slot;
    OtherSlots(t.pending, id);
    ToldOneMore(t.sent, slot, Slots(t.pending), o);
  }

  lemma ToldOneMore(sent: map<Serial, seq<Outcome>>, slot: Serial, slots: set<Serial>, o: Outcome)
    requires slot in sent && slot in slots
    ensures Told(sent[slot := sent[slot] + [o]], slots - {slot}, o) == Told(sent, slots, o)
  {}

  lemma OtherSlots(pending: map<OpId, Entry>, id: OpId)
    requires id in pending && forall a, b | a in pending && b in pending && a != b :: pending[a].slot != pending[b].slot
    ensures Slots(pending - {id}) == Slots(pending) - {pending[id].slot} && pending[id].slot in Slots(pending)
  {
    var slot, left := pending[id].slot, pending - {id};
    forall k ensures k in Slots(left) <==> k in Slots(pending) && k != slot {
      if k in Slots(pending) && k != slot {
        var a :| a in pending && pending[a].slot == k;
        assert a in left && left[a].slot == k;
      }
    }
  }

  lemma FailNone(t: Table, o: Outcome)
    requires t.pending == map[]
    ensures FailAll(t, o) == t
  {
    assert FailAll(t, o).sent == t.sent;
  }
}

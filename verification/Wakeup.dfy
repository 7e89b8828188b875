/** How a completion signal travels from the reactor to every instance: reactor channel,
    broadcaster, instance channel, driver (internal/engine/host.go, instance.go).  Each
    channel has one slot and a full slot swallows the signal. */
module Wakeup {

  type Instance = nat

  // The goroutine of Host.broadcastCompletions.
  datatype Broadcaster = Idle | GotToken | Forwarding(remaining: set<Instance>) | Stopped

  // The goroutine of Instance.run: waiting in its select, about to notify the core, or gone.
  datatype Driver = Waiting | Serving | Ended

  /** `creating` is the instance whose CreateInstance call holds host.mu; `due` notes who has
      been signalled for and not yet notified. */
  datatype State = State(
    token: bool,
    broadcaster: Broadcaster,
    creating: set<Instance>,
    instances: set<Instance>,
    drivers: map<Instance, Driver>,
    tokens: map<Instance, bool>,
    cancelled: bool,
    due: set<Instance>)

  const Init := State(false, Idle, {}, {}, map[], map[], false, {})

  datatype Step =
    | Signal
    | Receive
    | Lock
    | Forward(target: Instance)
    | Unlock
    | StopBroadcast
    | BeginCreate(created: Instance)
    | EndCreate(ok: bool)
    | Serve(served: Instance)
    | Notify(notified: Instance, ok: bool)
    | EndDriver(ended: Instance)
    | Remove(removed: Instance)
    | Cancel

  predicate MutexFree(s: State) {
    s.creating == {} && !s.broadcaster.Forwarding?
  }

  predicate DriverIs(s: State, i: Instance, d: Driver) {
    i in s.drivers && s.drivers[i] == d
  }

  // The step can be taken: nothing blocks the thread that takes it.
  predicate Enabled(s: State, e: Step) {
    match e
    case Signal => true
    case Receive => s.broadcaster == Idle && s.token
    case Lock => s.broadcaster == GotToken && MutexFree(s)
    case Forward(i) => s.broadcaster.Forwarding? && i in s.broadcaster.remaining
    case Unlock => s.broadcaster == Forwarding({})
    case StopBroadcast => s.broadcaster == Idle && s.cancelled
    case BeginCreate(i) => MutexFree(s) && i !in s.drivers
    case EndCreate(_) => s.creating != {}
    case Serve(i) => DriverIs(s, i, Waiting) && i in s.tokens && s.tokens[i]
    case Notify(i, _) => DriverIs(s, i, Serving)
    case EndDriver(i) => DriverIs(s, i, Waiting)
    case Remove(i) => DriverIs(s, i, Ended) && i in s.instances && MutexFree(s)
    case Cancel => true
  }

  function Effect(s: State, e: Step): State {
    match e
    case Signal => s.(token := true, due := s.due + s.instances + s.creating)
    case Receive => s.(token := false, broadcaster := GotToken)
    case Lock => s.(broadcaster := Forwarding(s.instances))
    case Forward(i) =>
      s.(tokens := s.tokens[i := true],
         broadcaster := if s.broadcaster.Forwarding? then Forwarding(s.broadcaster.remaining - {i}) else s.broadcaster)
    case Unlock => s.(broadcaster := Idle)
    case StopBroadcast => s.(broadcaster := Stopped)
    case BeginCreate(i) => s.(creating := {i})
    case EndCreate(ok) =>
      if ok then s.(creating := {}, instances := s.instances + s.creating,
                    drivers := map i | i in s.drivers.Keys + s.creating :: if i in s.creating then Waiting else s.drivers[i],
                    tokens := map i | i in s.tokens.Keys + s.creating :: if i in s.creating then false else s.tokens[i])
      else s.(creating := {}, due := s.due - s.creating)
    case Serve(i) => s.(tokens := s.tokens[i := false], drivers := s.drivers[i := Serving])
    case Notify(i, ok) => s.(due := s.due - {i}, drivers := s.drivers[i := if ok then Waiting else Ended])
    case EndDriver(i) => s.(drivers := s.drivers[i := Ended])
    case Remove(i) => s.(instances := s.instances - {i})
    case Cancel => s.(cancelled := true)
  }

  function Apply(s: State, e: Step): State {
    if Enabled(s, e) then Effect(s, e) else s
  }

  function Run(es: seq<Step>): State {
    if es == [] then Init else Apply(Run(es[..|es| - 1]), es[|es| - 1])
  }

  // ---------------------------------------------------------------- the invariant

  // Where the wakeup that the instance is due is now.
  predicate OnItsWay(s: State, i: Instance) {
    || s.token
    || s.broadcaster == GotToken
    || (s.broadcaster.Forwarding? && i in s.broadcaster.remaining)
    || (i in s.tokens && s.tokens[i])
    || DriverIs(s, i, Serving)
  }

  ghost predicate Shape(s: State) {
    && (s.broadcaster.Forwarding? ==> s.creating == {} && s.broadcaster.remaining <= s.instances)
    && (s.broadcaster == Stopped ==> s.cancelled)
    && (forall i | i in s.creating :: i !in s.drivers)
    && s.instances <= s.drivers.Keys && s.drivers.Keys == s.tokens.Keys
    && (forall i | i in s.drivers :: s.drivers[i] == Ended || i in s.instances)
  }

  predicate DueOk(s: State, i: Instance) {
    i in s.due ==>
      && (i in s.drivers || i in s.creating)
      && (OnItsWay(s, i) || DriverIs(s, i, Ended) || s.broadcaster == Stopped)
  }

  ghost predicate Inv(s: State) {
    Shape(s) && forall i :: DueOk(s, i)
  }

  lemma ShapeKept(s: State, e: Step)
    requires Shape(s)
    ensures Shape(Apply(s, e))
  {}

  lemma DueKept(s: State, e: Step, i: Instance)
    requires Shape(s) && DueOk(s, i)
    ensures DueOk(Apply(s, e), i)
  {}

  lemma ApplyInv(s: State, e: Step)
    requires Inv(s)
    ensures Inv(Apply(s, e))
  {
    hide DueOk, Shape, Apply;
    ShapeKept(s, e);
    forall i ensures DueOk(Apply(s, e), i) { DueKept(s, e, i); }
  }

  lemma {:induction false} RunInv(es: seq<Step>)
    ensures Inv(Run(es))
  {
    if es != [] {
      RunInv(es[..|es| - 1]);
      ApplyInv(Run(es[..|es| - 1]), es[|es| - 1]);
    }
  }

  // ---------------------------------------------------------------- no signal is lost

  // The step tells the instance about the completions so far, or gives its creation up.
  predicate Settles(s: State, e: Step, i: Instance) {
    && Enabled(s, e)
    && ((e.Notify? && e.notified == i) || (e == EndCreate(false) && i in s.creating))
  }

  lemma {:induction false} StaysDue(es: seq<Step>, j: nat, i: Instance)
    requires j < |es| && es[j] == Signal && i in Run(es[..j]).instances + Run(es[..j]).creating
    requires forall k | j < k < |es| :: !Settles(Run(es[..k]), es[k], i)
    ensures i in Run(es).due
  {
    var n := |es| - 1;
    var before := es[..n];
    if j < n {
      assert before[..j] == es[..j];
      forall k | j < k < |before| ensures !Settles(Run(before[..k]), before[k], i) {
        assert before[..k] == es[..k];
      }
      StaysDue(before, j, i);
      assert !Settles(Run(es[..n]), es[n], i);
    }
  }

  /** From any signal until an instance that was registered, or being created, at that time
      next notifies its core, the wakeup is at one of the hops, unless the instance's driver
      has ended or the whole host was cancelled. */
  lemma WakeupNeverLost(es: seq<Step>, j: nat, i: Instance)
    requires j < |es| && es[j] == Signal && i in Run(es[..j]).instances + Run(es[..j]).creating
    requires forall k | j < k < |es| :: !Settles(Run(es[..k]), es[k], i)
    ensures var s := Run(es);
            OnItsWay(s, i) || DriverIs(s, i, Ended) || (s.broadcaster == Stopped && s.cancelled)
  {
    StaysDue(es, j, i);
    RunInv(es);
    assert DueOk(Run(es), i);
    hide Run, OnItsWay;
  }

  // ---------------------------------------------------------------- and it keeps moving

  // Hops left before the core is notified, and work left at the present hop.
  function Hops(s: State, i: Instance): nat {
    if DriverIs(s, i, Serving) then 0
    else if i in s.tokens && s.tokens[i] then 1
    else if s.broadcaster.Forwarding? && i in s.broadcaster.remaining then 2
    else if s.broadcaster == GotToken then 3
    else 4
  }

  function Work(s: State, i: Instance): nat {
    match Hops(s, i)
    case 2 => if s.broadcaster.Forwarding? then |s.broadcaster.remaining| else 0
    case 3 => if s.creating == {} then 0 else 1
    case 4 => if s.broadcaster.Forwarding? then |s.broadcaster.remaining| + 1 else 0
    case _ => 0
  }

  predicate Outstanding(s: State, i: Instance) {
    i in s.due && !DriverIs(s, i, Ended) && s.broadcaster != Stopped
  }

  /** A wakeup never goes back a hop. */
  lemma NeverGoesBack(es: seq<Step>, e: Step, i: Instance)
    requires Outstanding(Run(es), i) && !Settles(Run(es), e, i)
    requires Outstanding(Apply(Run(es), e), i)
    ensures Hops(Apply(Run(es), e), i) <= Hops(Run(es), i)
  {
    RunInv(es);
    assert DueOk(Run(es), i);
    StepsForward(Run(es), e, i);
    hide Run, Hops, Apply;
  }

  lemma StepsForward(s: State, e: Step, i: Instance)
    requires Shape(s) && DueOk(s, i) && Outstanding(s, i) && !Settles(s, e, i)
    ensures Hops(Apply(s, e), i) <= Hops(s, i)
  {}

  predicate Nearer(s: State, t: State, i: Instance) {
    Hops(t, i) < Hops(s, i) || (Hops(t, i) == Hops(s, i) && Work(t, i) < Work(s, i))
  }

  /** Nor does it ever get stuck: as long as it is on its way some thread can take a step
      that notifies the core or brings the wakeup nearer. */
  lemma SomeThreadMovesIt(es: seq<Step>, i: Instance)
    requires Outstanding(Run(es), i)
    ensures exists e :: Enabled(Run(es), e) && (Settles(Run(es), e, i) || Nearer(Run(es), Apply(Run(es), e), i))
  {
    RunInv(es);
    var s := Run(es);
    assert DueOk(s, i);
    Moves(s, i);
  }

  predicate Helps(s: State, e: Step, i: Instance) {
    Enabled(s, e) && (Settles(s, e, i) || Nearer(s, Apply(s, e), i))
  }

  lemma ServeHelps(s: State, i: Instance)
    requires Shape(s) && DueOk(s, i) && Outstanding(s, i) && Hops(s, i) <= 1
    ensures Helps(s, if Hops(s, i) == 0 then Notify(i, true) else Serve(i), i)
  {}

  lemma LockHelps(s: State, i: Instance)
    requires Shape(s) && DueOk(s, i) && Outstanding(s, i) && Hops(s, i) == 3
    ensures Helps(s, if s.creating == {} then Lock else EndCreate(true), i)
  {}

  lemma ForwardHelps(s: State, i: Instance, j: Instance)
    requires Hops(s, i) == 2 || Hops(s, i) == 4
    requires s.broadcaster.Forwarding? && j in s.broadcaster.remaining && (Hops(s, i) == 2 ==> j == i)
    ensures Helps(s, Forward(j), i)
  {}

  lemma Moves(s: State, i: Instance)
    requires Shape(s) && DueOk(s, i) && Outstanding(s, i)
    ensures exists e :: Enabled(s, e) && (Settles(s, e, i) || Nearer(s, Apply(s, e), i))
  {
    var e;
    match Hops(s, i) {
      case 0 =>
        e := Notify(i, true);
        ServeHelps(s, i);
      case 1 =>
        e := Serve(i);
        ServeHelps(s, i);
      case 2 =>
        e := Forward(i);
        ForwardHelps(s, i, i);
      case 3 =>
        e := if s.creating == {} then Lock else EndCreate(true);
        LockHelps(s, i);
      case _ =>
        if s.broadcaster == Forwarding({}) {
          e := Unlock;
        } else if s.broadcaster.Forwarding? {
          var j :| j in s.broadcaster.remaining;
          e := Forward(j);
          ForwardHelps(s, i, j);
        } else {
          e := Receive;
        }
    }
    assert Helps(s, e, i);
  }

  // ---------------------------------------------------------------- the broadcast, in place

  // What the broadcaster sees of an instance, or of the Web client.
  class Receiver {
    var completions: bool // a one-slot channel

    // A send that gives up when the slot is taken.
    method Send()
      modifies this
      ensures completions
    {
      if !completions { completions := true; }
    }
  }

  class Host {
    var instances: set<Receiver>

    // One round of the broadcaster, with the mutex held.
    method Broadcast()
      modifies instances
      ensures instances == old(instances)
      ensures forall i | i in instances :: i.completions
    {
      var remaining := instances;
      while remaining != {}
        invariant remaining <= instances == old(instances)
        invariant forall i | i in instances - remaining :: i.completions
        decreases |remaining|
      {
        var i :| i in remaining;
        i.Send();
        remaining := remaining - {i};
      }
    }
  }
}

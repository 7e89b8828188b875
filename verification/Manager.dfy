/** The table of instances that the application and Web requests share
    (internal/host/management.go, and Instance.Close in internal/host/host.go).  Web requests
    run one at a time under a lock, in steps between which the application may act. */
module Manager {
  import opened Core
  import opened Wire

  type Id = string

  datatype Owner = Application | Web

  // manage.ConfigSource; 0 is unspecified and 1 is the user.
  const UNSPECIFIED := 0
  const USER := 1

  // The fields of a network configuration that a patch can touch, and the rest of it.
  datatype Config = Config(portForwards: nat, acl: nat, proxyCidrs: nat, disableRelayData: nat, rest: nat)

  datatype Patch = Patch(portForwards: bool, acl: bool, proxyNetworks: bool, disableRelayData: bool)

  datatype Entry = Entry(id: Id, instance: Serial, owner: Owner, config: Config, toml: string, source: nat)

  datatype Request =
    | Retain(kept: set<Id>)
    | Delete(deleted: set<Id>)
    | RunInstance(id: Id, overwrite: bool, config: Config, toml: string, source: nat)
    | PatchConfig(id: Id, patch: Patch)

  /** Where the Web request that holds the lock is.  `Closing` is at the head of the loop over
      the entries to close; `Closed` has the engine's answer for one of them; `Checked` has
      looked at the context once. */
  datatype Thread =
    | Idle
    | Closing(request: Request, previous: Option<Entry>, todo: set<Entry>)
    | Closed(request: Request, previous: Option<Entry>, todo: set<Entry>, entry: Entry, failedBefore: bool, failed: bool)
    | Checked(request: Request, previous: Option<Entry>, todo: set<Entry>, entry: Entry, failedBefore: bool, failed: bool)
    | Creating(request: Request, previous: Option<Entry>)
    | Restoring(request: Request, entry: Entry)
    | Patching(request: Request, entry: Entry)

  datatype Reply = Done(request: Request) | Refused(request: Request) | Restored(request: Request)

  /** `live` says that the context of the current request has not ended; `broken` holds the
      engines that have failed by themselves; `before` notes the table when the request began,
      `skipped` the entries whose close found the context ended, and `reply` the last answer. */
  datatype State = State(
    entries: map<Id, Entry>,
    next: Serial,
    broken: set<Serial>,
    live: bool,
    thread: Thread,
    before: map<Id, Entry>,
    skipped: set<Entry>,
    reply: Option<Reply>)

  const Init := State(map[], 0, {}, false, Idle, map[], {}, None)

  datatype Step =
    // the application and the world
    | AppCreate(newId: Id, config: Config)
    | AppClose(closed: Id, instance: Serial)
    | Clear
    | Break(engine: Serial)
    | EndContext
    // the Web request
    | Begin(request: Request, live: bool)
    | CloseEngine(target: Entry, failed: bool)
    | CheckRemove
    | CheckReturn
    | FinishClosing
    | CreateNew(ok: bool)
    | Restore(ok: bool)
    | FinishPatch(effective: Option<(Config, string)>, failed: bool)

  // ---------------------------------------------------------------- the manager's own operations

  function Register(s: State, e: Entry): State {
    if e.id in s.entries then s else s.(entries := s.entries[e.id := e])
  }

  function Remove(s: State, id: Id, instance: Serial): State {
    if id in s.entries && s.entries[id].instance == instance then s.(entries := s.entries - {id}) else s
  }

  function Merge(desired: Config, effective: Config, patch: Patch): Config {
    Config(if patch.portForwards then effective.portForwards else desired.portForwards,
           if patch.acl then effective.acl else desired.acl,
           if patch.proxyNetworks then effective.proxyCidrs else desired.proxyCidrs,
           if patch.disableRelayData then effective.disableRelayData else desired.disableRelayData,
           desired.rest)
  }

  predicate ShouldClose(r: Request, e: Entry) {
    e.owner == Web && ((r.Retain? && e.id !in r.kept) || (r.Delete? && e.id in r.deleted))
  }

  function Answer(s: State, r: Reply): State {
    s.(thread := Idle, reply := Some(r))
  }

  // ---------------------------------------------------------------- the steps of a request

  function BeginRun(s: State, r: Request): State
    requires r.RunInstance?
  {
    if r.id !in s.entries then s.(thread := Creating(r, None))
    else
      var previous := s.entries[r.id];
      if previous.owner != Web then Answer(s, Refused(r))
      else if !r.overwrite && previous.instance !in s.broken then Answer(s, Done(r))
      else s.(thread := Closing(r, Some(previous), {previous}))
  }

  function BeginRequest(s: State, r: Request, live: bool): State {
    if s.thread != Idle then s
    else
      var t := s.(live := live, before := s.entries, skipped := {}, reply := None);
      match r
      case Retain(_) => t.(thread := Closing(r, None, set e | e in s.entries.Values && ShouldClose(r, e)))
      case Delete(_) => t.(thread := Closing(r, None, set e | e in s.entries.Values && ShouldClose(r, e)))
      case RunInstance(_, _, _, _, _) => BeginRun(t, r)
      case PatchConfig(id, _) =>
        if id in s.entries && s.entries[id].owner == Web then t.(thread := Patching(r, s.entries[id]))
        else Answer(t, Refused(r))
  }

  // closeManagedInstance, up to the return of the engine's Close
  function DoCloseEngine(s: State, e: Entry, failed: bool): State {
    if s.thread.Closing? && e in s.thread.todo
    then s.(thread := Closed(s.thread.request, s.thread.previous, s.thread.todo - {e}, e, e.instance in s.broken, failed))
    else s
  }

  // Instance.Close removes the entry if the context is live
  function DoCheckRemove(s: State): State {
    if !s.thread.Closed? then s
    else
      var th := s.thread;
      var t := if s.live then Remove(s, th.entry.id, th.entry.instance) else s.(skipped := s.skipped + {th.entry});
      t.(thread := Checked(th.request, th.previous, th.todo, th.entry, th.failedBefore, th.failed))
  }

  // closeManagedInstance forgives the failure of an engine that was broken before
  function DoCheckReturn(s: State): State {
    if !s.thread.Checked? then s
    else if s.thread.failed && !(s.thread.failedBefore && s.live) then Answer(s, Refused(s.thread.request))
    else s.(thread := Closing(s.thread.request, s.thread.previous, s.thread.todo))
  }

  function DoFinishClosing(s: State): State {
    if !s.thread.Closing? || s.thread.todo != {} then s
    else if s.thread.request.RunInstance?
    then s.(thread := Creating(s.thread.request, s.thread.previous))
    else Answer(s, Done(s.thread.request))
  }

  // The source that a new entry records.
  function SourceOf(requested: nat, previous: Option<Entry>): nat {
    var source := if requested == UNSPECIFIED && previous.Some? then previous.value.source else requested;
    if source == UNSPECIFIED then USER else source
  }

  // createWebInstance
  function CreateWeb(s: State, e: Entry, ok: bool): (State, bool) {
    var t := s.(next := s.next + 1);
    if ok && e.id !in s.entries then (Register(t, e.(instance := s.next, owner := Web)), true) else (t, false)
  }

  function DoCreate(s: State, ok: bool): State {
    if !s.thread.Creating? || !s.thread.request.RunInstance? then s
    else
      var r, previous := s.thread.request, s.thread.previous;
      var (t, created) := CreateWeb(s, Entry(r.id, 0, Web, r.config, r.toml, SourceOf(r.source, previous)), ok);
      if created then Answer(t, Done(r))
      else if previous.Some? then t.(thread := Restoring(r, previous.value))
      else Answer(t, Refused(r))
  }

  function DoRestore(s: State, ok: bool): State {
    if !s.thread.Restoring? then s
    else
      var e := s.thread.entry;
      var (t, created) := CreateWeb(s, e.(source := SourceOf(e.source, None)), ok);
      Answer(t, if created then Restored(s.thread.request) else Refused(s.thread.request))
  }

  // patchConfig after its two RPCs; the entry must still be the one that was looked up
  function DoFinishPatch(s: State, effective: Option<(Config, string)>, failed: bool): State {
    if !s.thread.Patching? || !s.thread.request.PatchConfig? then s
    else
      var r, e := s.thread.request, s.thread.entry;
      if effective == None || r.id !in s.entries || s.entries[r.id].instance != e.instance then Answer(s, Refused(r))
      else
        var config := Merge(s.entries[r.id].config, effective.value.0, r.patch);
        var t := s.(entries := s.entries[r.id := s.entries[r.id].(config := config, toml := effective.value.1)]);
        Answer(t, if failed then Refused(r) else Done(r))
  }

  function Apply(s: State, e: Step): State {
    match e
    case AppCreate(id, config) => Register(s.(next := s.next + 1), Entry(id, s.next, Application, config, "", USER))
    case AppClose(id, instance) => Remove(s, id, instance)
    case Clear => s.(entries := map[])
    case Break(engine) => s.(broken := s.broken + {engine})
    case EndContext => s.(live := false)
    case Begin(r, live) => BeginRequest(s, r, live)
    case CloseEngine(e, failed) => DoCloseEngine(s, e, failed)
    case CheckRemove => DoCheckRemove(s)
    case CheckReturn => DoCheckReturn(s)
    case FinishClosing => DoFinishClosing(s)
    case CreateNew(ok) => DoCreate(s, ok)
    case Restore(ok) => DoRestore(s, ok)
    case FinishPatch(effective, failed) => DoFinishPatch(s, effective, failed)
  }

  function Run(es: seq<Step>): State {
    if es == [] then Init else Apply(Run(es[..|es| - 1]), es[|es| - 1])
  }

  // ---------------------------------------------------------------- the invariant

  // An entry that the request holds is a Web entry, and an instance with its number in the table
  // is that same entry.
  predicate Mine(s: State, e: Entry, id: Id) {
    && e.owner == Web && e.instance < s.next && e.source != UNSPECIFIED
    && (id in s.entries && s.entries[id].instance == e.instance ==> id == e.id && s.entries[id] == e)
  }

  ghost predicate Holding(s: State, id: Id) {
    match s.thread
    case Idle => true
    case Closing(_, _, todo) => forall e | e in todo :: Mine(s, e, id)
    case Closed(_, _, todo, x, _, _) => (forall e | e in todo :: Mine(s, e, id)) && Mine(s, x, id)
    case Checked(_, _, todo, _, _, _) => forall e | e in todo :: Mine(s, e, id)
    case Creating(_, _) => true
    case Restoring(_, _) => true
    case Patching(_, e) => Mine(s, e, id)
  }

  predicate EntryOk(s: State, id: Id, other: Id) {
    id in s.entries ==>
      && s.entries[id].id == id && s.entries[id].instance < s.next && s.entries[id].source != UNSPECIFIED
      && (other in s.entries && other != id ==> s.entries[other].instance != s.entries[id].instance)
  }

  // An entry that is to be closed and still in the table is still ahead, or its close found the
  // context ended; and only such entries were skipped.
  ghost predicate Sorted(s: State, id: Id, r: Request, todo: set<Entry>) {
    && (id in s.entries && ShouldClose(r, s.entries[id]) ==> s.entries[id] in todo + s.skipped)
    && (!r.RunInstance? ==> forall e | e in todo + s.skipped :: ShouldClose(r, e))
  }

  ghost predicate Ahead(s: State, id: Id) {
    && (s.live ==> s.skipped == {})
    && match s.thread
       case Closing(r, _, todo) => Sorted(s, id, r, todo)
       case Closed(r, _, todo, e, _, _) => Sorted(s, id, r, todo + {e})
       case Checked(r, _, todo, _, _, _) => Sorted(s, id, r, todo)
       case _ => true
  }

  // What a run request may go back to is what the table said of the id when it began.
  predicate PreviousOk(s: State, r: Request, previous: Option<Entry>) {
    r.RunInstance? ==>
      match previous
      case Some(e) => r.id in s.before && e == s.before[r.id] && e.id == r.id && e.owner == Web && e.source != UNSPECIFIED
      case None => r.id !in s.before
  }

  predicate Remembers(s: State) {
    match s.thread
    case Closing(r, p, _) => PreviousOk(s, r, p)
    case Closed(r, p, _, _, _, _) => PreviousOk(s, r, p)
    case Checked(r, p, _, _, _, _) => PreviousOk(s, r, p)
    case Creating(r, p) => r.RunInstance? && PreviousOk(s, r, p)
    case Restoring(r, e) => r.RunInstance? && PreviousOk(s, r, Some(e))
    case Patching(r, _) => r.PatchConfig?
    case Idle => true
  }

  ghost predicate Inv(s: State) {
    && Remembers(s)
    && (forall id :: Holding(s, id))
    && (forall id, other :: EntryOk(s, id, other))
    && (forall id :: Ahead(s, id))
  }

  // ---------------------------------------------------------------- every step keeps it

  ghost predicate At(s: State, id: Id, other: Id) {
    Remembers(s) && Holding(s, id) && EntryOk(s, id, other) && EntryOk(s, other, id) && Ahead(s, id)
  }

  lemma RegisterAt(s: State, e: Entry, id: Id, other: Id)
    requires At(s, id, other) && e.instance == s.next && e.source != UNSPECIFIED
    requires s.thread.Closing? || s.thread.Closed? || s.thread.Checked? ==> e.owner == Application
    ensures At(Register(s.(next := s.next + 1), e), id, other)
  {}

  lemma RemoveAt(s: State, key: Id, instance: Serial, id: Id, other: Id)
    requires At(s, id, other)
    ensures At(Remove(s, key, instance), id, other)
  {}

  lemma TableIsMine(s: State, key: Id, id: Id)
    requires EntryOk(s, key, id) && EntryOk(s, id, key)
    ensures key in s.entries && s.entries[key].owner == Web ==> Mine(s, s.entries[key], id)
  {}

  lemma BeginHolding(s: State, r: Request, live: bool, id: Id)
    requires Holding(s, id) && forall a, b :: EntryOk(s, a, b)
    ensures Holding(BeginRequest(s, r, live), id)
  {
    forall key ensures key in s.entries && s.entries[key].owner == Web ==> Mine(s, s.entries[key], id) {
      assert EntryOk(s, key, id) && EntryOk(s, id, key);
      TableIsMine(s, key, id);
    }
    hide EntryOk;
  }

  lemma BeginAhead(s: State, r: Request, live: bool, id: Id)
    requires Ahead(s, id)
    ensures Ahead(BeginRequest(s, r, live), id)
  {}

  lemma BeginRemembers(s: State, r: Request, live: bool)
    requires Remembers(s) && (r.RunInstance? ==> EntryOk(s, r.id, r.id))
    ensures Remembers(BeginRequest(s, r, live))
    ensures BeginRequest(s, r, live).entries == s.entries && BeginRequest(s, r, live).next == s.next
  {}

  lemma BeginAt(s: State, r: Request, live: bool, id: Id, other: Id)
    requires At(s, id, other) && forall a, b :: EntryOk(s, a, b)
    ensures At(BeginRequest(s, r, live), id, other)
  {
    BeginHolding(s, r, live, id);
    BeginAhead(s, r, live, id);
    BeginRemembers(s, r, live);
    hide BeginRequest, Holding, Ahead, Remembers;
  }

  lemma CloseEngineAt(s: State, e: Entry, failed: bool, id: Id, other: Id)
    requires At(s, id, other)
    ensures At(DoCloseEngine(s, e, failed), id, other)
  {}

  lemma CheckReturnAt(s: State, id: Id, other: Id)
    requires At(s, id, other)
    ensures At(DoCheckReturn(s), id, other)
  {}

  lemma FinishClosingAt(s: State, id: Id, other: Id)
    requires At(s, id, other)
    ensures At(DoFinishClosing(s), id, other)
  {}

  lemma CheckRemoveAt(s: State, id: Id, other: Id)
    requires At(s, id, other)
    ensures At(DoCheckRemove(s), id, other)
  {}

  lemma CreatedAt(s: State, e: Entry, ok: bool, id: Id, other: Id)
    requires At(s, id, other) && e.source != UNSPECIFIED && s.thread.Creating?
    ensures var (t, _) := CreateWeb(s, e, ok); At(t, id, other)
  {}

  lemma CreateAt(s: State, ok: bool, id: Id, other: Id)
    requires At(s, id, other)
    ensures At(DoCreate(s, ok), id, other)
  {
    if s.thread.Creating? && s.thread.request.RunInstance? {
      var r, previous := s.thread.request, s.thread.previous;
      var e := Entry(r.id, 0, Web, r.config, r.toml, SourceOf(r.source, previous));
      CreatedAt(s, e, ok, id, other);
      var t := CreateWeb(s, e, ok).0;
      assert t.before == s.before && t.skipped == s.skipped && t.live == s.live;
      hide CreateWeb, SourceOf, EntryOk;
    }
  }

  lemma RestoreAt(s: State, ok: bool, id: Id, other: Id)
    requires At(s, id, other)
    ensures At(DoRestore(s, ok), id, other)
  {}

  lemma PatchAt(s: State, effective: Option<(Config, string)>, failed: bool, id: Id, other: Id)
    requires At(s, id, other)
    ensures At(DoFinishPatch(s, effective, failed), id, other)
  {}

  lemma Gather(s: State)
    requires forall id, other :: At(s, id, other)
    ensures Inv(s)
  {
    hide Remembers, Holding, EntryOk, Ahead;
    assert At(s, "", "");
    forall id ensures Holding(s, id) && Ahead(s, id) { assert At(s, id, id); }
    forall id, other ensures EntryOk(s, id, other) { assert At(s, id, other); }
  }

  lemma ApplyAt(s: State, e: Step, id: Id, other: Id)
    requires At(s, id, other) && forall a, b :: EntryOk(s, a, b)
    ensures At(Apply(s, e), id, other)
  {
    hide At, EntryOk, Register, Remove, BeginRequest, DoCloseEngine, DoCheckRemove, DoCheckReturn, DoFinishClosing,
      DoCreate, DoRestore, DoFinishPatch;
    match e
    case AppCreate(newId, config) => AppCreateAt(s, newId, config, id, other);
    case AppClose(key, instance) => RemoveAt(s, key, instance, id, other);
    case Begin(r, live) => BeginAt(s, r, live, id, other);
    case CloseEngine(x, failed) => CloseEngineAt(s, x, failed, id, other);
    case CheckRemove => CheckRemoveAt(s, id, other);
    case CheckReturn => CheckReturnAt(s, id, other);
    case FinishClosing => FinishClosingAt(s, id, other);
    case CreateNew(ok) => CreateAt(s, ok, id, other);
    case Restore(ok) => RestoreAt(s, ok, id, other);
    case FinishPatch(effective, failed) => PatchAt(s, effective, failed, id, other);
    case _ => WorldAt(s, e, id, other);
  }

  lemma AppCreateAt(s: State, newId: Id, config: Config, id: Id, other: Id)
    requires At(s, id, other)
    ensures At(Apply(s, AppCreate(newId, config)), id, other)
  {
    hide At, Register;
    RegisterAt(s, Entry(newId, s.next, Application, config, "", USER), id, other);
  }

  lemma WorldAt(s: State, e: Step, id: Id, other: Id)
    requires At(s, id, other) && (e == Clear || e.Break? || e == EndContext)
    ensures At(Apply(s, e), id, other)
  {}

  lemma {:induction false} RunInv(es: seq<Step>)
    ensures Inv(Run(es))
  {
    if es != [] {
      var s := Run(es[..|es| - 1]);
      RunInv(es[..|es| - 1]);
      forall id, other ensures At(Run(es), id, other) {
        assert At(s, id, other);
        ApplyAt(s, es[|es| - 1], id, other);
      }
      Gather(Run(es));
    }
  }

  // ---------------------------------------------------------------- main results

  predicate FromApplication(e: Step) {
    e.AppCreate? || e.AppClose? || e.Clear?
  }

  predicate Kept(s: State, t: State, id: Id) {
    id in s.entries && s.entries[id].owner == Application ==> id in t.entries && t.entries[id] == s.entries[id]
  }

  lemma RemoveKeeps(s: State, id: Id)
    requires Holding(s, id)
    ensures Kept(s, DoCheckRemove(s), id)
  {}

  lemma CreateKeeps(s: State, ok: bool, id: Id)
    ensures Kept(s, DoCreate(s, ok), id) && Kept(s, DoRestore(s, ok), id)
  {}

  lemma PatchKeeps(s: State, effective: Option<(Config, string)>, failed: bool, id: Id)
    requires Holding(s, id)
    ensures Kept(s, DoFinishPatch(s, effective, failed), id)
  {}

  lemma OthersKeep(s: State, e: Step, id: Id)
    requires e.Begin? || e.CloseEngine? || e.CheckReturn? || e.FinishClosing? || e.Break? || e.EndContext?
    ensures Kept(s, Apply(s, e), id)
  {
    hide ShouldClose;
  }

  lemma WebKeeps(s: State, e: Step, id: Id)
    requires Holding(s, id) && !FromApplication(e)
    ensures Kept(s, Apply(s, e), id)
  {
    hide Holding, Kept, BeginRequest, DoCloseEngine, DoCheckRemove, DoCheckReturn, DoFinishClosing, DoCreate, DoRestore, DoFinishPatch;
    match e
    case CheckRemove => RemoveKeeps(s, id);
    case CreateNew(ok) => CreateKeeps(s, ok, id);
    case Restore(ok) => CreateKeeps(s, ok, id);
    case FinishPatch(effective, failed) => PatchKeeps(s, effective, failed, id);
    case _ => OthersKeep(s, e, id);
  }

  /** No step of a Web request removes or alters an application's entry. */
  lemma WebLeavesApplicationsAlone(es: seq<Step>, e: Step, id: Id)
    requires !FromApplication(e)
    requires id in Run(es).entries && Run(es).entries[id].owner == Application
    ensures id in Apply(Run(es), e).entries && Apply(Run(es), e).entries[id] == Run(es).entries[id]
  {
    RunInv(es);
    assert Holding(Run(es), id);
    hide Run, Apply, Holding, Inv;
    WebKeeps(Run(es), e, id);
  }

  // The application gives the entry up.
  predicate GivesUp(e: Step, id: Id) {
    e == Clear || (e.AppClose? && e.closed == id)
  }

  /** So it stays as it is until the application closes it, whatever requests run. */
  lemma {:induction false} ApplicationEntriesStay(es: seq<Step>, fs: seq<Step>, id: Id)
    requires id in Run(es).entries && Run(es).entries[id].owner == Application
    requires forall f | f in fs :: !GivesUp(f, id)
    ensures id in Run(es + fs).entries && Run(es + fs).entries[id] == Run(es).entries[id]
  {
    if fs == [] {
      assert es + fs == es;
    } else {
      var n := |fs| - 1;
      ApplicationEntriesStay(es, fs[..n], id);
      assert (es + fs)[..|es + fs| - 1] == es + fs[..n];
      assert fs[n] in fs;
      StepKeeps(es + fs[..n], fs[n], id);
    }
  }

  lemma StepKeeps(es: seq<Step>, e: Step, id: Id)
    requires id in Run(es).entries && Run(es).entries[id].owner == Application && !GivesUp(e, id)
    ensures id in Apply(Run(es), e).entries && Apply(Run(es), e).entries[id] == Run(es).entries[id]
  {
    if !FromApplication(e) {
      WebLeavesApplicationsAlone(es, e, id);
    }
  }

  // Only the end of the closing loop reports such a request done.
  lemma DoneByFinishOnly(s: State, e: Step, r: Request)
    requires Remembers(s) && (r.Retain? || r.Delete?)
    requires s.thread != Idle && Apply(s, e).thread == Idle && Apply(s, e).reply == Some(Done(r))
    ensures e == FinishClosing && s.thread.Closing? && s.thread.request == r && s.thread.todo == {}
    ensures Apply(s, e).entries == s.entries && Apply(s, e).skipped == s.skipped
  {
    hide PreviousOk, Merge, SourceOf;
  }

  /** What a retain or delete request that succeeds leaves behind of what it should have closed
      is exactly what its closes skipped because the context had ended. */
  lemma SuccessLeavesTheSkipped(es: seq<Step>, e: Step, r: Request, id: Id)
    requires r.Retain? || r.Delete?
    requires Run(es).thread != Idle && Apply(Run(es), e).thread == Idle && Apply(Run(es), e).reply == Some(Done(r))
    requires id in Apply(Run(es), e).entries
    ensures var t := Apply(Run(es), e); ShouldClose(r, t.entries[id]) <==> t.entries[id] in t.skipped
  {
    RunInv(es);
    DoneByFinishOnly(Run(es), e, r);
    assert Ahead(Run(es), id);
    hide Run, Apply, Inv;
  }

  /** So one that succeeds while its context is live leaves nothing it should have closed. */
  lemma SuccessfulCloseLeavesNone(es: seq<Step>, e: Step, r: Request, id: Id)
    requires r.Retain? || r.Delete?
    requires Run(es).thread != Idle && Run(es).live && Apply(Run(es), e).thread == Idle && Apply(Run(es), e).reply == Some(Done(r))
    ensures id in Apply(Run(es), e).entries ==> !ShouldClose(r, Apply(Run(es), e).entries[id])
  {
    RunInv(es);
    DoneByFinishOnly(Run(es), e, r);
    assert Ahead(Run(es), id);
    hide Run, Apply, Inv;
  }

  // The settings that a restart of an instance needs.
  predicate SameSettings(a: Entry, b: Entry) {
    a.id == b.id && a.owner == b.owner && a.config == b.config && a.toml == b.toml && a.source == b.source
  }

  lemma RestoredByRestoreOnly(s: State, e: Step, r: Request)
    requires s.thread != Idle && Apply(s, e).thread == Idle && Apply(s, e).reply == Some(Restored(r))
    ensures e.Restore? && s.thread.Restoring? && s.thread.request == r
  {
    hide Merge, SourceOf;
  }

  lemma RestorePutsBack(s: State, ok: bool, r: Request)
    requires Remembers(s) && s.thread.Restoring? && s.thread.request == r && DoRestore(s, ok).reply == Some(Restored(r))
    ensures r.RunInstance? && r.id in s.before && r.id in DoRestore(s, ok).entries && DoRestore(s, ok).before == s.before
    ensures SameSettings(DoRestore(s, ok).entries[r.id], s.before[r.id])
  {}

  /** A run request that could not start the new instance and says it restored the old one has
      put back its configuration, its TOML and its source. */
  lemma FailedOverwriteRestores(es: seq<Step>, e: Step, r: Request)
    requires Run(es).thread != Idle && Apply(Run(es), e).thread == Idle && Apply(Run(es), e).reply == Some(Restored(r))
    ensures r.RunInstance? && r.id in Run(es).before && r.id in Apply(Run(es), e).entries
    ensures SameSettings(Apply(Run(es), e).entries[r.id], Run(es).before[r.id])
  {
    RunInv(es);
    RestoredByRestoreOnly(Run(es), e, r);
    hide Run, Inv, Remembers, SameSettings, DoRestore;
    RestorePutsBack(Run(es), e.ok, r);
  }

  /** A run request that succeeds has registered what it was asked to, under the source it named
      or else the one the id had or else the user. */
  lemma SuccessfulRunRegisters(es: seq<Step>, ok: bool, r: Request)
    requires Run(es).thread.Creating? && Apply(Run(es), CreateNew(ok)).reply == Some(Done(r))
    requires Apply(Run(es), CreateNew(ok)).thread == Idle
    ensures r.RunInstance? && r.id in Apply(Run(es), CreateNew(ok)).entries
    ensures var x := Apply(Run(es), CreateNew(ok)).entries[r.id];
            && x.owner == Web && x.config == r.config && x.toml == r.toml
            && x.source == (if r.source != UNSPECIFIED then r.source
                            else if r.id in Run(es).before then Run(es).before[r.id].source else USER)
  {
    RunInv(es);
    assert Remembers(Run(es));
    hide Run;
  }

  // The patch brought a to b: the fields it names come from the effective configuration.
  predicate Patched(a: Entry, b: Entry, p: Patch, effective: (Config, string)) {
    && a.owner == Web && b.owner == Web && b.id == a.id && b.instance == a.instance && b.source == a.source
    && b.toml == effective.1 && b.config.rest == a.config.rest
    && (b.config.portForwards == if p.portForwards then effective.0.portForwards else a.config.portForwards)
    && (b.config.acl == if p.acl then effective.0.acl else a.config.acl)
    && (b.config.proxyCidrs == if p.proxyNetworks then effective.0.proxyCidrs else a.config.proxyCidrs)
    && (b.config.disableRelayData == if p.disableRelayData then effective.0.disableRelayData else a.config.disableRelayData)
  }

  lemma PatchesOne(s: State, effective: Option<(Config, string)>, failed: bool, id: Id)
    requires Holding(s, id) && Remembers(s) && s.thread.Patching? && id in s.entries
    ensures var t := DoFinishPatch(s, effective, failed);
            && id in t.entries
            && (t.entries[id] != s.entries[id] ==>
                  && s.thread.request.PatchConfig? && effective.Some? && id == s.thread.request.id
                  && Patched(s.entries[id], t.entries[id], s.thread.request.patch, effective.value))
  {}

  /** A patch changes one Web entry, and of its configuration only the fields the patch names. */
  lemma PatchChangesWhatItNames(es: seq<Step>, effective: Option<(Config, string)>, failed: bool, id: Id)
    requires Run(es).thread.Patching? && id in Run(es).entries
    ensures var s, t := Run(es), Apply(Run(es), FinishPatch(effective, failed));
            && id in t.entries
            && (t.entries[id] != s.entries[id] ==>
                  && s.thread.request.PatchConfig? && effective.Some? && id == s.thread.request.id
                  && Patched(s.entries[id], t.entries[id], s.thread.request.patch, effective.value))
  {
    RunInv(es);
    assert Holding(Run(es), id) && Remembers(Run(es));
    hide Run, Inv, Patched;
    PatchesOne(Run(es), effective, failed, id);
  }

  // ---------------------------------------------------------------- when the context ends too early

  lemma RunTo(es: seq<Step>, e: Step, s: State, t: State)
    requires Run(es) == s && Apply(s, e) == t
    ensures Run(es + [e]) == t
  {
    assert (es + [e])[..|es|] == es;
  }

  const CONFIG := Config(0, 0, 0, 0, 0)
  const STRAY := Entry("a", 0, Web, CONFIG, "t", USER)
  const START := RunInstance("a", false, CONFIG, "t", USER)

  const STARTING := Init.(live := true, thread := Creating(START, None))
  const STARTED := Init.(live := true, next := 1, entries := map["a" := STRAY], reply := Some(Done(START)))
  const SWEEPING := STARTED.(thread := Closing(Retain({}), None, {STRAY}), before := map["a" := STRAY], reply := None)
  const STOPPED := SWEEPING.(thread := Closed(Retain({}), None, {}, STRAY, false, false))
  const LATE := STOPPED.(live := false)
  const SKIPPED := LATE.(skipped := {STRAY}, thread := Checked(Retain({}), None, {}, STRAY, false, false))
  const SWEPT := SKIPPED.(thread := Closing(Retain({}), None, {}))

  lemma StartSteps()
    ensures Apply(Init, Begin(START, true)) == STARTING && Apply(STARTING, CreateNew(true)) == STARTED
  {}

  lemma BeginSweep()
    ensures Apply(STARTED, Begin(Retain({}), true)) == SWEEPING
  {
    assert ShouldClose(Retain({}), STRAY);
    assert STARTED.entries["a"] == STRAY;
    assert (set e | e in STARTED.entries.Values && ShouldClose(Retain({}), e)) == {STRAY};
  }

  lemma SweepSteps()
    ensures Apply(SWEEPING, CloseEngine(STRAY, false)) == STOPPED
    ensures Apply(STOPPED, EndContext) == LATE && Apply(LATE, CheckRemove) == SKIPPED
    ensures Apply(SKIPPED, CheckReturn) == SWEPT && Apply(SWEPT, FinishClosing) == SWEPT.(thread := Idle, reply := Some(Done(Retain({}))))
  {
    assert {STRAY} - {STRAY} == {} && {} + {STRAY} == {STRAY};
  }

  /** A context that ends between the engine's close and the check leaves the entry in the
      table, and the request still reports success. */
  lemma LateContextLeavesStray()
    ensures exists es :: Run(es).reply == Some(Done(Retain({}))) && "a" in Run(es).entries && Run(es).entries["a"].owner == Web
  {
    StartSteps();
    BeginSweep();
    SweepSteps();
    hide Apply;
    RunTo([], Begin(START, true), Init, STARTING);
    hide Run;
    var es := [] + [Begin(START, true)];
    RunTo(es, CreateNew(true), STARTING, STARTED);
    es := es + [CreateNew(true)];
    RunTo(es, Begin(Retain({}), true), STARTED, SWEEPING);
    es := es + [Begin(Retain({}), true)];
    RunTo(es, CloseEngine(STRAY, false), SWEEPING, STOPPED);
    es := es + [CloseEngine(STRAY, false)];
    RunTo(es, EndContext, STOPPED, LATE);
    es := es + [EndContext];
    RunTo(es, CheckRemove, LATE, SKIPPED);
    es := es + [CheckRemove];
    RunTo(es, CheckReturn, SKIPPED, SWEPT);
    es := es + [CheckReturn];
    RunTo(es, FinishClosing, SWEPT, SWEPT.(thread := Idle, reply := Some(Done(Retain({})))));
    es := es + [FinishClosing];
  }

  // ---------------------------------------------------------------- table keys

  datatype Uuid = Uuid(part1: nat, part2: nat, part3: nat, part4: nat)

  predicate Fits(u: Uuid) {
    u.part1 < 0x1_0000_0000 && u.part2 < 0x1_0000_0000 && u.part3 < 0x1_0000_0000 && u.part4 < 0x1_0000_0000
  }

  function Digit(n: nat): char
    requires n < 16
  {
    if n < 10 then (48 + n) as char else (87 + n) as char
  }

  function Hex(b: seq<u8>): (s: string)
    ensures |s| == 2 * |b|
  {
    if b == [] then "" else [Digit(b[0] / 16), Digit(b[0] % 16)] + Hex(b[1..])
  }

  // The bytes of an id, most significant first.
  function Bytes(u: Uuid): (v: seq<u8>)
    requires Fits(u)
    ensures |v| == 16
  {
    Be32(u.part1) + Be32(u.part2) + Be32(u.part3) + Be32(u.part4)
  }

  function Dashed(v: seq<u8>): string
    requires |v| == 16
  {
    Hex(v[..4]) + "-" + Hex(v[4..6]) + "-" + Hex(v[6..8]) + "-" + Hex(v[8..10]) + "-" + Hex(v[10..])
  }

  /** uuidString */
  function UuidString(u: Uuid): string
    requires Fits(u)
  {
    Dashed(Bytes(u))
  }

  lemma DigitsTell(a: u8, b: u8)
    requires Digit(a / 16) == Digit(b / 16) && Digit(a % 16) == Digit(b % 16)
    ensures a == b
  {
    assert a / 16 == b / 16 && a % 16 == b % 16;
  }

  lemma {:induction false} HexInjective(a: seq<u8>, b: seq<u8>)
    requires |a| == |b| && Hex(a) == Hex(b)
    ensures a == b
  {
    if a != [] {
      var s, t := Hex(a), Hex(b);
      assert s[2..] == Hex(a[1..]) && t[2..] == Hex(b[1..]);
      HexInjective(a[1..], b[1..]);
      assert s[0] == t[0] && s[1] == t[1];
      DigitsTell(a[0], b[0]);
      assert a == [a[0]] + a[1..] && b == [b[0]] + b[1..];
    }
  }

  lemma DashedParts(v: seq<u8>)
    requires |v| == 16
    ensures var s := Dashed(v);
            && |s| == 36 && s[..8] == Hex(v[..4]) && s[9..13] == Hex(v[4..6]) && s[14..18] == Hex(v[6..8])
            && s[19..23] == Hex(v[8..10]) && s[24..] == Hex(v[10..])
  {
    hide Hex;
  }

  lemma DashedInjective(a: seq<u8>, b: seq<u8>)
    requires |a| == |b| == 16 && Dashed(a) == Dashed(b)
    ensures a == b
  {
    hide Hex, Dashed;
    DashedParts(a);
    DashedParts(b);
    HexInjective(a[..4], b[..4]);
    HexInjective(a[4..6], b[4..6]);
    HexInjective(a[6..8], b[6..8]);
    HexInjective(a[8..10], b[8..10]);
    HexInjective(a[10..], b[10..]);
    assert a == a[..4] + a[4..6] + a[6..8] + a[8..10] + a[10..];
    assert b == b[..4] + b[4..6] + b[6..8] + b[8..10] + b[10..];
  }

  lemma BytesTell(u: Uuid)
    requires Fits(u)
    ensures var v := Bytes(u);
            u == Uuid(FromBe32(v[..4]), FromBe32(v[4..8]), FromBe32(v[8..12]), FromBe32(v[12..]))
  {
    var v := Bytes(u);
    assert v[..4] == Be32(u.part1) && v[4..8] == Be32(u.part2) && v[8..12] == Be32(u.part3) && v[12..] == Be32(u.part4);
    Be32Inverse(u.part1, v[..4]);
    Be32Inverse(u.part2, v[..4]);
    Be32Inverse(u.part3, v[..4]);
    Be32Inverse(u.part4, v[..4]);
    hide Be32, FromBe32;
  }

  /** Two instances never share a table key. */
  lemma UuidStringInjective(u: Uuid, w: Uuid)
    requires Fits(u) && Fits(w) && UuidString(u) == UuidString(w)
    ensures u == w
  {
    DashedInjective(Bytes(u), Bytes(w));
    BytesTell(u);
    BytesTell(w);
  }

  // ---------------------------------------------------------------- the manager, in place

  // What happens while one entry is closed: had its engine failed before, does its Close fail,
  // and does the context live at the two checks.
  datatype CloseAnswer = CloseAnswer(failedBefore: bool, failed: bool, liveAtRemove: bool, liveAtReturn: bool)

  predicate Refuses(a: CloseAnswer) {
    a.failed && !(a.failedBefore && a.liveAtReturn)
  }

  class InstanceManager {
    var instances: map<Id, Entry>

    constructor ()
      ensures instances == map[]
    {
      instances := map[];
    }

    method RegisterEntry(entry: Entry) returns (ok: bool)
      modifies this
      ensures ok == (entry.id !in old(instances))
      ensures instances == if ok then old(instances)[entry.id := entry] else old(instances)
    {
      if entry.id in instances {
        return false;
      }
      instances := instances[entry.id := entry];
      return true;
    }

    method RemoveEntry(id: Id, instance: Serial)
      modifies this
      ensures instances == if id in old(instances) && old(instances)[id].instance == instance
                           then old(instances) - {id} else old(instances)
    {
      if id in instances && instances[id].instance == instance {
        instances := instances - {id};
      }
    }

    // closeManagedInstance
    method CloseManaged(id: Id, instance: Serial, answer: CloseAnswer) returns (ok: bool)
      modifies this
      ensures instances == if answer.liveAtRemove && id in old(instances) && old(instances)[id].instance == instance
                           then old(instances) - {id} else old(instances)
      ensures ok == !Refuses(answer)
    {
      if answer.liveAtRemove {
        RemoveEntry(id, instance);
      }
      return !answer.failed || (answer.failedBefore && answer.liveAtReturn);
    }

    /** closeWebInstances, which reached the ids in `tried`: gone are the Web entries asked for
        among them, less those that were checked under a dead context.  A success has tried
        all; a failure ends at an entry whose close is at fault. */
    method CloseWebInstances(r: Request, answers: Id -> CloseAnswer) returns (ok: bool, ghost tried: set<Id>)
      modifies this
      ensures tried <= old(instances).Keys && instances == old(instances) - Goes(old(instances), tried, r, answers)
      ensures ok ==> tried == old(instances).Keys
      ensures ok <==> forall id | id in tried && ShouldClose(r, old(instances)[id]) :: !Refuses(answers(id))
    {
      hide Goes, ShouldClose;
      var snapshot := instances;
      var todo := instances.Keys;
      tried := {};
      GoesNone(snapshot, r, answers);
      while todo != {}
        invariant tried !! todo && tried + todo == snapshot.Keys
        invariant instances == snapshot - Goes(snapshot, tried, r, answers)
        invariant forall id | id in tried && ShouldClose(r, snapshot[id]) :: !Refuses(answers(id))
        decreases |todo|
      {
        var id :| id in todo;
        ghost var gone := Goes(snapshot, tried, r, answers);
        GoesMore(snapshot, tried, id, r, answers);
        todo := todo - {id};
        tried := tried + {id};
        if ShouldClose(r, snapshot[id]) {
          var closed := CloseManaged(id, snapshot[id].instance, answers(id));
          MinusOne(snapshot, gone, id);
          if !closed {
            return false, tried;
          }
        }
      }
      return true, tried;
    }
  }

  // The entries that closing these ids takes out of the table.
  ghost function Goes(table: map<Id, Entry>, ids: set<Id>, r: Request, answers: Id -> CloseAnswer): set<Id> {
    set id | id in ids && id in table && ShouldClose(r, table[id]) && answers(id).liveAtRemove
  }

  lemma MinusOne<K, V>(table: map<K, V>, gone: set<K>, k: K)
    ensures table - gone - {k} == table - (gone + {k})
  {}

  lemma GoesNone(table: map<Id, Entry>, r: Request, answers: Id -> CloseAnswer)
    ensures Goes(table, {}, r, answers) == {}
  {}

  lemma GoesMore(table: map<Id, Entry>, ids: set<Id>, id: Id, r: Request, answers: Id -> CloseAnswer)
    requires id in table && id !in ids
    ensures id !in Goes(table, ids, r, answers)
    ensures Goes(table, ids + {id}, r, answers)
            == if ShouldClose(r, table[id]) && answers(id).liveAtRemove then Goes(table, ids, r, answers) + {id} else Goes(table, ids, r, answers)
  {}
}

/** The upgrade lifecycle as a transition system. The UpgradeConfig reconciler, the
    MachineConfigPool controller and the config manager act on one stored object. Every remote
    call is its own transition, so the three interleave freely between any two calls, writes are
    guarded by the resource version alone, and each call may fail. */
module Lifecycle {
  import opened Kube
  import opened UpgradeStatus
  import opened StepRunner
  import CV = ClusterVersion
  import J = Json

  /** The part of an UpgradeConfig's spec the lifecycle reads; `upgradeAt` is None when its RFC 3339
      text does not parse. */
  datatype Spec = Spec(desired: CV.Desired, upgradeAt: Option<Time>)

  /** The stored UpgradeConfig. `edits` counts the changes made to its spec in place, and `terminating` tells
      that its deletion was requested while something still holds it. */
  datatype Obj = Obj(uid: nat, rv: nat, spec: Spec, edits: nat, terminating: bool, history: seq<History>)

  /** The OSD upgrader's steps, in order. */
  const OSD_STEPS: seq<string> := [
    "StartedNotificationSent",
    "StartedNotificationSent",
    "IsClusterUpgradable",
    "ClusterHealthyBeforeUpgrade",
    "ExternalDependenciesAvailable",
    "ComputeCapacityReserved",
    "ControlPlaneMaintenanceWindowCreated",
    "UpgradeCommenced",
    "ControlPlaneUpgraded",
    "ControlPlaneMaintenanceWindowRemoved",
    "WorkersMaintenanceWindowCreated",
    "WorkerNodesUpgraded",
    "ComputeCapacityRemoved",
    "WorkersMaintenanceWindowRemoved",
    "ClusterHealthyAfterUpgrade",
    "PostUpgradeTasksCompleted",
    "CompletedNotificationSent"
  ]

  const STEP_COUNT: nat := 17

  /** The step that commits the cluster to the upgrade. */
  const COMMENCE: nat := 7

  /** Where the reconciler is in its current pass. `base` is the object as it last read or wrote it,
      `hist` the history it is about to write. */
  datatype Work =
    | Idle
    | Loaded(base: Obj)
    | Creating(base: Obj, hist: seq<History>)
    | Deciding(base: Obj)
    | Accepted(base: Obj)
    | Opening(base: Obj, hist: seq<History>)
    | Checking(base: Obj)
    | Failing(base: Obj)
    | Stepping(base: Obj, hist: seq<History>, i: nat)
    | Running(base: Obj, hist: seq<History>, i: nat)
    | Closing(base: Obj, hist: seq<History>)
    | Crashed

  datatype PoolWork =
    | PoolIdle
    | PoolLoaded(base: Obj, machines: nat, updated: nat)
    | PoolWriting(base: Obj, hist: seq<History>)

  /** What the passes did, in order. */
  datatype Entry =
    | Adopted(uid: nat, version: string, edits: nat)                    // entered as upgrading: the cluster was committed
    | Approved(pass: nat, uid: nat, at: Time, spec: Spec, edits: nat)   // valid, available and due
    | Unchanged(pass: nat, uid: nat)                                    // the provider asked for no change
    | Checked(pass: nat, readOk: bool, late: bool)                      // the failure window was examined
    | GaveUp(pass: nat, scaledDown: bool, notified: bool)               // the routines for a failed upgrade were tried
    | StepDone(pass: nat, step: nat)

  datatype State = State(
    now: Time, nextUid: nat, nextRv: nat, store: Option<Obj>,
    doc: J.Json, updates: CV.Updates,
    work: Work, pool: PoolWork, pass: nat, log: seq<Entry>)

  /** How the config manager's Refresh changed the object when it reports a change. */
  datatype Change = Removed | Marked | Replaced(spec: Spec)

  datatype Event =
    // the environment
    | Tick(d: nat)
    | CvoPublishes(us: CV.Updates)
    | Delete
    | Create(spec: Spec)
    | Edit(spec: Spec)                        // a change of the spec in place
    | Touch                                   // a write of other metadata: labels, finalizers
    | Mark                                    // a deletion request while a finalizer holds the object
    // the MachineConfigPool controller
    | PoolGet(machines: nat, updated: nat)
    | PoolStamp
    | PoolUpdate(f: Fault)
    | PoolError
    // the reconciler
    | Get
    | Inspect(cvOk: bool, preceding: string)
    | Decide(valid: bool, available: bool)
    | RefreshUnchanged
    | RefreshChanged(c: Change)
    | Update(f: Fault)
    | Check(cvOk: bool, window: nat)
    | FailUpgrade(scaledDown: bool, notified: bool)
    | StepBegin
    | StepEnd(o: Outcome)
    | Commence(cvOk: bool, notified: bool, calls: CV.Calls)
    | Abort

  // ---- Objects and guarded writes ---------------------------------------------------------------

  function EntryOf(o: Obj): Option<History> {
    GetHistory(o.history, o.spec.desired.version)
  }

  predicate SameObject(store: Option<Obj>, o: Obj) {
    store.Some? && store.value.uid == o.uid
  }

  /** The API server accepts a status write only for the very version it was computed from. */
  predicate Matches(store: Option<Obj>, base: Obj) {
    SameObject(store, base) && store.value.rv == base.rv
  }

  /** An accepted status write; one that changes nothing keeps the resource version. */
  function Save(s: State, base: Obj, hist: seq<History>): State {
    if hist == base.history then s
    else s.(store := Some(base.(rv := s.nextRv, history := hist)), nextRv := s.nextRv + 1)
  }

  function Write(s: State, base: Obj, hist: seq<History>, f: Fault): State {
    if f.Lands() && Matches(s.store, base) then Save(s, base, hist) else s
  }

  predicate Accepts(s: State, base: Obj, f: Fault) {
    f.Succeeds() && Matches(s.store, base)
  }

  // ---- The environment ----------------------------------------------------------------------------

  function Put(s: State, spec: Spec): State {
    s.(store := Some(Obj(s.nextUid, s.nextRv, spec, 0, false, [])), nextUid := s.nextUid + 1, nextRv := s.nextRv + 1)
  }

  function Bump(s: State): State {
    if s.store.None? then s
    else s.(store := Some(s.store.value.(rv := s.nextRv)), nextRv := s.nextRv + 1)
  }

  /** Requesting the deletion of an object that is terminating already changes nothing. */
  function MarkDeleted(s: State): State {
    if s.store.None? || s.store.value.terminating then s
    else s.(store := Some(s.store.value.(rv := s.nextRv, terminating := true)), nextRv := s.nextRv + 1)
  }

  function EditSpec(s: State, spec: Spec): State {
    if s.store.None? || s.store.value.spec == spec then s
    else
      var o := s.store.value;
      s.(store := Some(o.(rv := s.nextRv, spec := spec, edits := o.edits + 1)), nextRv := s.nextRv + 1)
  }

  // ---- The MachineConfigPool controller -----------------------------------------------------------

  function OnPoolGet(s: State, machines: nat, updated: nat): State {
    if s.pool.PoolIdle? && s.store.Some? then s.(pool := PoolLoaded(s.store.value, machines, updated)) else s
  }

  function Stamp(h: History, machines: nat, updated: nat, now: Time): History {
    var h1 := if updated == 0 && h.workerStart.None? then h.(workerStart := Some(now)) else h;
    if machines == updated && h1.workerStart.Some? && h1.workerComplete.None?
    then h1.(workerComplete := Some(now)) else h1
  }

  function OnPoolStamp(s: State): State {
    if !s.pool.PoolLoaded? then s
    else
      var base := s.pool.base;
      var h := EntryOf(base);
      if h.Some? && h.value.phase == Upgrading
      then s.(pool := PoolWriting(base, SetHistory(base.history, Stamp(h.value, s.pool.machines, s.pool.updated, s.now))))
      else s.(pool := PoolIdle)
  }

  function OnPoolUpdate(s: State, f: Fault): State {
    if !s.pool.PoolWriting? then s
    else Write(s, s.pool.base, s.pool.hist, f).(pool := PoolIdle)
  }

  // ---- The reconciler -------------------------------------------------------------------------------

  function OnGet(s: State): State {
    if s.work.Idle? && s.store.Some? then s.(work := Loaded(s.store.value), pass := s.pass + 1) else s
  }

  function NewEntry(version: string, preceding: string, phase: Phase, start: Option<Time>): History {
    History(version, preceding, phase, [], start, None, None, None)
  }

  /** Find the entry for the desired version, or add one whose phase follows the ClusterVersion. */
  function OnInspect(s: State, cvOk: bool, preceding: string): State {
    if !s.work.Loaded? then s
    else
      var base := s.work.base;
      var d := base.spec.desired;
      if EntryOf(base).Some? then s.(work := Deciding(base))
      else if !cvOk || CV.UpgradeSource(d).None? then s.(work := Idle)
      else
        var h := if CV.Commenced(s.doc, d) then NewEntry(d.version, preceding, Upgrading, Some(s.now))
                 else NewEntry(d.version, preceding, New, None);
        s.(work := Creating(base, [h] + base.history))
  }

  predicate Due(spec: Spec, now: Time) {
    spec.upgradeAt.Some? && now > spec.upgradeAt.value
  }

  /** The phase switch. */
  function OnDecide(s: State, valid: bool, available: bool): State {
    if !s.work.Deciding? || EntryOf(s.work.base).None? then s
    else
      var base := s.work.base;
      var h := EntryOf(base).value;
      match h.phase
      case New => s.(work := Closing(base, SetHistory(base.history, h.(phase := Pending))))
      case Pending =>
        if !valid || !available then s.(work := Idle)
        else if Due(base.spec, s.now) then
          s.(work := Accepted(base), log := s.log + [Approved(s.pass, base.uid, s.now, base.spec, base.edits)])
        else s.(work := Closing(base, SetHistory(base.history, h.(phase := Pending))))
      case Upgrading => s.(work := Checking(base))
      case Upgraded => s.(work := if h.start.None? || h.complete.None? then Crashed else Idle)
      case Failed => s.(work := Idle)
  }

  function OnRefreshUnchanged(s: State): State {
    if !s.work.Accepted? || EntryOf(s.work.base).None? then s
    else
      var base := s.work.base;
      var h := EntryOf(base).value.(phase := Upgrading, start := Some(s.now));
      s.(work := Opening(base, SetHistory(base.history, h)), log := s.log + [Unchanged(s.pass, base.uid)])
  }

  function OnRefreshChanged(s: State, c: Change): State {
    if !s.work.Accepted? || EntryOf(s.work.base).None? then s
    else
      var base := s.work.base;
      var s1 := match c
        case Removed => s.(store := None)
        case Marked => MarkDeleted(s)
        case Replaced(spec) => Put(s, spec);
      s1.(work := Closing(base, SetHistory(base.history, EntryOf(base).value.(phase := New))))
  }

  /** The write that adds an entry; one that is stored as upgrading from the start is an adoption. */
  function Entered(s: State, base: Obj, hist: seq<History>, f: Fault): State {
    var s1 := Write(s, base, hist, f);
    if f.Lands() && Matches(s.store, base) && hist != [] && hist[0].phase.Upgrading?
    then s1.(log := s.log + [Adopted(base.uid, base.spec.desired.version, base.edits)])
    else s1
  }

  function OnUpdate(s: State, f: Fault): State {
    match s.work
    case Creating(base, hist) =>
      var s1 := Entered(s, base, hist, f);
      s1.(work := if Accepts(s, base, f) then Deciding(s1.store.value) else Idle)
    case Opening(base, hist) =>
      var s1 := Write(s, base, hist, f);
      s1.(work := if Accepts(s, base, f) then Checking(s1.store.value) else Idle)
    case Closing(base, hist) => Write(s, base, hist, f).(work := Idle)
    case _ => s
  }

  /** The OSD failure window: give up only when the ClusterVersion was read, shows no commitment, and
      the window that opened at the recorded start has passed. */
  function OnCheck(s: State, cvOk: bool, window: nat): State {
    if !s.work.Checking? then s
    else
      var base := s.work.base;
      var h := EntryOf(base);
      var read := cvOk && CV.UpgradeSource(base.spec.desired).Some?;
      if read && !CV.Commenced(s.doc, base.spec.desired) && h.Some? && h.value.start.None? then s.(work := Crashed)
      else
        var late := h.Some? && h.value.start.Some? && window > 0 && s.now > h.value.start.value + window;
        s.(log := s.log + [Checked(s.pass, read, late)],
           work := if read && !CV.Commenced(s.doc, base.spec.desired) && late then Failing(base)
                   else Stepping(base, base.history, 0))
  }

  function OnFailUpgrade(s: State, scaledDown: bool, notified: bool): State {
    if !s.work.Failing? then s
    else
      var base := s.work.base;
      var h := EntryOf(base);
      if h.None? then s.(work := Crashed)
      else
        var phase := if scaledDown && notified then Failed else h.value.phase;
        s.(work := Closing(base, SetHistory(base.history, h.value.(phase := phase))),
           log := s.log + [GaveUp(s.pass, scaledDown, notified)])
  }

  /** The conditions after step `i` has been started, and after it has returned. */
  function Begun(cs: seq<Condition>, i: nat, now: Time): seq<Condition>
    requires i < STEP_COUNT
  {
    StepRunner.Put(cs, StartSets(cs, OSD_STEPS[i], now), now)
  }

  function Ended(cs: seq<Condition>, i: nat, o: Outcome, now: Time): seq<Condition>
    requires i < STEP_COUNT
  {
    StepRunner.Put(cs, EndSets(cs, OSD_STEPS[i], StepRun(now, o, now)), now)
  }

  function OnStepBegin(s: State): State {
    if !s.work.Stepping? || s.work.i >= STEP_COUNT then s
    else
      var h := GetHistory(s.work.hist, s.work.base.spec.desired.version);
      if h.None? then s.(work := Crashed)
      else BeginWith(s, h.value.(conditions := Begun(h.value.conditions, s.work.i, s.now)))
  }

  function BeginWith(s: State, h: History): State
    requires s.work.Stepping?
  {
    s.(work := Running(s.work.base, SetHistory(s.work.hist, h), s.work.i))
  }

  /** The end of a step with the given outcome: go on, finish the upgrade, or stop the pass. */
  function FinishStep(s: State, o: Outcome): State
    requires s.work.Running? && s.work.i < STEP_COUNT
  {
    var h := GetHistory(s.work.hist, s.work.base.spec.desired.version);
    if h.None? then s.(work := Crashed)
    else FinishWith(s, o, h.value.(conditions := Ended(h.value.conditions, s.work.i, o, s.now)))
  }

  function FinishWith(s: State, o: Outcome, h: History): State
    requires s.work.Running? && s.work.i < STEP_COUNT
  {
    var base, hist, i := s.work.base, s.work.hist, s.work.i;
    if !o.Done? then s.(work := Closing(base, SetHistory(hist, h.(phase := Upgrading))))
    else
      var s1 := s.(log := s.log + [StepDone(s.pass, i)]);
      if i + 1 < STEP_COUNT then s1.(work := Stepping(base, SetHistory(hist, h), i + 1))
      else s1.(work := Closing(base, SetHistory(hist, h.(phase := Upgraded, complete := Some(s.now)))))
  }

  function OnStepEnd(s: State, o: Outcome): State {
    if s.work.Running? && s.work.i < STEP_COUNT && s.work.i != COMMENCE then FinishStep(s, o) else s
  }

  /** What CommenceUpgrade does to the ClusterVersion and returns. */
  function Commencing(doc: J.Json, us: CV.Updates, d: CV.Desired, cvOk: bool, notified: bool, calls: CV.Calls)
    : (J.Json, Outcome)
  {
    if !cvOk || CV.UpgradeSource(d).None? then (doc, Erred("clusterversion"))
    else if CV.Commenced(doc, d) then (doc, Done)
    else if !notified then (doc, Erred("notification"))
    else
      var e := CV.EnsureDesired(doc, us, d, calls);
      (e.doc, if e.err then Erred("clusterversion") else if e.triggered then Done else NotDone)
  }

  function OnCommence(s: State, cvOk: bool, notified: bool, calls: CV.Calls): State {
    if !s.work.Running? || s.work.i != COMMENCE then s
    else
      var (doc, o) := Commencing(s.doc, s.updates, s.work.base.spec.desired, cvOk, notified, calls);
      FinishStep(s.(doc := doc), o)
  }

  function OnAbort(s: State): State {
    if s.work.Loaded? || s.work.Deciding? || s.work.Accepted? then s.(work := Idle) else s
  }

  function Next(s: State, e: Event): State {
    match e
    case Tick(d) => s.(now := s.now + d)
    case CvoPublishes(us) => s.(updates := us)
    case Delete => s.(store := None)
    case Create(spec) => if s.store.None? then Put(s, spec) else s
    case Edit(spec) => EditSpec(s, spec)
    case Touch => Bump(s)
    case Mark => MarkDeleted(s)
    case PoolGet(m, u) => OnPoolGet(s, m, u)
    case PoolStamp => OnPoolStamp(s)
    case PoolUpdate(f) => OnPoolUpdate(s, f)
    case PoolError => s.(pool := PoolIdle)
    case Get => OnGet(s)
    case Inspect(ok, preceding) => OnInspect(s, ok, preceding)
    case Decide(v, a) => OnDecide(s, v, a)
    case RefreshUnchanged => OnRefreshUnchanged(s)
    case RefreshChanged(c) => OnRefreshChanged(s, c)
    case Update(f) => OnUpdate(s, f)
    case Check(ok, w) => OnCheck(s, ok, w)
    case FailUpgrade(d, n) => OnFailUpgrade(s, d, n)
    case StepBegin => OnStepBegin(s)
    case StepEnd(o) => OnStepEnd(s, o)
    case Commence(ok, n, c) => OnCommence(s, ok, n, c)
    case Abort => OnAbort(s)
  }

  /** Any state of an untouched cluster: no object yet, nobody working, any ClusterVersion. */
  predicate Initial(s: State) {
    s.store.None? && s.work.Idle? && s.pool.PoolIdle? && s.log == []
  }

  /** The state after a series of events. */
  function After(s: State, events: seq<Event>): State {
    if events == [] then s else Next(After(s, events[..|events| - 1]), events[|events| - 1])
  }

  /** Some series of events leads from an untouched cluster to this state. */
  ghost predicate Reachable(r: State) {
    exists s, events :: Initial(s) && After(s, events) == r
  }

  lemma AfterOne(s: State, events: seq<Event>, e: Event)
    ensures After(s, events + [e]) == Next(After(s, events), e)
  {
    hide Next;
    assert (events + [e])[..|events|] == events;
  }

  lemma {:induction false} AfterBoth(s: State, a: seq<Event>, b: seq<Event>)
    ensures After(s, a + b) == After(After(s, a), b)
  {
    hide Next;
    if b == [] {
      assert a + b == a;
    } else {
      var n := |b| - 1;
      assert (a + b)[..|a + b| - 1] == a + b[..n];
      AfterBoth(s, a, b[..n]);
    }
  }

  lemma ReachableAfter(r: State, more: seq<Event>)
    requires Reachable(r)
    ensures Reachable(After(r, more))
  {
    hide After;
    var s, events :| Initial(s) && After(s, events) == r;
    AfterBoth(s, events, more);
  }
}

/** The reconciler's own code, statement by statement, as one of the actors of the lifecycle. Between any
    two of its remote calls the others may take any number of turns. */
module Reconciler {
  import opened Kube
  import opened UpgradeStatus
  import opened StepRunner
  import opened Lifecycle
  import opened LifecycleInvariant
  import opened LifecycleSteps
  import opened LifecycleTheorems
  import opened LifecycleCommitment
  import CV = ClusterVersion

  /** The reconciler's own work, and what it did to the ClusterVersion. */
  predicate SameWork(s: State, s': State) {
    s'.work == s.work && s'.pass == s.pass && s'.log == s.log && s'.doc == s.doc
  }

  /** The others' turns leave the reconciler's own work alone. */
  lemma OthersKeepWork(s: State, e: Event)
    requires IsEnvironment(e) || IsPool(e)
    ensures SameWork(s, Next(s, e)) && !e.Abort?
  {
  }

  lemma NeverCrashed(s: State)
    requires Reachable(s)
    ensures !s.work.Crashed?
    ensures s.work.Failing? ==> EntryOf(s.work.base).Some? && EntryOf(s.work.base).value.phase == Upgrading
  {
    hide StoreOk, PoolOk, WorkBaseOk, ToWriteOk;
    ReachableInv(s);
    if s.work.Failing? {
      EntryAt(s.work.base);
    }
  }

  lemma SetHistoryTwice(hs: seq<History>, a: History, b: History)
    requires a.version == b.version
    ensures SetHistory(SetHistory(hs, a), b) == SetHistory(hs, b)
    ensures GetHistory(SetHistory(hs, a), a.version) == Some(a)
  {
    SetHistoryIsKeyed(hs, a);
    var i := FindHistory(hs, a.version);
    if i < |hs| {
      HistoryUnique(SetHistory(hs, a), a.version, i);
    }
  }

  lemma OthersKeepPool(s: State, e: Event)
    requires !IsPool(e)
    ensures Next(s, e).pool == s.pool
  {
  }

  /** From one moment of a run to a later one: an object still stored has only moved forward; and if it was not edited,
      the cluster was committed to what it asks for and no stale pass was in hand, the cluster still is, and the
      object did not fail. */
  ghost predicate OnlyForward(r: State, q: State) {
    && (r.store.Some? && SameObject(q.store, r.store.value) ==> LaterObj(r.store.value, q.store.value))
    && (Committed(r) && !StalePass(r) && Unedited(r, q) && !InPhase(r.store.value, Failed) ==>
          Committed(q) && !InPhase(q.store.value, Failed))
  }

  lemma RunMoves(r: State, more: seq<Event>)
    requires Reachable(r)
    ensures OnlyForward(r, After(r, more))
  {
    hide Reachable, After, LaterObj, Committed, StalePass, InPhase;
    if r.store.Some? && SameObject(After(r, more).store, r.store.value) {
      HistoryOnlyMovesForward(r, more, "");
    }
    if Committed(r) && !StalePass(r) && Unedited(r, After(r, more)) && !InPhase(r.store.value, Failed) {
      NoFailureOnceCommitted(r, more);
    }
  }

  /** What the reads of a pass that may end it early come back with. */
  datatype Replies = Replies(found: bool, cvRead: bool, configured: bool, refreshed: bool) {
    predicate AllGood() { found && cvRead && configured && refreshed }
  }

  /** The run went on from `a` to `b` without the reconciler dropping what it had in hand. */
  ghost predicate Grew(a: seq<Event>, b: seq<Event>) {
    a <= b && forall i :: |a| <= i < |b| ==> !b[i].Abort?
  }

  predicate Did(a: seq<Event>, b: seq<Event>, e: Event) {
    exists i :: |a| <= i < |b| && b[i] == e
  }

  /** A pass may do so only when one of its reads failed. */
  ghost predicate Ran(a: seq<Event>, b: seq<Event>, c: Replies) {
    a <= b && (c.AllGood() ==> Grew(a, b))
  }

  class World {
    var st: State
    ghost const first: State
    ghost var events: seq<Event>

    ghost predicate Valid()
      reads this
    {
      Initial(first) && st == After(first, events)
    }

    constructor (s: State)
      requires Initial(s)
      ensures Valid() && st == s
    {
      st, first, events := s, s, [];
    }

    /** One atomic action of anybody's. */
    method Step(e: Event)
      requires Valid()
      modifies this
      ensures Valid() && events == old(events) + [e] && st == Next(old(st), e)
    {
      hide Next, After, Initial;
      AfterOne(first, events, e);
      st := Next(st, e);
      events := events + [e];
    }

    /** Any number of turns of the environment and of the MachineConfigPool controller. */
    method Others()
      requires Valid()
      modifies this
      ensures Valid() && Grew(old(events), events) && SameWork(old(st), st)
    {
      hide Next, After, Initial, IsEnvironment, IsPool;
      var turns: nat := *;
      while turns > 0
        invariant Valid() && Grew(old(events), events) && SameWork(old(st), st)
      {
        turns := turns - 1;
        var e: Event := *;
        if IsEnvironment(e) || IsPool(e) {
          OthersKeepWork(st, e);
          Step(e);
        }
      }
    }

    /** Write the status back. On success the reply is the object as it is now stored. */
    method UpdateStatus(instance: Obj, hist: seq<History>) returns (ok: bool, reply: Obj)
      requires Valid()
      requires || st.work == Creating(instance, hist)
               || st.work == Opening(instance, hist)
               || st.work == Closing(instance, hist)
      modifies this
      ensures Valid() && Grew(old(events), events) && st.pass == old(st.pass)
      ensures !ok || old(st.work).Closing? ==> st.work == Idle
      ensures ok && hist != instance.history ==> reply.spec == instance.spec && reply.history == hist
      ensures ok && old(st.work).Creating? ==> st.work == Deciding(reply)
      ensures ok && old(st.work).Opening? ==> st.work == Checking(reply)
    {
      var f: Fault := *;
      ok := Accepts(st, instance, f);
      Step(Update(f));
      reply := if ok then st.store.value else instance;
    }

    /** One reconcile. Whatever is read, whatever fails and whoever interferes, it comes to an end with
        nothing left in hand, and no missing entry or time is ever dereferenced on the way; an object that is
        still there has only moved forward, and one the cluster was committed to is still that and not Failed. */
    method Reconcile(window: nat, c: Replies) returns (fetched: bool)
      requires Valid() && st.work == Idle
      modifies this
      ensures st.pass == old(st.pass) + (if fetched then 1 else 0)
      ensures c.found && !fetched ==> st.store.None?
      ensures Valid() && Ran(old(events), events, c) && st.work == Idle
      ensures OnlyForward(old(st), st)
    {
      hide After, Initial, OnlyForward;
      ghost var before := events;
      fetched := OnePass(window, c);
      Moved(before);
    }

    method OnePass(window: nat, c: Replies) returns (fetched: bool)
      requires Valid() && st.work == Idle
      modifies this
      ensures st.pass == old(st.pass) + (if fetched then 1 else 0)
      ensures c.found && !fetched ==> st.store.None?
      ensures Valid() && Ran(old(events), events, c) && st.work == Idle
    {
      hide After, Initial, FindHistory, CV.Commenced, CV.UpgradeSource;
      Others();
      if st.store.None? || !c.found {
        return false;
      }
      var instance := st.store.value;
      Step(Get);
      Others();
      if !c.cvRead {
        Step(Abort);
        return true;
      }
      FindEntry(instance, window, c);
      fetched := true;
    }

    method FindEntry(loaded: Obj, window: nat, c: Replies)
      requires Valid() && st.work == Loaded(loaded)
      modifies this
      ensures Valid() && Ran(old(events), events, c) && st.work == Idle && st.pass == old(st.pass)
    {
      var instance := loaded;
      if GetHistory(instance.history, instance.spec.desired.version).None? {
        var preceding: string := *;
        var ok;
        ok, instance := AddEntry(instance, preceding);
        if !ok {
          return;
        }
      } else {
        Step(Inspect(true, ""));
      }
      PhaseSwitch(instance, window, c);
    }

    /** No entry yet: make one that follows the ClusterVersion, and store it in front of the others. */
    method AddEntry(instance: Obj, preceding: string) returns (ok: bool, reply: Obj)
      requires Valid() && st.work == Loaded(instance) && EntryOf(instance).None?
      modifies this
      ensures Valid() && Grew(old(events), events) && st.pass == old(st.pass)
      ensures !ok ==> st.work == Idle
      ensures ok ==> st.work == Deciding(reply) && EntryOf(reply).Some?
    {
      hide After, Initial, CV.Commenced, CV.UpgradeSource;
      var d := instance.spec.desired;
      var read: bool := *;
      if !read || CV.UpgradeSource(d).None? {
        Step(Inspect(false, preceding));
        return false, instance;
      }
      var history: History;
      if CV.Commenced(st.doc, d) {
        history := History(d.version, preceding, Upgrading, [], Some(st.now), None, None, None);
      } else {
        history := History(d.version, preceding, New, [], None, None, None, None);
      }
      var hist := [history] + instance.history;
      Step(Inspect(true, preceding));
      Others();
      ok, reply := UpdateStatus(instance, hist);
    }

    method PhaseSwitch(instance: Obj, window: nat, c: Replies)
      requires Valid() && st.work == Deciding(instance) && EntryOf(instance).Some?
      modifies this
      ensures Valid() && Ran(old(events), events, c) && st.work == Idle && st.pass == old(st.pass)
    {
      hide After, Initial, FindHistory, CV.Commenced, CV.UpgradeSource;
      Others();
      if !c.configured {
        Step(Abort);
        return;
      }
      var history := GetHistory(instance.history, instance.spec.desired.version).value;
      match history.phase
      case New =>
        OnNew(instance, history);
      case Pending =>
        OnPending(instance, history, window, c);
      case Upgrading =>
        OnUpgrading(instance, history, window);
      case Upgraded =>
        OnFinal(instance, history);
      case Failed =>
        OnFinal(instance, history);
    }

    method OnUpgrading(instance: Obj, history: History, window: nat)
      requires Valid() && st.work == Deciding(instance) && EntryOf(instance) == Some(history) && history.phase == Upgrading
      modifies this
      ensures Valid() && Grew(old(events), events) && st.work == Idle && st.pass == old(st.pass)
    {
      Step(Decide(true, true));
      UpgradeCluster(instance, window);
    }

    /** Reporting a finished upgrade reads its start and completion times. */
    method OnFinal(instance: Obj, history: History)
      requires Valid() && st.work == Deciding(instance) && EntryOf(instance) == Some(history)
      requires history.phase == Upgraded || history.phase == Failed
      modifies this
      ensures Valid() && Grew(old(events), events) && st.work == Idle && st.pass == old(st.pass)
    {
      Step(Decide(true, true));
      NotCrashed();
    }

    method OnNew(instance: Obj, history: History)
      requires Valid() && st.work == Deciding(instance) && EntryOf(instance) == Some(history) && history.phase == New
      modifies this
      ensures Valid() && Grew(old(events), events) && st.work == Idle && st.pass == old(st.pass)
    {
      hide After, Initial, FindHistory, CV.Commenced, CV.UpgradeSource;
      var hist := SetHistory(instance.history, history.(phase := Pending));
      Step(Decide(true, true));
      Others();
      var ok, reply := UpdateStatus(instance, hist);
    }

    /** A scheduled upgrade: validate it, and start it once it is due unless the provider has changed it. */
    method OnPending(instance: Obj, history: History, window: nat, c: Replies)
      requires Valid() && st.work == Deciding(instance) && EntryOf(instance) == Some(history) && history.phase == Pending
      modifies this
      ensures Valid() && Ran(old(events), events, c) && st.work == Idle && st.pass == old(st.pass)
    {
      hide After, Initial, FindHistory, CV.Commenced, CV.UpgradeSource;
      var valid: bool := *;
      var available: bool := *;
      if !valid || !available {
        Step(Decide(valid, available));
        return;
      }
      if !Due(instance.spec, st.now) {
        var hist := SetHistory(instance.history, history.(phase := Pending));
        Step(Decide(true, true));
        Others();
        var ok, reply := UpdateStatus(instance, hist);
        return;
      }
      Step(Decide(true, true));
      Others();
      SyncAndStart(instance, history, window, c);
    }

    method SyncAndStart(instance: Obj, history: History, window: nat, c: Replies)
      requires Valid() && st.work == Accepted(instance) && EntryOf(instance) == Some(history) && history.phase == Pending
      modifies this
      ensures Valid() && Ran(old(events), events, c) && st.work == Idle && st.pass == old(st.pass)
    {
      hide After, Initial, FindHistory, CV.Commenced, CV.UpgradeSource;
      if !c.refreshed {
        Step(Abort);
        return;
      }
      var remoteChanged: bool := *;
      if remoteChanged {
        var change: Change := *;
        var hist := SetHistory(instance.history, history.(phase := New));
        Step(RefreshChanged(change));
        Others();
        var ok, reply := UpdateStatus(instance, hist);
        return;
      }
      StartUpgrade(instance, history, window);
    }

    method StartUpgrade(instance: Obj, history: History, window: nat)
      requires Valid() && st.work == Accepted(instance) && EntryOf(instance) == Some(history) && history.phase == Pending
      modifies this
      ensures Valid() && Grew(old(events), events) && st.work == Idle && st.pass == old(st.pass)
    {
      hide After, Initial, FindHistory, CV.Commenced, CV.UpgradeSource;
      var started := history.(phase := Upgrading, start := Some(st.now));
      var hist := SetHistory(instance.history, started);
      SetHistoryIsKeyed(instance.history, started);
      Step(RefreshUnchanged);
      Others();
      var ok, reply := UpdateStatus(instance, hist);
      if ok {
        UpgradeCluster(reply, window);
      }
    }

    /** Give up or run the steps, then write the phase they leave. */
    method UpgradeCluster(instance: Obj, window: nat)
      requires Valid() && st.work == Checking(instance)
      modifies this
      ensures Valid() && Grew(old(events), events) && st.work == Idle && st.pass == old(st.pass)
    {
      hide After, Initial, FindHistory, CV.Commenced, CV.UpgradeSource;
      Others();
      var cvRead: bool := *;
      var d := instance.spec.desired;
      var cancel := false;
      if cvRead && CV.UpgradeSource(d).Some? && !CV.Commenced(st.doc, d) {
        var h := GetHistory(instance.history, d.version);
        if h.Some? && h.value.start.Some? {
          cancel := window > 0 && st.now > h.value.start.value + window;
        }
      }
      Step(Check(cvRead, window));
      NotCrashed();
      if cancel {
        GiveUp(instance);
      } else {
        RunSteps(instance);
      }
    }

    method GiveUp(instance: Obj)
      requires Valid() && st.work == Failing(instance)
      modifies this
      ensures Valid() && Grew(old(events), events) && st.work == Idle && st.pass == old(st.pass)
    {
      hide After, Initial, FindHistory, CV.Commenced, CV.UpgradeSource;
      Others();
      NotCrashed();
      var scaledDown: bool := *;
      var notified: bool := *;
      var history := GetHistory(instance.history, instance.spec.desired.version).value;
      var phase := if scaledDown && notified then Failed else history.phase;
      history := history.(phase := phase);
      if phase == Upgraded {
        history := history.(complete := Some(st.now));
      }
      var hist := SetHistory(instance.history, history);
      Step(FailUpgrade(scaledDown, notified));
      Others();
      var ok, reply := UpdateStatus(instance, hist);
    }

    method RunSteps(instance: Obj)
      requires Valid() && st.work == Stepping(instance, instance.history, 0)
      modifies this
      ensures Valid() && Grew(old(events), events) && st.work == Idle && st.pass == old(st.pass)
    {
      var hist := instance.history;
      var i := 0;
      var done := true;
      while done && i < STEP_COUNT
        invariant 0 <= i <= STEP_COUNT && Valid() && Grew(old(events), events) && st.pass == old(st.pass)
        invariant st.work == if done && i < STEP_COUNT then Stepping(instance, hist, i) else Closing(instance, hist)
        decreases STEP_COUNT - i
      {
        Others();
        hist, done := RunStep(instance, hist, i);
        i := i + 1;
      }
      Others();
      var ok, reply := UpdateStatus(instance, hist);
    }

    /** One step: record its start, take its result and record that. A step that is not done ends the pass as
        Upgrading, the last one ends it as Upgraded. */
    method RunStep(instance: Obj, hist: seq<History>, i: nat) returns (hist': seq<History>, done: bool)
      requires Valid() && i < STEP_COUNT && st.work == Stepping(instance, hist, i)
      modifies this
      ensures Valid() && Grew(old(events), events) && st.pass == old(st.pass)
      ensures st.work == if done && i + 1 < STEP_COUNT then Stepping(instance, hist', i + 1) else Closing(instance, hist')
    {
      hist' := BeginStep(instance, hist, i);
      Others();
      if i == COMMENCE {
        hist', done := CommenceUpgrade(instance, hist');
      } else {
        var o: Outcome := *;
        hist' := EndStep(instance, hist', i, o);
        done := o.Done?;
      }
    }

    method BeginStep(instance: Obj, hist: seq<History>, i: nat) returns (hist': seq<History>)
      requires Valid() && i < STEP_COUNT && st.work == Stepping(instance, hist, i)
      modifies this
      ensures Valid() && Grew(old(events), events) && st.pass == old(st.pass) && st.work == Running(instance, hist', i)
    {
      hide Begun;
      var h := GetHistory(hist, instance.spec.desired.version);
      Step(StepBegin);
      NotCrashed();
      hist' := SetHistory(hist, h.value.(conditions := Begun(h.value.conditions, i, st.now)));
    }

    method EndStep(instance: Obj, hist: seq<History>, i: nat, o: Outcome) returns (hist': seq<History>)
      requires Valid() && i < STEP_COUNT && i != COMMENCE && st.work == Running(instance, hist, i)
      modifies this
      ensures Valid() && Grew(old(events), events) && st.pass == old(st.pass)
      ensures st.work == if o.Done? && i + 1 < STEP_COUNT then Stepping(instance, hist', i + 1) else Closing(instance, hist')
    {
      hide Ended, SetHistory;
      var h := GetHistory(hist, instance.spec.desired.version);
      Step(StepEnd(o));
      NotCrashed();
      hist' := Conclude(hist, h.value.(conditions := Ended(h.value.conditions, i, o, st.now)), i, o, st.now);
    }

    method CommenceUpgrade(instance: Obj, hist: seq<History>) returns (hist': seq<History>, done: bool)
      requires Valid() && st.work == Running(instance, hist, COMMENCE)
      modifies this
      ensures Valid() && Grew(old(events), events) && st.pass == old(st.pass)
      ensures st.work == if done then Stepping(instance, hist', COMMENCE + 1) else Closing(instance, hist')
    {
      hide Ended, SetHistory, Commencing;
      var cvOk: bool := *;
      var notified: bool := *;
      var calls: CV.Calls := *;
      var h := GetHistory(hist, instance.spec.desired.version);
      var o := Commencing(st.doc, st.updates, instance.spec.desired, cvOk, notified, calls).1;
      Step(Commence(cvOk, notified, calls));
      NotCrashed();
      done := o.Done?;
      hist' := Conclude(hist, h.value.(conditions := Ended(h.value.conditions, COMMENCE, o, st.now)), COMMENCE, o, st.now);
    }

    /** Write the step's condition into the history and, if the pass is over, its phase. */
    method Conclude(hist: seq<History>, h: History, i: nat, o: Outcome, now: Time) returns (hist': seq<History>)
      ensures hist' == SetHistory(hist,
                         if !o.Done? then h.(phase := Upgrading)
                         else if i + 1 < STEP_COUNT then h else h.(phase := Upgraded, complete := Some(now)))
    {
      hist' := SetHistory(hist, h);
      if o.Done? && i + 1 < STEP_COUNT {
        return;
      }
      var phase := if o.Done? then Upgraded else Upgrading;
      SetHistoryTwice(hist, h, h.(phase := phase));
      SetHistoryTwice(hist, h, h.(phase := phase, complete := Some(now)));
      var history := GetHistory(hist', h.version).value;
      history := history.(phase := phase);
      if phase == Upgraded {
        history := history.(complete := Some(now));
      }
      hist' := SetHistory(hist', history);
    }

    // ---- The MachineConfigPool controller ----------------------------------------------------------------------

    /** Any number of turns of the environment and of the reconciler. */
    method OthersThanPool()
      requires Valid()
      modifies this
      ensures Valid() && old(events) <= events && st.pool == old(st.pool)
    {
      hide *;
      var turns: nat := *;
      while turns > 0
        invariant Valid() && old(events) <= events && st.pool == old(st.pool)
      {
        turns := turns - 1;
        var e: Event := *;
        if !IsPool(e) {
          OthersKeepPool(st, e);
          Step(e);
        }
      }
    }

    /** Record when the workers start and complete. */
    method ReconcilePool(machines: nat, updated: nat, found: bool) returns (fetched: bool)
      requires Valid() && st.pool == PoolIdle
      modifies this
      ensures found && !fetched ==> st.store.None?
      ensures fetched ==> Did(old(events), events, PoolGet(machines, updated))
      ensures Valid() && old(events) <= events && st.pool == PoolIdle
      ensures OnlyForward(old(st), st)
    {
      hide After, Initial, OnlyForward;
      ghost var before := events;
      fetched := PoolPass(machines, updated, found);
      Moved(before);
    }

    method PoolPass(machines: nat, updated: nat, found: bool) returns (fetched: bool)
      requires Valid() && st.pool == PoolIdle
      modifies this
      ensures found && !fetched ==> st.store.None?
      ensures fetched ==> Did(old(events), events, PoolGet(machines, updated))
      ensures Valid() && old(events) <= events && st.pool == PoolIdle
    {
      OthersThanPool();
      if st.store.None? || !found {
        return false;
      }
      var uc := st.store.value;
      Step(PoolGet(machines, updated));
      OthersThanPool();
      StampWorkers(uc, machines, updated);
      fetched := true;
    }

    method StampWorkers(uc: Obj, machines: nat, updated: nat)
      requires Valid() && st.pool == PoolLoaded(uc, machines, updated)
      modifies this
      ensures Valid() && old(events) <= events && st.pool == PoolIdle
    {
      hide After, Initial, FindHistory, CV.Commenced, CV.UpgradeSource;
      var entry := GetHistory(uc.history, uc.spec.desired.version);
      if entry.None? || entry.value.phase != Upgrading {
        Step(PoolStamp);
        return;
      }
      var history := entry.value;
      if updated == 0 {
        if history.workerStart.None? {
          history := history.(workerStart := Some(st.now));
        }
      }
      if machines == updated {
        if history.workerStart.Some? && history.workerComplete.None? {
          history := history.(workerComplete := Some(st.now));
        }
      }
      var hist := SetHistory(uc.history, history);
      Step(PoolStamp);
      assert st.pool == PoolWriting(uc, hist);
      OthersThanPool();
      var f: Fault := *;
      Step(PoolUpdate(f));
    }

    /** What every further part of a run does to what was stored before. */
    lemma Moved(before: seq<Event>)
      requires Valid() && before <= events
      ensures OnlyForward(After(first, before), st)
    {
      var more := events[|before|..];
      assert events == before + more;
      AfterBoth(first, before, more);
      RunMoves(After(first, before), more);
    }

    lemma NotCrashed()
      requires Valid()
      ensures !st.work.Crashed?
      ensures st.work.Failing? ==> EntryOf(st.work.base).Some? && EntryOf(st.work.base).value.phase == Upgrading
    {
      NeverCrashed(st);
    }
  }
}

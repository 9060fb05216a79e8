/** How phases come to be stored: what the log of a pass stands for, what a stored outcome means, and when exactly a
    pass that nobody disturbs moves its entry on. */
module LifecycleOutcomes {
  import opened Kube
  import opened UpgradeStatus
  import opened StepRunner
  import opened Lifecycle
  import opened LifecycleInvariant
  import opened LifecycleSteps
  import opened LifecycleTheorems
  import CV = ClusterVersion
  import J = Json

  // ---- The log tells what happened -----------------------------------------------------------------------------

  /** CommenceUpgrade returns true: the cluster is committed already, or the notification was sent and the ClusterVersion
      client reports the update as set. */
  predicate Commences(doc: J.Json, us: CV.Updates, d: CV.Desired, e: Event)
    requires e.Commence?
  {
    && e.cvOk && CV.UpgradeSource(d).Some?
    && (CV.Commenced(doc, d) || (e.notified && CV.Triggers(doc, us, d, e.calls)))
  }

  lemma CommencingDoneIff(doc: J.Json, us: CV.Updates, d: CV.Desired, e: Event)
    requires e.Commence?
    ensures Commencing(doc, us, d, e.cvOk, e.notified, e.calls).1.Done? <==> Commences(doc, us, d, e)
  {
    hide CV.EnsureDesired, CV.Triggers, CV.Errs, CV.Commenced, CV.UpgradeSource;
    CV.EnsureDesiredExactly(doc, us, d, e.calls);
    CV.EnsureDesiredHonours(doc, us, d, e.calls);
  }

  /** What must have happened at event `e` for the log to hold `x`. */
  predicate Records(s: State, e: Event, x: Entry) {
    match x
    case Adopted(uid, version, edits) =>
      && e.Update? && e.f.Lands() && s.work.Creating? && Matches(s.store, s.work.base)
      && s.work.base.uid == uid && s.work.base.spec.desired.version == version && s.work.base.edits == edits
    case Approved(p, uid, at, spec, edits) =>
      && e == Decide(true, true) && s.work.Deciding? && InPhase(s.work.base, Pending) && s.pass == p && s.now == at
      && s.work.base.uid == uid && s.work.base.spec == spec && s.work.base.edits == edits
      && spec.upgradeAt.Some? && at > spec.upgradeAt.value
    case Unchanged(p, uid) =>
      e == RefreshUnchanged && s.work.Accepted? && s.pass == p && s.work.base.uid == uid
    case Checked(p, readOk, late) =>
      && e.Check? && s.work.Checking? && s.pass == p
      && (readOk <==> e.cvOk && CV.UpgradeSource(s.work.base.spec.desired).Some?)
      && (late <==> e.window > 0 && Overdue(s.work.base, s.now, e.window))
    case GaveUp(p, scaledDown, notified) =>
      e == FailUpgrade(scaledDown, notified) && s.work.Failing? && s.pass == p
    case StepDone(p, j) =>
      && s.work.Running? && s.pass == p && s.work.i == j < |OSD_STEPS|
      && (if e.Commence?
          then OSD_STEPS[j] == "UpgradeCommenced" && Commences(s.doc, s.updates, s.work.base.spec.desired, e)
          else OSD_STEPS[j] != "UpgradeCommenced" && e == StepEnd(Done))
  }

  /** The window that opened at the recorded start has passed. */
  predicate Overdue(b: Obj, now: Time, window: nat) {
    HasEntry(b) && var start := b.history[Cur(b)].start; start.Some? && now > start.value + window
  }

  lemma OneCommence(j: nat)
    requires j < STEP_COUNT
    ensures |OSD_STEPS| == STEP_COUNT && (OSD_STEPS[j] == "UpgradeCommenced" <==> j == COMMENCE)
  {
  }

  lemma StepLogs(s: State, e: Event)
    requires e.StepEnd? || e.Commence?
    ensures Logs(s, e)
  {
    hide Begun, Ended, SetHistory, GetHistory, Commencing, Commences, OSD_STEPS;
    if s.work.Running? && s.work.i < STEP_COUNT {
      OneCommence(s.work.i);
      if e.Commence? {
        CommencingDoneIff(s.doc, s.updates, s.work.base.spec.desired, e);
      }
    }
  }

  /** An event logs nothing, or one entry that tells what happened. */
  ghost predicate Logs(s: State, e: Event) {
    var log' := Next(s, e).log;
    log' == s.log || (|log'| == |s.log| + 1 && log'[..|s.log|] == s.log && Records(s, e, log'[|s.log|]))
  }

  lemma EventLogs(s: State, e: Event)
    ensures Logs(s, e)
  {
    hide Begun, Ended, SetHistory, FindHistory, Commencing, Commences, OSD_STEPS, CV.Commenced, CV.UpgradeSource;
    if e.StepEnd? || e.Commence? {
      StepLogs(s, e);
    }
  }

  /** Whatever the log holds after a run did happen in it. */
  lemma {:induction false} LogIsTrue(s: State, events: seq<Event>, x: Entry)
    requires Initial(s) && x in After(s, events).log
    ensures exists i :: 0 <= i < |events| && Records(After(s, events[..i]), events[i], x)
  {
    hide Next, Records;
    var most, e := events[..|events| - 1], events[|events| - 1];
    EventLogs(After(s, most), e);
    if x in After(s, most).log {
      LogIsTrue(s, most, x);
      var i :| 0 <= i < |most| && Records(After(s, most[..i]), most[i], x);
      assert most[..i] == events[..i];
    } else {
      assert most == events[..|events| - 1];
    }
  }

  // ---- What a stored outcome means -------------------------------------------------------------------------------

  /** A pass about to give up found its upgrade late; one about to store an outcome has earned it. */
  predicate Earned(s: State) {
    && (s.work.Failing? ==> Checked(s.pass, true, true) in s.log)
    && (s.work.Closing? ==> OutcomeEarned(s.log, s.pass, PhaseAt(s.work.hist, s.work.base.spec.desired.version)))
  }

  predicate OutcomeEarned(log: seq<Entry>, pass: nat, phase: Option<Phase>) {
    && (phase == Some(Upgraded) ==> StepsDone(log, pass, STEP_COUNT))
    && (phase == Some(Failed) ==> Checked(pass, true, true) in log && GaveUp(pass, true, true) in log)
  }

  /** The phase found under a version that was just written back. */
  lemma PhaseWritten(hist: seq<History>, h: History)
    ensures PhaseAt(SetHistory(hist, h), h.version) == Some(h.phase)
  {
    SetHistoryIsKeyed(hist, h);
  }

  lemma FinishEarns(s: State, o: Outcome)
    requires Inv(s) && s.work.Running?
    ensures s.work.i < STEP_COUNT && Earned(FinishStep(s, o))
  {
    hide Inv, Ended, SetHistory, FindHistory, EntryOk, Evolves, Licensed;
    LocalEntry(s);
    CommitFacts(s);
    OneMoreStep(s.log, s.pass, s.work.i);
    var b, hist := s.work.base, s.work.hist;
    var h := hist[Cur(b)].(conditions := Ended(hist[Cur(b)].conditions, s.work.i, o, s.now));
    PhaseWritten(hist, h.(phase := Upgrading));
    PhaseWritten(hist, h.(phase := Upgraded, complete := Some(s.now)));
  }

  lemma RewriteEarns(s: State, e: Event)
    requires Inv(s) && Earned(s) && (e.Decide? || e.RefreshChanged? || e.FailUpgrade? || e.Check?)
    ensures Earned(Next(s, e))
  {
    hide StoreOk, PoolOk, WorkBaseOk, ToWriteOk, SetHistory, FindHistory, CV.Commenced, Due;
    if Held(s.work).Some? && EntryOf(s.work.base).Some? {
      var b := s.work.base;
      var h := EntryOf(b).value;
      forall p: Phase ensures PhaseAt(SetHistory(b.history, h.(phase := p)), h.version) == Some(p) {
        PhaseWritten(b.history, h.(phase := p));
      }
    }
  }

  lemma NextEarns(s: State, e: Event)
    requires Inv(s) && Earned(s)
    ensures Earned(Next(s, e))
  {
    hide Inv, SetHistory, FindHistory, FinishStep, Begun, Commencing, CV.Commenced, OutcomeEarned;
    if e.Decide? || e.RefreshChanged? || e.FailUpgrade? || e.Check? {
      RewriteEarns(s, e);
    } else if e.StepEnd? && s.work.Running? {
      FinishEarns(s, e.o);
    } else if e.Commence? && s.work.Running? {
      var d := s.work.base.spec.desired;
      var s1 := s.(doc := Commencing(s.doc, s.updates, d, e.cvOk, e.notified, e.calls).0);
      CommencePatches(s, d, e.cvOk, e.notified, e.calls);
      PatchKeepsInv(s, s1);
      FinishEarns(s1, Commencing(s.doc, s.updates, d, e.cvOk, e.notified, e.calls).1);
    }
  }

  lemma {:induction false} RunEarns(s: State, events: seq<Event>)
    requires Initial(s)
    ensures Earned(After(s, events))
  {
    hide Next, OutcomeEarned, Inv;
    if events != [] {
      var most := events[..|events| - 1];
      RunEarns(s, most);
      ReachableInv(After(s, most));
      NextEarns(After(s, most), events[|events| - 1]);
    }
  }

  lemma ReachableEarned(r: State)
    requires Reachable(r)
    ensures Earned(r)
  {
    hide After, Earned;
    var s, events :| Initial(s) && After(s, events) == r;
    RunEarns(s, events);
  }

  /** The phase stored for a version of an object. */
  function StoredPhase(s: State, uid: nat, version: string): Option<Phase> {
    if s.store.Some? && s.store.value.uid == uid then PhaseAt(s.store.value.history, version) else None
  }

  /** Event `e` is the write by which a pass stores this phase for a version of an object. */
  predicate Stores(s: State, e: Event, uid: nat, version: string, phase: Phase) {
    && e.Update? && e.f.Lands() && s.work.Closing? && s.work.base.uid == uid
    && s.work.base.spec.desired.version == version && PhaseAt(s.work.hist, version) == Some(phase)
  }

  /** Storing one entry changes no other version's phase. */
  lemma TouchedPhases(b: Obj, hist: seq<History>, version: string)
    requires Touches(b, hist)
    ensures PhaseAt(hist, b.spec.desired.version) == Some(hist[Cur(b)].phase)
    ensures version != b.spec.desired.version ==> PhaseAt(hist, version) == PhaseAt(b.history, version)
  {
    HistoryUnique(hist, b.spec.desired.version, Cur(b));
    if version != b.spec.desired.version {
      HistoryUnique(hist, version, FindHistory(b.history, version));
    }
  }

  lemma CreatedPhases(b: Obj, hist: seq<History>, version: string)
    requires |hist| == |b.history| + 1 && hist[1..] == b.history
    ensures PhaseAt(hist, version) == if hist[0].version == version then Some(hist[0].phase) else PhaseAt(b.history, version)
  {
  }

  lemma OutcomeUpdate(s: State, f: Fault, uid: nat, version: string, phase: Phase)
    requires Inv(s) && (phase.Upgraded? || phase.Failed?)
    requires StoredPhase(OnUpdate(s, f), uid, version) == Some(phase) && StoredPhase(s, uid, version) != Some(phase)
    ensures Stores(s, Update(f), uid, version, phase)
  {
    hide PoolOk, StoreOk, AllLicensed, LogFits, LogKnown, LogSound, HistOk, Licensed, EntryOk, Evolves;
    hide FindHistory, SamePhases, CV.Commenced, Cur;
    if s.work.Creating? {
      CreatedPhases(s.work.base, s.work.hist, version);
    } else if s.work.Opening? || s.work.Closing? {
      TouchedPhases(s.work.base, s.work.hist, version);
    }
  }

  lemma PhasesStay(s: State, s': State, uid: nat, version: string)
    requires PhasesKept(s, s') && (s'.store.Some? ==> SameObject(s.store, s'.store.value))
    ensures s'.store.Some? ==> StoredPhase(s', uid, version) == StoredPhase(s, uid, version)
  {
    if s'.store.Some? {
      PhaseAtSame(s.store.value.history, s'.store.value.history, version);
    }
  }

  /** A new object starts without history; nobody but a write changes the history of one that is there. */
  lemma FreshIsEmpty(s: State, e: Event)
    requires !e.Update?
    ensures var s' := Next(s, e);
            s'.store.Some? && !SameObject(s.store, s'.store.value) ==> !e.PoolUpdate? && s'.store.value.history == []
  {
    hide SetHistory, FindHistory, Begun, Ended, Commencing, CV.Commenced, Due;
  }

  /** An outcome comes to be stored only by the last write of a pass. */
  lemma OutcomeWritten(s: State, e: Event, uid: nat, version: string, phase: Phase)
    requires Inv(s) && (phase.Upgraded? || phase.Failed?)
    requires StoredPhase(Next(s, e), uid, version) == Some(phase) && StoredPhase(s, uid, version) != Some(phase)
    ensures Stores(s, e, uid, version, phase)
  {
    hide Inv, OnUpdate, OnPoolUpdate, StoreEvolves, HistEvolves, FindHistory;
    if e.Update? {
      OutcomeUpdate(s, e.f, uid, version, phase);
    } else if e.PoolUpdate? {
      PoolUpdateEvolves(s, e.f);
      FreshIsEmpty(s, e);
      PhasesStay(s, OnPoolUpdate(s, e.f), uid, version);
    } else {
      StoreFacts(s);
      OthersEvolve(s, e);
      FreshIsEmpty(s, e);
    }
  }

  /** Upgraded is stored only by a pass in which every step, from the first notification to the last, returned true. */
  lemma UpgradedIsComplete(r: State, e: Event, uid: nat, version: string)
    requires Reachable(r)
    requires StoredPhase(Next(r, e), uid, version) == Some(Upgraded) && StoredPhase(r, uid, version) != Some(Upgraded)
    ensures Stores(r, e, uid, version, Upgraded)
    ensures forall name :: name in OSD_STEPS ==> NamedDone(r.log, r.pass, name)
    ensures Prepared(r.log, r.pass) && NamedDone(r.log, r.pass, "UpgradeCommenced")
    ensures NamedDone(r.log, r.pass, "ControlPlaneUpgraded") && NamedDone(r.log, r.pass, "WorkerNodesUpgraded")
    ensures NamedDone(r.log, r.pass, "ComputeCapacityRemoved") && NamedDone(r.log, r.pass, "ClusterHealthyAfterUpgrade")
    ensures NamedDone(r.log, r.pass, "CompletedNotificationSent")
  {
    hide Inv, Next, OSD_STEPS, NamedDone, Prepared, StepsDone;
    ReachableInv(r);
    ReachableEarned(r);
    OutcomeWritten(r, e, uid, version, Upgraded);
    AllNamed();
    forall name | name in OSD_STEPS ensures NamedDone(r.log, r.pass, name) {
      AllStepsNamed(r.log, r.pass, name);
    }
    AllPrepared(r.log, r.pass);
  }

  lemma AllStepsNamed(log: seq<Entry>, pass: nat, name: string)
    requires StepsDone(log, pass, STEP_COUNT) && name in OSD_STEPS
    ensures NamedDone(log, pass, name)
  {
    assert |OSD_STEPS| == STEP_COUNT;
    hide OSD_STEPS;
  }

  lemma AllPrepared(log: seq<Entry>, pass: nat)
    requires StepsDone(log, pass, STEP_COUNT)
    ensures Prepared(log, pass)
  {
    hide Prepared;
    StepsPrepare(log, pass);
  }

  lemma AllNamed()
    ensures "UpgradeCommenced" in OSD_STEPS && "ControlPlaneUpgraded" in OSD_STEPS && "WorkerNodesUpgraded" in OSD_STEPS
    ensures "ComputeCapacityRemoved" in OSD_STEPS && "ClusterHealthyAfterUpgrade" in OSD_STEPS
    ensures "CompletedNotificationSent" in OSD_STEPS
  {
    assert OSD_STEPS[7] == "UpgradeCommenced" && OSD_STEPS[8] == "ControlPlaneUpgraded";
    assert OSD_STEPS[11] == "WorkerNodesUpgraded" && OSD_STEPS[12] == "ComputeCapacityRemoved";
    assert OSD_STEPS[14] == "ClusterHealthyAfterUpgrade" && OSD_STEPS[16] == "CompletedNotificationSent";
  }

  /** Failed is stored only by a pass that read the ClusterVersion, found the upgrade uncommitted and its window past, and
      then met no error either in scaling down or in notifying. */
  lemma FailedIsGivenUp(r: State, e: Event, uid: nat, version: string)
    requires Reachable(r)
    requires StoredPhase(Next(r, e), uid, version) == Some(Failed) && StoredPhase(r, uid, version) != Some(Failed)
    ensures Stores(r, e, uid, version, Failed)
    ensures Checked(r.pass, true, true) in r.log && GaveUp(r.pass, true, true) in r.log
    ensures !CV.Commenced(r.doc, r.work.base.spec.desired)
  {
    hide Inv, Next, OSD_STEPS, FindHistory, CV.Commenced;
    ReachableInv(r);
    ReachableEarned(r);
    OutcomeWritten(r, e, uid, version, Failed);
    FailedUncommitted(r);
  }

  lemma FailedUncommitted(s: State)
    requires Inv(s) && s.work.Closing? && PhaseAt(s.work.hist, s.work.base.spec.desired.version) == Some(Failed)
    ensures !CV.Commenced(s.doc, s.work.base.spec.desired)
  {
    hide PoolOk, StoreOk, WorkBaseOk, LogSound, Licensed, EntryOk, Evolves, CV.Commenced, Cur, FindHistory;
    TouchedPhases(s.work.base, s.work.hist, s.work.base.spec.desired.version);
  }

  lemma LogKept(s: State, e: Event)
    ensures s.log <= Next(s, e).log
  {
    hide Next, Records;
    EventLogs(s, e);
  }

  /** In every reachable state: a version stored as Upgraded had a pass in which every step returned true, and one stored
      as Failed had a pass that found it late and completed the routines for giving up. */
  lemma {:induction false} StoredOutcomeIsEarned(s: State, events: seq<Event>, uid: nat, version: string)
    requires Initial(s)
    ensures var r := After(s, events);
            && (StoredPhase(r, uid, version) == Some(Upgraded) ==> exists p: nat :: StepsDone(r.log, p, |OSD_STEPS|))
            && (StoredPhase(r, uid, version) == Some(Failed) ==>
                  exists p: nat :: Checked(p, true, true) in r.log && GaveUp(p, true, true) in r.log)
  {
    hide Next, Inv, StepsDone, OSD_STEPS, PhaseAt;
    if events != [] {
      var most, e := events[..|events| - 1], events[|events| - 1];
      StoredOutcomeIsEarned(s, most, uid, version);
      LogKept(After(s, most), e);
      OneMoreEarned(After(s, most), e, uid, version);
    }
  }

  lemma StepsStayDone(log: seq<Entry>, log': seq<Entry>, pass: nat, n: nat)
    requires StepsDone(log, pass, n) && log <= log'
    ensures StepsDone(log', pass, n)
  {
  }

  lemma OneMoreEarned(r: State, e: Event, uid: nat, version: string)
    requires Reachable(r) && r.log <= Next(r, e).log
    requires StoredPhase(r, uid, version) == Some(Upgraded) ==> exists p: nat :: StepsDone(r.log, p, |OSD_STEPS|)
    requires StoredPhase(r, uid, version) == Some(Failed) ==>
               exists p: nat :: Checked(p, true, true) in r.log && GaveUp(p, true, true) in r.log
    ensures var r' := Next(r, e);
            && (StoredPhase(r', uid, version) == Some(Upgraded) ==> exists p: nat :: StepsDone(r'.log, p, |OSD_STEPS|))
            && (StoredPhase(r', uid, version) == Some(Failed) ==>
                  exists p: nat :: Checked(p, true, true) in r'.log && GaveUp(p, true, true) in r'.log)
  {
    hide Next, Inv, StepsDone, PhaseAt, Reachable;
    ReachableInv(r);
    ReachableEarned(r);
    var phase := StoredPhase(Next(r, e), uid, version);
    if phase == Some(Upgraded) || phase == Some(Failed) {
      if phase != StoredPhase(r, uid, version) {
        OutcomeWritten(r, e, uid, version, phase.value);
      }
      if phase == Some(Upgraded) {
        assert |OSD_STEPS| == STEP_COUNT;
        var p: nat :| StepsDone(r.log, p, |OSD_STEPS|);
        StepsStayDone(r.log, Next(r, e).log, p, |OSD_STEPS|);
      } else {
        var p: nat :| Checked(p, true, true) in r.log && GaveUp(p, true, true) in r.log;
        assert Checked(p, true, true) in Next(r, e).log && GaveUp(p, true, true) in Next(r, e).log;
      }
    }
  }

  // ---- When an undisturbed pass moves its entry on ------------------------------------------------------------------

  predicate StoredEntry(q: State, h: History) {
    q.store.Some? && HasEntry(q.store.value) && q.store.value.history[Cur(q.store.value)] == h
  }

  /** A write of the stored object's entry. */
  lemma EntryWritten(s: State, o: Obj, h: History, f: Fault)
    requires s.store == Some(o) && HasEntry(o) && h.version == o.spec.desired.version
    ensures StoredEntry(Write(s, o, With(o, h), f), if f.Lands() then h else o.history[Cur(o)])
    ensures Write(s, o, With(o, h), f).store.value.uid == o.uid
  {
    HistoryUnique(With(o, h), o.spec.desired.version, Cur(o));
  }

  /** The last write of an undisturbed pass: the entry is what the pass made of it exactly if the write takes effect. */
  lemma ClosingWrite(s: State, o: Obj, h: History, f: Fault)
    requires s.store == Some(o) && HasEntry(o) && s.work == Closing(o, With(o, h)) && h.version == o.spec.desired.version
    ensures var q := Next(s, Update(f));
            q.work.Idle? && StoredEntry(q, if f.Lands() then h else o.history[Cur(o)]) && q.store.value.uid == o.uid
  {
    hide FindHistory, Write, StoredEntry;
    EntryWritten(s, o, h, f);
    StoredEntrySame(Write(s, o, With(o, h), f), Next(s, Update(f)), if f.Lands() then h else o.history[Cur(o)]);
  }

  lemma StoredEntrySame(q: State, q': State, h: History)
    requires StoredEntry(q, h) && q'.store == q.store
    ensures StoredEntry(q', h) && q'.store.Some?
  {
  }

  /** A pass holds the stored object, and it has an entry. */
  predicate Holds(r: State) {
    Held(r.work).Some? && r.store == Held(r.work) && HasEntry(r.store.value)
  }

  /** A version without an entry gets one exactly if the ClusterVersion could be read, the spec names an update and the
      write takes effect; it starts as Upgrading exactly if the cluster is committed to it already. */
  lemma EntryIsAddedIff(r: State, cvOk: bool, preceding: string, f: Fault)
    requires r.work.Loaded? && r.store == Some(r.work.base) && !HasEntry(r.work.base)
    ensures var o, q := r.work.base, Next(Next(r, Inspect(cvOk, preceding)), Update(f));
            var d := o.spec.desired;
            && q.store.Some?
            && (HasEntry(q.store.value) <==> cvOk && CV.UpgradeSource(d).Some? && f.Lands())
            && (HasEntry(q.store.value) ==>
                  && q.store.value.history[1..] == o.history
                  && q.store.value.history[0] == if CV.Commenced(r.doc, d)
                       then History(d.version, preceding, Upgrading, [], Some(r.now), None, None, None)
                       else History(d.version, preceding, New, [], None, None, None, None))
  {
    hide CV.Commenced, CV.UpgradeSource;
    EntryAt(r.work.base);
  }

  /** A new entry becomes Pending exactly if the write takes effect. */
  lemma NewBecomesPending(r: State, valid: bool, available: bool, f: Fault)
    requires r.work.Deciding? && Holds(r) && InPhase(r.store.value, New)
    ensures var h := r.store.value.history[Cur(r.store.value)];
            StoredEntry(Next(Next(r, Decide(valid, available)), Update(f)), if f.Lands() then h.(phase := Pending) else h)
  {
    hide FindHistory, Next;
    var o := r.store.value;
    var h := o.history[Cur(o)].(phase := Pending);
    SetEntry(o, h);
    DecidedNew(r, valid, available);
    ClosingWrite(r.(work := Closing(o, With(o, h))), o, h, f);
  }

  lemma DecidedNew(r: State, valid: bool, available: bool)
    requires r.work.Deciding? && InPhase(r.work.base, New)
    ensures var b := r.work.base;
            Next(r, Decide(valid, available)) ==
            r.(work := Closing(b, SetHistory(b.history, b.history[Cur(b)].(phase := Pending))))
  {
    EntryAt(r.work.base);
  }

  /** A pending upgrade starts exactly if it is valid and available, its time has come, the provider asks for no change and
      the write takes effect; its start is then recorded as now. */
  lemma PendingStartsIff(r: State, valid: bool, available: bool, f: Fault)
    requires r.work.Deciding? && Holds(r) && InPhase(r.store.value, Pending)
    ensures var o := r.store.value;
            var h, at := o.history[Cur(o)], o.spec.upgradeAt;
            StoredEntry(Next(Next(Next(r, Decide(valid, available)), RefreshUnchanged), Update(f)),
                        if valid && available && at.Some? && r.now > at.value && f.Lands()
                        then h.(phase := Upgrading, start := Some(r.now)) else h)
  {
    hide FindHistory;
    var o := r.store.value;
    EntryAt(o);
    var h := o.history[Cur(o)];
    SetEntry(o, h.(phase := Upgrading, start := Some(r.now)));
    SetEntry(o, h.(phase := Pending));
    assert With(o, h) == o.history;
  }

  /** An upgrade that is to be given up: its ClusterVersion was read and shows no commitment, and its window has passed. */
  predicate GivenUp(r: State, cvOk: bool, window: nat)
    requires r.work.Checking?
  {
    && cvOk && CV.UpgradeSource(r.work.base.spec.desired).Some? && !CV.Commenced(r.doc, r.work.base.spec.desired)
    && window > 0 && Overdue(r.work.base, r.now, window)
  }

  lemma CheckGivesUp(r: State, cvOk: bool, window: nat)
    requires r.work.Checking? && Holds(r) && r.store.value.history[Cur(r.store.value)].start.Some?
    ensures var o, q := r.store.value, Next(r, Check(cvOk, window));
            && q.store == r.store && q.now == r.now && q.doc == r.doc && q.updates == r.updates
            && q.work == if GivenUp(r, cvOk, window) then Failing(o) else Stepping(o, o.history, 0)
  {
    hide CV.Commenced, CV.UpgradeSource, FindHistory;
    EntryAt(r.store.value);
  }

  /** An upgrade fails exactly if it is given up, neither scaling down nor notifying meets an error, and the write takes
      effect. */
  lemma UpgradingFailsIff(r: State, cvOk: bool, window: nat, scaledDown: bool, notified: bool, f: Fault)
    requires Reachable(r) && r.work.Checking? && Holds(r)
    ensures var o := r.store.value;
            var h := o.history[Cur(o)];
            h.phase.Upgrading? && h.start.Some?
            && StoredEntry(Next(Next(Next(r, Check(cvOk, window)), FailUpgrade(scaledDown, notified)), Update(f)),
                        if GivenUp(r, cvOk, window) && scaledDown && notified && f.Lands()
                        then h.(phase := Failed) else h)
  {
    hide FindHistory, Next, GivenUp, Reachable;
    CheckingStarted(r);
    var o := r.store.value;
    var h := o.history[Cur(o)];
    CheckGivesUp(r, cvOk, window);
    var q1 := Next(r, Check(cvOk, window));
    FailingCloses(q1, scaledDown, notified);
    var q2 := Next(q1, FailUpgrade(scaledDown, notified));
    if GivenUp(r, cvOk, window) {
      ClosingWrite(q2, o, if scaledDown && notified then h.(phase := Failed) else h, f);
    } else {
      UpdateIdles(q2, f);
    }
  }

  lemma CheckingStarted(r: State)
    requires Reachable(r) && r.work.Checking?
    ensures InPhase(r.work.base, Upgrading) && r.work.base.history[Cur(r.work.base)].start.Some?
  {
    hide StoreOk, PoolOk, LogSound, LogFits, LogKnown, AllLicensed;
    ReachableInv(r);
    assert EntryOk(r.work.base.history[Cur(r.work.base)], r.now);
  }

  lemma FailingCloses(q: State, scaledDown: bool, notified: bool)
    requires q.work.Failing? || q.work.Stepping?
    requires q.work.Failing? ==> InPhase(q.work.base, Upgrading)
    ensures var q', b := Next(q, FailUpgrade(scaledDown, notified)), q.work.base;
            && q'.store == q.store
            && (q.work.Stepping? ==> q' == q)
            && (q.work.Failing? ==>
                  q'.work == Closing(b, With(b, if scaledDown && notified then b.history[Cur(b)].(phase := Failed)
                                                else b.history[Cur(b)])))
  {
    EntryAt(q.work.base);
  }

  lemma UpdateIdles(q: State, f: Fault)
    requires q.work.Stepping?
    ensures Next(q, Update(f)) == q
  {
  }

  /** The event by which step `i` returns. */
  function StepEvent(outs: seq<Outcome>, commence: Event, i: nat): Event
    requires i < |outs| == STEP_COUNT && commence.Commence?
  {
    if OSD_STEPS[i] == "UpgradeCommenced" then commence else StepEnd(outs[i])
  }

  /** The events of a pass from step `i` on: each step begins and returns what it is given to return. */
  function StepEvents(outs: seq<Outcome>, commence: Event, i: nat): seq<Event>
    requires |outs| == STEP_COUNT && commence.Commence?
    decreases STEP_COUNT - i
  {
    if i >= STEP_COUNT then []
    else [StepBegin, StepEvent(outs, commence, i)] + StepEvents(outs, commence, i + 1)
  }

  /** Whether the step at work returns true at event `e`. */
  predicate ReturnsTrue(s: State, e: Event)
    requires Held(s.work).Some?
  {
    if e.Commence? then Commences(s.doc, s.updates, s.work.base.spec.desired, e) else e == StepEnd(Done)
  }

  /** Every step from `i` on returns true. */
  predicate AllReturnTrue(r: State, outs: seq<Outcome>, commence: Event, i: nat)
    requires |outs| == STEP_COUNT && commence.Commence? && Held(r.work).Some?
  {
    forall j: nat :: i <= j < |outs| ==> ReturnsTrue(r, StepEvent(outs, commence, j))
  }

  /** The pass goes on from step `i`, or is over with this phase to be written. */
  predicate GoesOn(q: State, i: nat) {
    q.work.Stepping? && q.work.i == i
  }

  predicate EndsWith(q: State, phase: Phase) {
    && q.work.Closing? && Touches(q.work.base, q.work.hist) && q.work.hist[Cur(q.work.base)].phase == phase
    && q.work.hist[Cur(q.work.base)].complete == if phase.Upgraded? then Some(q.now) else None
  }

  lemma FinishGoesOn(s: State, o: Outcome)
    requires Inv(s) && s.work.Running?
    ensures s.work.i < STEP_COUNT
    ensures var q := FinishStep(s, o);
            && q == s.(work := q.work, log := q.log) && Held(q.work) == Held(s.work)
            && (if !o.Done? then EndsWith(q, Upgrading)
                else if s.work.i + 1 < STEP_COUNT then GoesOn(q, s.work.i + 1)
                else EndsWith(q, Upgraded))
  {
    hide Inv, Ended, EntryOk, Evolves, Licensed, SetHistory, GetHistory;
    LocalEntry(s);
    var b, hist := s.work.base, s.work.hist;
    var h := hist[Cur(b)].(conditions := Ended(hist[Cur(b)].conditions, s.work.i, o, s.now));
    RetouchOk(s, b, hist, h.(phase := Upgrading));
    RetouchOk(s, b, hist, h.(phase := Upgraded, complete := Some(s.now)));
  }

  lemma BeginGoesOn(s: State)
    requires Inv(s) && s.work.Stepping?
    ensures var q := Next(s, StepBegin);
            && q == s.(work := q.work) && Held(q.work) == Held(s.work)
            && q.work.Running? && q.work.i == s.work.i < STEP_COUNT
  {
    hide Inv, Begun, ToWriteOk, SetHistory, GetHistory;
    LocalEntry(s);
  }

  /** One step of an undisturbed pass. */
  lemma StepGoesOn(s: State, e: Event)
    requires Inv(s) && s.work.Stepping? && (e.Commence? || e.StepEnd?) && (e.Commence? <==> s.work.i == COMMENCE)
    ensures var q := Next(Next(s, StepBegin), e);
            && Inv(q) && q.store == s.store && q.now == s.now && q.updates == s.updates && Held(q.work) == Held(s.work)
            && (!e.Commence? ==> q.doc == s.doc)
            && (if !ReturnsTrue(s, e) then EndsWith(q, Upgrading)
                else if s.work.i + 1 < STEP_COUNT then GoesOn(q, s.work.i + 1)
                else EndsWith(q, Upgraded))
  {
    hide Inv, FinishStep, OnStepBegin, Commencing, Commences, Patched, EndsWith;
    BeginGoesOn(s);
    NextKeepsInv(s, StepBegin);
    var s1 := Next(s, StepBegin);
    NextKeepsInv(s1, e);
    if e.Commence? {
      var d := s.work.base.spec.desired;
      var (doc, o) := Commencing(s.doc, s.updates, d, e.cvOk, e.notified, e.calls);
      CommencingDoneIff(s.doc, s.updates, d, e);
      CommencePatches(s1, d, e.cvOk, e.notified, e.calls);
      PatchKeepsInv(s1, s1.(doc := doc));
      FinishGoesOn(s1.(doc := doc), o);
    } else {
      FinishGoesOn(s1, e.o);
    }
  }

  /** A pass that is over takes no more steps. */
  lemma {:induction false} OverIsOver(q: State, outs: seq<Outcome>, commence: Event, i: nat)
    requires q.work.Closing? && |outs| == STEP_COUNT && commence.Commence?
    ensures After(q, StepEvents(outs, commence, i)) == q
    decreases STEP_COUNT - i
  {
    hide Next, OSD_STEPS;
    if i < STEP_COUNT {
      var e := StepEvent(outs, commence, i);
      OverTakesNone(q, e);
      TwoThenRest(q, StepBegin, e, StepEvents(outs, commence, i + 1));
      OverIsOver(q, outs, commence, i + 1);
    }
  }

  lemma OverTakesNone(q: State, e: Event)
    requires q.work.Closing? && (e.Commence? || e.StepEnd?)
    ensures Next(q, StepBegin) == q && Next(q, e) == q
  {
  }

  lemma TwoThenRest(s: State, a: Event, b: Event, rest: seq<Event>)
    ensures After(s, [a, b] + rest) == After(Next(Next(s, a), b), rest)
  {
    hide Next;
    AfterBoth(s, [a, b], rest);
    AfterOne(s, [a], b);
    AfterOne(s, [], a);
    assert [a] + [b] == [a, b] && [] + [a] == [a];
  }

  lemma {:induction false} StepsRun(s: State, outs: seq<Outcome>, commence: Event, i: nat)
    requires Inv(s) && GoesOn(s, i) && |outs| == STEP_COUNT && commence.Commence?
    ensures var q := After(s, StepEvents(outs, commence, i));
            && q.store == s.store && q.now == s.now && Held(q.work) == Held(s.work)
            && EndsWith(q, if AllReturnTrue(s, outs, commence, i) then Upgraded else Upgrading)
    decreases STEP_COUNT - i
  {
    hide Inv, Next, EndsWith, OSD_STEPS, AllReturnTrue, ReturnsTrue, ToWriteOk, EntryOk, GetHistory;
    LocalEntry(s);
    OneCommence(i);
    var e := StepEvent(outs, commence, i);
    StepGoesOn(s, e);
    var q := Next(Next(s, StepBegin), e);
    TwoThenRest(s, StepBegin, e, StepEvents(outs, commence, i + 1));
    ReturnsTrueNext(s, q, outs, commence, i, e);
    if ReturnsTrue(s, e) && i + 1 < STEP_COUNT {
      StepsRun(q, outs, commence, i + 1);
    } else {
      assert q.work.Closing? by { EndsClosing(q); }
      OverIsOver(q, outs, commence, i + 1);
    }
  }

  lemma EndsClosing(q: State)
    requires EndsWith(q, Upgraded) || EndsWith(q, Upgrading)
    ensures q.work.Closing?
  {
  }

  lemma ReturnsTrueNext(s: State, q: State, outs: seq<Outcome>, commence: Event, i: nat, e: Event)
    requires Held(s.work).Some? && Held(q.work) == Held(s.work) && |outs| == STEP_COUNT && commence.Commence?
    requires i < STEP_COUNT && e == StepEvent(outs, commence, i)
    requires !e.Commence? ==> q.doc == s.doc && q.updates == s.updates
    ensures AllReturnTrue(s, outs, commence, i) <==>
            ReturnsTrue(s, e) && (i + 1 < STEP_COUNT ==> AllReturnTrue(q, outs, commence, i + 1))
  {
    hide Commences, OSD_STEPS;
    forall j: nat | i < j < STEP_COUNT
      ensures ReturnsTrue(q, StepEvent(outs, commence, j)) == ReturnsTrue(s, StepEvent(outs, commence, j))
    {
      OneCommence(i);
      OneCommence(j);
    }
  }

  /** A pass that found its copy upgrading, and that nobody disturbs, completes the upgrade exactly if it is not given up,
      every step returns true and the write takes effect; it then records the completion as now. Otherwise the entry
      stays Upgrading. */
  lemma UpgradingCompletesIff(
    r: State, cvOk: bool, window: nat, outs: seq<Outcome>, commence: Event, f: Fault)
    requires Reachable(r) && r.work.Checking? && Holds(r) && |outs| == STEP_COUNT && commence.Commence?
    requires !GivenUp(r, cvOk, window)
    ensures var q := Next(After(Next(r, Check(cvOk, window)), StepEvents(outs, commence, 0)), Update(f));
            var done := AllReturnTrue(r, outs, commence, 0) && f.Lands();
            && q.work.Idle? && q.store.Some? && q.store.value.uid == r.store.value.uid
            && InPhase(q.store.value, if done then Upgraded else Upgrading)
            && (done ==> q.store.value.history[Cur(q.store.value)].complete == Some(r.now))
  {
    hide Inv, Next, After, GivenUp, Reachable, AllReturnTrue, OSD_STEPS, EndsWith, FindHistory;
    ReachableInv(r);
    CheckingStarted(r);
    CheckGivesUp(r, cvOk, window);
    var r1 := Next(r, Check(cvOk, window));
    NextKeepsInv(r, Check(cvOk, window));
    StepsRun(r1, outs, commence, 0);
    var q1 := After(r1, StepEvents(outs, commence, 0));
    SameReturns(r, r1, outs, commence);
    EndIsWritten(q1, r.store.value, if AllReturnTrue(r, outs, commence, 0) then Upgraded else Upgrading, f);
  }

  lemma SameReturns(r: State, r1: State, outs: seq<Outcome>, commence: Event)
    requires |outs| == STEP_COUNT && commence.Commence? && Held(r.work).Some?
    requires r1.doc == r.doc && r1.updates == r.updates && Held(r1.work) == Held(r.work)
    ensures AllReturnTrue(r1, outs, commence, 0) == AllReturnTrue(r, outs, commence, 0)
  {
    hide Commences, OSD_STEPS;
  }

  lemma EndIsWritten(q: State, o: Obj, phase: Phase, f: Fault)
    requires EndsWith(q, phase) && q.store == Some(o) == Held(q.work) && InPhase(o, Upgrading)
    ensures var q' := Next(q, Update(f));
            && q'.work.Idle? && q'.store.Some? && q'.store.value.uid == o.uid
            && InPhase(q'.store.value, if f.Lands() then phase else Upgrading)
            && (f.Lands() && phase.Upgraded? ==>
                  q'.store.value.history[Cur(q'.store.value)].complete == Some(q.now))
  {
    hide FindHistory;
    ClosingWrite(q, o, q.work.hist[Cur(o)], f);
  }

  /** An undisturbed pass of the pool controller: while the entry is upgrading, the workers' start is recorded once no
      machine is updated yet, and their completion once all machines are and a start is known; each only once,
      and nothing else of the entry changes. */
  lemma WorkerTimesIff(r: State, machines: nat, updated: nat, f: Fault)
    requires r.pool.PoolIdle? && r.store.Some? && HasEntry(r.store.value)
    ensures var o := r.store.value;
            var h := o.history[Cur(o)];
            var q := Next(Next(Next(r, PoolGet(machines, updated)), PoolStamp), PoolUpdate(f));
            var writes := h.phase.Upgrading? && f.Lands();
            && q.pool.PoolIdle? && q.store.Some? && HasEntry(q.store.value)
            && var h' := q.store.value.history[Cur(q.store.value)];
               && h' == h.(workerStart := h'.workerStart, workerComplete := h'.workerComplete)
               && h'.workerStart == (if h.workerStart.None? && writes && updated == 0 then Some(r.now) else h.workerStart)
               && h'.workerComplete == (if h.workerComplete.None? && writes && machines == updated && h'.workerStart.Some?
                                        then Some(r.now) else h.workerComplete)
  {
    hide FindHistory, Write;
    var o := r.store.value;
    EntryAt(o);
    var h := Stamp(o.history[Cur(o)], machines, updated, r.now);
    SetEntry(o, h);
    EntryWritten(r.(pool := PoolWriting(o, With(o, h))), o, h, f);
  }
}

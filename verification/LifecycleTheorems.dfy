/** Safety of the lifecycle over whole runs: every series of events, every interleaving of the
    reconciler, the pool controller, the config manager and whoever edits or deletes the object, every
    failed or half-failed call. */
module LifecycleTheorems {
  import opened Kube
  import opened UpgradeStatus
  import opened Lifecycle
  import opened LifecycleInvariant
  import opened LifecycleSteps
  import CV = ClusterVersion

  // ---- The stored history --------------------------------------------------------------------------------

  /** In every reachable state the stored history holds one entry per version, however often the spec was
      edited, the timestamps of each are set as its phase demands and in order, and no pass has
      dereferenced a missing entry or time. */
  lemma StoredHistoryIsSound(r: State)
    requires Reachable(r)
    ensures !r.work.Crashed?
    ensures r.store.Some? ==>
              && UniqueVersions(r.store.value.history)
              && forall i :: 0 <= i < |r.store.value.history| ==> EntryOk(r.store.value.history[i], r.now)
  {
    hide EntryOk;
    ReachableInv(r);
  }

  /** How the stored object may differ after a transition, if it is still the same object. */
  predicate Evolved(o: Obj, o': Obj) {
    Follows(o, o') && HistEvolves(o.history, o'.history, o.terminating)
  }

  predicate StoreEvolves(s: State, s': State) {
    && s.nextUid <= s'.nextUid
    && (s'.store.Some? && s'.store.value.uid < s.nextUid ==>
          SameObject(s.store, s'.store.value) && Evolved(s.store.value, s'.store.value))
  }

  lemma SameHistEvolves(hist: seq<History>, terminating: bool)
    ensures HistEvolves(hist, hist, terminating)
  {
  }

  lemma SoftenEvolves(hist: seq<History>, hist': seq<History>, terminating: bool)
    requires HistEvolves(hist, hist', false)
    ensures HistEvolves(hist, hist', terminating)
  {
  }

  lemma WriteEvolves(s: State, b: Obj, hist: seq<History>, f: Fault)
    requires BaseOk(s, b) && StoreOk(s) && (Matches(s.store, b) ==> HistEvolves(b.history, hist, b.terminating))
    ensures StoreEvolves(s, Write(s, b, hist, f))
  {
    hide HistOk, AllLicensed, LogFits, HistEvolves;
    if s.store.Some? {
      SameHistEvolves(s.store.value.history, s.store.value.terminating);
    }
  }

  lemma ToWriteEvolves(s: State)
    requires Inv(s) && Held(s.work).Some? && Matches(s.store, s.work.base)
    requires s.work.Creating? || s.work.Opening? || s.work.Closing?
    ensures HistEvolves(s.work.base.history, s.work.hist, s.work.base.terminating)
  {
    hide StoreOk, PoolOk, Licensed, LogFits, AllLicensed;
    var b, hist := s.work.base, s.work.hist;
    if s.work.Creating? {
      forall i | 0 <= i < |b.history| ensures hist[i + 1] == b.history[i] {
      }
    } else {
      if s.work.Closing? && hist[Cur(b)].phase.New? {
        ResetIsWritable(s, b, hist);
      }
      TouchedEvolves(b, hist);
    }
  }

  lemma EnteredStore(s: State, b: Obj, hist: seq<History>, f: Fault)
    ensures var s', s'' := Write(s, b, hist, f), Entered(s, b, hist, f);
            s'' == s'.(log := s''.log)
  {
  }

  lemma UpdateEvolves(s: State, f: Fault)
    requires Inv(s)
    ensures StoreEvolves(s, OnUpdate(s, f))
  {
    hide StoreOk, PoolOk, WorkFacts, HistOk, LogFits, AllLicensed, SamePhases, HistEvolves, Write, Accepts, Entered;
    if s.work.Creating? || s.work.Opening? || s.work.Closing? {
      if Matches(s.store, s.work.base) {
        ToWriteEvolves(s);
      }
      WriteEvolves(s, s.work.base, s.work.hist, f);
      EnteredStore(s, s.work.base, s.work.hist, f);
    } else {
      QuietEvolves(s, OnUpdate(s, f));
    }
  }

  lemma QuietEvolves(s: State, s': State)
    requires s'.nextUid == s.nextUid && s'.store == s.store
    ensures StoreEvolves(s, s')
  {
    if s.store.Some? {
      SameHistEvolves(s.store.value.history, s.store.value.terminating);
    }
  }

  /** The pool controller never changes a phase. */
  lemma PoolUpdateEvolves(s: State, f: Fault)
    requires Inv(s)
    ensures StoreEvolves(s, OnPoolUpdate(s, f)) && PhasesKept(s, OnPoolUpdate(s, f))
  {
    hide StoreOk, WorkOk, HistOk, HistEvolves, LogSound;
    if s.pool.PoolWriting? {
      SoftenEvolves(s.pool.base.history, s.pool.hist, s.pool.base.terminating);
    }
    if s.store.Some? {
      SameHistEvolves(s.store.value.history, s.store.value.terminating);
    }
  }

  /** Events after which the store is what it was. */
  predicate LeavesStore(e: Event) {
    || e.Tick? || e.CvoPublishes? || e.PoolGet? || e.PoolStamp? || e.PoolError? || e.Get? || e.Inspect? || e.Decide?
    || e.RefreshUnchanged? || e.Check? || e.FailUpgrade? || e.StepBegin? || e.StepEnd? || e.Commence? || e.Abort?
  }

  lemma StoreIsLeft(s: State, e: Event)
    requires LeavesStore(e)
    ensures Next(s, e).store == s.store && Next(s, e).nextUid == s.nextUid && Next(s, e).nextRv == s.nextRv
  {
    hide SetHistory, Begun, Ended, Commencing, GetHistory;
  }

  lemma OthersEvolve(s: State, e: Event)
    requires StoreOk(s) && !e.Update? && !e.PoolUpdate?
    ensures StoreEvolves(s, Next(s, e))
    ensures Next(s, e).store.Some? && SameObject(s.store, Next(s, e).store.value) ==>
              Next(s, e).store.value.history == s.store.value.history
  {
    hide HistOk, AllLicensed, LogFits, HistEvolves, SetHistory;
    if s.store.Some? {
      SameHistEvolves(s.store.value.history, s.store.value.terminating);
    }
    if LeavesStore(e) {
      StoreIsLeft(s, e);
    } else {
      MoversEvolve(s, e);
    }
  }

  lemma MoversEvolve(s: State, e: Event)
    requires s.store.Some? ==> s.store.value.uid < s.nextUid
    requires e.Delete? || e.Create? || e.Edit? || e.Touch? || e.Mark? || e.RefreshChanged?
    ensures var s' := Next(s, e);
            && s.nextUid <= s'.nextUid
            && (s'.store.Some? && s'.store.value.uid < s.nextUid ==> SameObject(s.store, s'.store.value))
            && (s'.store.Some? && SameObject(s.store, s'.store.value) ==>
                  Follows(s.store.value, s'.store.value) && s'.store.value.history == s.store.value.history)
  {
    hide SetHistory, GetHistory;
  }

  /** One transition on one object, by whoever takes it: no entry disappears, every entry moves along an edge of
      the phase graph, going back to New only while the object is being deleted, every timestamp is written
      at most once, and the spec changes only by an edit. */
  lemma StepEvolves(s: State, e: Event)
    requires Inv(s)
    ensures StoreEvolves(s, Next(s, e))
  {
    hide Inv, OnUpdate, OnPoolUpdate, StoreEvolves;
    if e.Update? {
      UpdateEvolves(s, e.f);
    } else if e.PoolUpdate? {
      PoolUpdateEvolves(s, e.f);
    } else {
      StoreFacts(s);
      OthersEvolve(s, e);
    }
  }

  lemma StoreFacts(s: State)
    requires Inv(s)
    ensures StoreOk(s)
  {
  }

  // ---- Going back to New ---------------------------------------------------------------------------------------

  /** The pass is about to send its entry back to New, as it does when the provider reports a change. */
  predicate Resetting(s: State) {
    s.work.Closing? && Touches(s.work.base, s.work.hist) && s.work.hist[Cur(s.work.base)].phase.New?
  }

  /** The reset takes effect exactly when its write gets through and the object is still the version the pass
      read; and that it is only if its deletion had been requested before the pass read it. */
  lemma ResetLandsIff(r: State, f: Fault)
    requires Reachable(r) && Resetting(r)
    ensures Next(r, Update(f)).store != r.store <==> f.Lands() && Matches(r.store, r.work.base)
    ensures Matches(r.store, r.work.base) ==> r.store == Some(r.work.base) && r.work.base.terminating
    ensures Next(r, Update(f)).store != r.store ==>
              InPhase(r.store.value, Pending) && InPhase(Next(r, Update(f)).store.value, New)
  {
    hide PoolOk, StoreOk, LogFits, AllLicensed, HistOk, SamePhases;
    ReachableInv(r);
    var b, hist := r.work.base, r.work.hist;
    assert hist != b.history;
    HistoryUnique(hist, b.spec.desired.version, Cur(b));
  }

  /** Seen from the refresh: with nobody else acting, the reset lands exactly when the refresh requested the
      deletion of an object that was the pass's own version and terminating already. */
  lemma ResetLandsIffTerminating(r: State, c: Change, f: Fault)
    requires Reachable(r) && r.work.Accepted?
    ensures var s := Next(r, RefreshChanged(c));
            Next(s, Update(f)).store != s.store <==>
            f.Lands() && c.Marked? && r.work.base.terminating && Matches(r.store, r.work.base)
  {
    hide PoolOk, StoreOk, LogFits, AllLicensed, HistOk, SamePhases, ApprovedBefore, FindHistory, Reachable, CV.Commenced;
    ReachableInv(r);
    var b := r.work.base;
    var h := b.history[Cur(b)].(phase := New);
    SetEntry(b, h);
    assert With(b, h) != b.history;
  }

  // ---- Whole runs -------------------------------------------------------------------------------------------------

  function Rank(p: Phase): nat {
    match p
    case New => 0
    case Pending => 1
    case Upgrading => 2
    case Upgraded => 3
    case Failed => 3
  }

  /** Phases only move forward, and the two final ones are never left; a pending entry of an object that is being
      deleted may be found New again. */
  predicate Forward(p: Phase, q: Phase, terminating: bool) {
    p == q || Rank(p) < Rank(q) || (terminating && p.Pending? && q.New?)
  }

  predicate LaterEntry(h: History, h': History, terminating: bool) {
    && h.version == h'.version && Forward(h.phase, h'.phase, terminating)
    && Kept(h.start, h'.start) && Kept(h.complete, h'.complete)
    && Kept(h.workerStart, h'.workerStart) && Kept(h.workerComplete, h'.workerComplete)
  }

  predicate LaterObj(o: Obj, o': Obj) {
    && Follows(o, o') && |o.history| <= |o'.history|
    && forall i :: 0 <= i < |o.history| ==>
         LaterEntry(o.history[i], o'.history[i + |o'.history| - |o.history|], o'.terminating)
  }

  lemma LaterItself(o: Obj)
    ensures LaterObj(o, o)
  {
  }

  lemma LaterStill(h: History, h': History, h'': History, t: bool, t': bool)
    requires LaterEntry(h, h', t) && Evolves(h', h'', t) && (t ==> t')
    ensures LaterEntry(h, h'', t')
  {
  }

  lemma StepIsLater(a: Obj, b: Obj, c: Obj)
    requires LaterObj(a, b) && Evolved(b, c)
    ensures LaterObj(a, c)
  {
    hide LaterEntry, Evolves;
    forall i | 0 <= i < |a.history|
      ensures LaterEntry(a.history[i], c.history[i + |c.history| - |a.history|], c.terminating)
    {
      var j := i + |b.history| - |a.history|;
      var k := j + |c.history| - |b.history|;
      assert k == i + |c.history| - |a.history|;
      LaterStill(a.history[i], b.history[j], c.history[k], b.terminating, c.terminating);
    }
  }

  lemma {:induction false} RunEvolves(s: State, more: seq<Event>)
    requires Inv(s)
    ensures s.nextUid <= After(s, more).nextUid
    ensures s.store.Some? && SameObject(After(s, more).store, s.store.value) ==>
              LaterObj(s.store.value, After(s, more).store.value)
  {
    hide Next, LaterObj, Evolved, WorkOk, PoolOk, HistOk, AllLicensed, LogFits, LogSound;
    if more == [] {
      if s.store.Some? {
        LaterItself(s.store.value);
      }
    } else {
      var most, e := more[..|more| - 1], more[|more| - 1];
      RunKeepsInv(s, most);
      RunEvolves(s, most);
      var m := After(s, most);
      StepEvolves(m, e);
      if s.store.Some? && SameObject(After(s, more).store, s.store.value) {
        assert SameObject(m.store, s.store.value);
        StepIsLater(s.store.value, m.store.value, After(s, more).store.value);
      }
    }
  }

  /** Between any two moments of a run, an object that is still stored has only moved forward: every version that
      had an entry still has one, its phase never goes back (save to New while the object is being deleted),
      Upgraded and Failed are final, and every timestamp once written keeps its value. */
  lemma HistoryOnlyMovesForward(r: State, more: seq<Event>, version: string)
    requires Reachable(r) && r.store.Some? && SameObject(After(r, more).store, r.store.value)
    ensures LaterObj(r.store.value, After(r, more).store.value)
    ensures var o, o' := r.store.value, After(r, more).store.value;
            GetHistory(o.history, version).Some? ==>
              && GetHistory(o'.history, version).Some?
              && LaterEntry(GetHistory(o.history, version).value, GetHistory(o'.history, version).value, o'.terminating)
  {
    hide After, LaterEntry, HistOk, Inv;
    ReachableInv(r);
    RunKeepsInv(r, more);
    RunEvolves(r, more);
    StoredUnique(After(r, more));
    FoundLater(r.store.value, After(r, more).store.value, version);
  }

  lemma StoredUnique(s: State)
    requires Inv(s)
    ensures s.store.Some? ==> UniqueVersions(s.store.value.history)
  {
  }

  lemma FoundLater(o: Obj, o': Obj, version: string)
    requires LaterObj(o, o') && UniqueVersions(o'.history)
    ensures GetHistory(o.history, version).Some? ==>
              && GetHistory(o'.history, version).Some?
              && LaterEntry(GetHistory(o.history, version).value, GetHistory(o'.history, version).value, o'.terminating)
  {
    var i := FindHistory(o.history, version);
    if i < |o.history| {
      var j := i + |o'.history| - |o.history|;
      assert LaterEntry(o.history[i], o'.history[j], o'.terminating);
      HistoryUnique(o'.history, version, j);
    }
  }

  // ---- The commitment --------------------------------------------------------------------------------------

  lemma OnlyCommenceCommits(s: State, e: Event)
    ensures Next(s, e).doc != s.doc ==> e.Commence? && s.work.Running? && s.work.i == COMMENCE
  {
    hide SetHistory, Begun, Ended, GetHistory, Commencing, After;
  }

  lemma CommenceDoc(s: State, e: Event)
    requires e.Commence? && s.work.Running? && s.work.i == COMMENCE
    ensures Next(s, e).doc == Commencing(s.doc, s.updates, s.work.base.spec.desired, e.cvOk, e.notified, e.calls).0
  {
    hide SetHistory, Ended, GetHistory, Commencing;
  }

  /** An approval of the same version, in this edition of the object or an earlier one. */
  ghost predicate ApprovedFor(log: seq<Entry>, b: Obj, spec: Spec, edits: nat) {
    && Cleared(log, b.uid, spec, edits) && spec.desired.version == b.spec.desired.version
    && edits <= b.edits && (edits == b.edits ==> spec == b.spec)
  }

  ghost predicate SomeApproval(log: seq<Entry>, b: Obj) {
    exists spec, edits :: ApprovedFor(log, b, spec, edits)
  }

  /** The version was entered as upgrading before the object was last edited. */
  predicate AdoptedFor(log: seq<Entry>, b: Obj) {
    exists k :: 0 <= k < |log| && log[k].Adopted? && log[k].uid == b.uid
                && log[k].version == b.spec.desired.version && log[k].edits < b.edits
  }

  lemma ApprovalFits(s: State, b: Obj, spec: Spec, edits: nat)
    requires LogFits(s, b) && Cleared(s.log, b.uid, spec, edits) && spec.desired.version == b.spec.desired.version
    ensures ApprovedFor(s.log, b, spec, edits)
  {
    var k: nat :| ClearedAt(s.log, k, b.uid, spec, edits);
    var i :| 0 <= i < k && i < |s.log| && s.log[i].Approved? && s.log[i].pass == s.log[k].pass && s.log[i].uid == b.uid
             && s.log[i].spec == spec && s.log[i].edits == edits && Due(spec, s.log[i].at);
    assert EntryFits(s.log[i], s.doc, b);
  }

  /** An approved version was not adopted. */
  lemma ApprovedNotAdopted(s: State, b: Obj, spec: Spec, edits: nat)
    requires Exclusive(s.log) && ApprovedFor(s.log, b, spec, edits)
    ensures !AdoptedVersion(s.log, b.uid, b.spec.desired.version)
  {
    var k: nat :| ClearedAt(s.log, k, b.uid, spec, edits);
    var i :| 0 <= i < k && i < |s.log| && s.log[i].Approved? && s.log[i].pass == s.log[k].pass && s.log[i].uid == b.uid
             && s.log[i].spec == spec && s.log[i].edits == edits && Due(spec, s.log[i].at);
  }

  /** A licensed version was approved exactly if it was not adopted; and a request the cluster is not committed to
      was adopted before an edit. */
  lemma LicenseFits(s: State, b: Obj)
    requires LogFits(s, b) && Exclusive(s.log) && Licensed(s.log, b.uid, b.spec.desired.version)
    requires !CV.Commenced(s.doc, b.spec.desired)
    ensures SomeApproval(s.log, b) <==> !AdoptedVersion(s.log, b.uid, b.spec.desired.version)
    ensures AdoptedVersion(s.log, b.uid, b.spec.desired.version) ==> AdoptedFor(s.log, b)
  {
    hide Cleared, Exclusive;
    if ClearedVersion(s.log, b.uid, b.spec.desired.version) {
      var spec, edits :| Cleared(s.log, b.uid, spec, edits) && spec.desired.version == b.spec.desired.version;
      ApprovalFits(s, b, spec, edits);
    }
    if SomeApproval(s.log, b) {
      var spec, edits :| ApprovedFor(s.log, b, spec, edits);
      ApprovedNotAdopted(s, b, spec, edits);
    }
    if AdoptedVersion(s.log, b.uid, b.spec.desired.version) {
      var k :| 0 <= k < |s.log| && s.log[k].Adopted? && s.log[k].uid == b.uid && s.log[k].version == b.spec.desired.version;
      assert EntryFits(s.log[k], s.doc, b);
    }
  }

  /** There are steps of this name, and each returned true in this pass. */
  predicate NamedDone(log: seq<Entry>, pass: nat, name: string) {
    && name in OSD_STEPS
    && forall j: nat :: j < |OSD_STEPS| && OSD_STEPS[j] == name ==> StepDone(pass, j) in log
  }

  /** What the OSD policy wants done before the cluster is committed. */
  predicate Prepared(log: seq<Entry>, pass: nat) {
    && NamedDone(log, pass, "StartedNotificationSent")
    && NamedDone(log, pass, "IsClusterUpgradable")
    && NamedDone(log, pass, "ClusterHealthyBeforeUpgrade")
    && NamedDone(log, pass, "ExternalDependenciesAvailable")
    && NamedDone(log, pass, "ComputeCapacityReserved")
    && NamedDone(log, pass, "ControlPlaneMaintenanceWindowCreated")
  }

  /** There are steps of this name, and all of them are among the first `n`. */
  predicate NamedBefore(n: nat, name: string) {
    name in OSD_STEPS && forall j: nat :: n <= j < |OSD_STEPS| ==> OSD_STEPS[j] != name
  }

  lemma CommenceIsNamed()
    ensures COMMENCE < |OSD_STEPS| && OSD_STEPS[COMMENCE] == "UpgradeCommenced"
  {
  }

  lemma ChecksComeFirst()
    ensures NamedBefore(COMMENCE, "StartedNotificationSent")
    ensures NamedBefore(COMMENCE, "IsClusterUpgradable")
    ensures NamedBefore(COMMENCE, "ClusterHealthyBeforeUpgrade")
  {
    assert OSD_STEPS[0] == "StartedNotificationSent";
    assert OSD_STEPS[2] == "IsClusterUpgradable";
    assert OSD_STEPS[3] == "ClusterHealthyBeforeUpgrade";
  }

  lemma ReservationsComeFirst()
    ensures NamedBefore(COMMENCE, "ExternalDependenciesAvailable")
    ensures NamedBefore(COMMENCE, "ComputeCapacityReserved")
    ensures NamedBefore(COMMENCE, "ControlPlaneMaintenanceWindowCreated")
  {
    assert OSD_STEPS[4] == "ExternalDependenciesAvailable";
    assert OSD_STEPS[5] == "ComputeCapacityReserved";
    assert OSD_STEPS[6] == "ControlPlaneMaintenanceWindowCreated";
  }

  lemma DoneByName(log: seq<Entry>, pass: nat, n: nat, name: string)
    requires StepsDone(log, pass, n) && NamedBefore(n, name)
    ensures NamedDone(log, pass, name)
  {
    hide OSD_STEPS;
  }

  lemma StepsPrepare(log: seq<Entry>, pass: nat)
    requires StepsDone(log, pass, COMMENCE)
    ensures Prepared(log, pass)
  {
    hide StepsDone, NamedDone, NamedBefore, OSD_STEPS;
    ChecksComeFirst();
    ReservationsComeFirst();
    DoneByName(log, pass, COMMENCE, "StartedNotificationSent");
    DoneByName(log, pass, COMMENCE, "IsClusterUpgradable");
    DoneByName(log, pass, COMMENCE, "ClusterHealthyBeforeUpgrade");
    DoneByName(log, pass, COMMENCE, "ExternalDependenciesAvailable");
    DoneByName(log, pass, COMMENCE, "ComputeCapacityReserved");
    DoneByName(log, pass, COMMENCE, "ControlPlaneMaintenanceWindowCreated");
  }

  /** Every change of desiredUpdate, in every run: it is made by a pass over a copy of the object. Some pass of this
      object found the copy's version valid, available and past its upgrade time, after which the provider reported
      no change, exactly if the version's entry was not adopted from an existing commitment; the approval was of
      that very spec unless the object was edited since, and an adopted version is committed only after an
      edit. The step at work is the one that commences the upgrade, and the steps that notify of the start, check the
      cluster's health and its dependencies, reserve capacity and open the control plane's maintenance window
      all returned true in this very pass; the pass had looked at the
      failure window and either could not read the ClusterVersion there or found the window still open; and
      what it commits is its copy's request. */
  lemma CommitIsAuthorized(r: State, e: Event)
    requires Reachable(r)
    requires CV.DesiredUpdate(Next(r, e).doc) != CV.DesiredUpdate(r.doc)
    ensures e.Commence? && r.work.Running? && r.work.i == COMMENCE
    ensures r.work.i < |OSD_STEPS| && OSD_STEPS[r.work.i] == "UpgradeCommenced" && Prepared(r.log, r.pass)
    ensures SomeApproval(r.log, r.work.base) <==>
            !AdoptedVersion(r.log, r.work.base.uid, r.work.base.spec.desired.version)
    ensures !SomeApproval(r.log, r.work.base) ==> AdoptedFor(r.log, r.work.base)
    ensures r.work.base.edits == 0 ==> Cleared(r.log, r.work.base.uid, r.work.base.spec, 0)
    ensures StepsDone(r.log, r.pass, COMMENCE)
    ensures exists k :: 0 <= k < |r.log| && r.log[k].Checked? && r.log[k].pass == r.pass
                        && (!r.log[k].readOk || !r.log[k].late)
    ensures var d := r.work.base.spec.desired;
            && !CV.Commenced(r.doc, d) && CV.Commenced(Next(r, e).doc, d)
            && CV.IsRequest(CV.DesiredUpdate(Next(r, e).doc), CV.OffersSeen(r.doc, r.updates, d, e.calls), d)
  {
    hide Inv, Cleared, StepsDone, Next, OSD_STEPS, Prepared;
    ReachableInv(r);
    CommitIsRequest(r, e);
    CommitFacts(r);
    CommenceIsNamed();
    StepsPrepare(r.log, r.pass);
    LicenseFits(r, r.work.base);
    if r.work.base.edits == 0 {
      var spec, edits :| ApprovedFor(r.log, r.work.base, spec, edits);
    }
  }

  lemma CommitIsRequest(r: State, e: Event)
    requires CV.DesiredUpdate(Next(r, e).doc) != CV.DesiredUpdate(r.doc)
    ensures e.Commence? && r.work.Running? && r.work.i == COMMENCE
    ensures var d := r.work.base.spec.desired;
            && !CV.Commenced(r.doc, d) && CV.Commenced(Next(r, e).doc, d)
            && CV.IsRequest(CV.DesiredUpdate(Next(r, e).doc), CV.OffersSeen(r.doc, r.updates, d, e.calls), d)
  {
    hide Next;
    OnlyCommenceCommits(r, e);
    CV.EnsureDesiredHonours(r.doc, r.updates, r.work.base.spec.desired, e.calls);
    CommenceDoc(r, e);
  }

  lemma CommitFacts(s: State)
    requires Inv(s) && s.work.Running?
    ensures InPhase(s.work.base, Upgrading) && LogFits(s, s.work.base) && Exclusive(s.log)
    ensures Licensed(s.log, s.work.base.uid, s.work.base.spec.desired.version)
    ensures StepsDone(s.log, s.pass, s.work.i) && WindowPassed(s, s.work.base)
  {
    hide StoreOk, PoolOk, Licensed, LogFits, LogKnown, Exclusive, HistOk, StepsDone, WindowPassed, EntryOk, Evolves;
  }

  /** What a request asks desiredUpdate to be. */
  predicate Requested(u: Option<CV.Release>, d: CV.Desired) {
    if d.image != "" then u == Some(CV.Release("", d.image))
    else d.version != "" && u.Some? && u.value.version == d.version
  }

  /** An approval of the copy's version whose request is what was committed. */
  ghost predicate ApprovedCommit(log: seq<Entry>, b: Obj, u: Option<CV.Release>) {
    exists spec, edits :: ApprovedFor(log, b, spec, edits) && Requested(u, spec.desired)
  }

  /** An approval of the copy's version with the copy's image. */
  ghost predicate ApprovedImage(log: seq<Entry>, b: Obj) {
    exists spec, edits :: ApprovedFor(log, b, spec, edits) && spec.desired.image == b.spec.desired.image
  }

  /** What is committed was approved exactly if the version was approved with the image the copy has: an image edited
      in after the approval is committed without validation, time check or refresh, and so is anything edited
      into a version that was adopted, which has no approval at all. Without an edit since, an approval is of
      what is committed. */
  lemma CommitIsApprovedIff(r: State, e: Event)
    requires Reachable(r)
    requires CV.DesiredUpdate(Next(r, e).doc) != CV.DesiredUpdate(r.doc)
    ensures r.work.Running?
    ensures ApprovedCommit(r.log, r.work.base, CV.DesiredUpdate(Next(r, e).doc)) <==> ApprovedImage(r.log, r.work.base)
    ensures AdoptedVersion(r.log, r.work.base.uid, r.work.base.spec.desired.version) ==>
              !ApprovedCommit(r.log, r.work.base, CV.DesiredUpdate(Next(r, e).doc))
    ensures forall spec, edits :: ApprovedFor(r.log, r.work.base, spec, edits) ==>
              && (Requested(CV.DesiredUpdate(Next(r, e).doc), spec.desired)
                  <==> spec.desired.image == r.work.base.spec.desired.image)
              && (edits == r.work.base.edits ==> Requested(CV.DesiredUpdate(Next(r, e).doc), spec.desired))
  {
    hide Next, Cleared;
    CommitIsAuthorized(r, e);
    SourceOfCommit(r, e);
  }

  lemma SourceOfCommit(r: State, e: Event)
    requires e.Commence? && r.work.Running? && r.work.i == COMMENCE
    requires CV.DesiredUpdate(Next(r, e).doc) != CV.DesiredUpdate(r.doc)
    ensures CV.UpgradeSource(r.work.base.spec.desired).Some?
  {
    hide Next;
    CommenceDoc(r, e);
  }
}

/** Runs that reach the states the lifecycle's exceptions are about. */
module LifecycleRuns {
  import opened Kube
  import opened UpgradeStatus
  import opened Lifecycle
  import opened LifecycleInvariant
  import opened LifecycleSteps
  import opened LifecycleTheorems
  import opened LifecycleCommitment
  import opened LifecycleWindow
  import CV = ClusterVersion
  import J = Json

  lemma ReachableNext(r: State, e: Event)
    requires Reachable(r)
    ensures Reachable(Next(r, e))
  {
    hide Next;
    ReachableAfter(r, [e]);
    AfterOne(r, [], e);
    assert [] + [e] == [e];
  }

  /** The same object is still stored, and the cluster's commitment is what it was. */
  ghost predicate Carries(r: State, q: State) {
    && r.store.Some? && q.store.Some? && q.doc == r.doc && q.now == r.now
    && var o, o' := r.store.value, q.store.value;
       && o'.uid == o.uid && o'.spec == o.spec && o'.edits == o.edits && o'.terminating == o.terminating
       && OthersKept(o.history, o'.history, o.spec.desired.version)
  }

  /** Every other version's entry is what it was. */
  ghost predicate OthersKept(hist: seq<History>, hist': seq<History>, version: string) {
    forall v :: v != version ==> GetHistory(hist', v) == GetHistory(hist, v)
  }

  predicate ApprovalsOf(log: seq<Entry>, spec: Spec) {
    forall k :: 0 <= k < |log| && log[k].Approved? ==> log[k].spec == spec
  }

  /** Nobody is at work, and the stored object can be upgraded and has no entry yet. */
  predicate Ready(r: State) {
    && r.work.Idle? && r.store.Some? && !HasEntry(r.store.value)
    && CV.UpgradeSource(r.store.value.spec.desired).Some? && !CV.Commenced(r.doc, r.store.value.spec.desired)
  }

  /** A write of the stored object's current entry that gets through. */
  lemma Landed(s: State, o: Obj, h: History, f: Fault)
    requires s.store == Some(o) && HasEntry(o) && f.Lands()
    requires h.version == o.spec.desired.version && h != o.history[Cur(o)]
    ensures var o' := o.(rv := s.nextRv, history := With(o, h));
            && Write(s, o, With(o, h), f) == s.(store := Some(o'), nextRv := s.nextRv + 1)
            && HasEntry(o') && o'.history[Cur(o')] == h
            && OthersKept(o.history, o'.history, h.version)
    ensures Accepts(s, o, f) <==> f.Succeeds()
  {
    assert With(o, h)[Cur(o)] != o.history[Cur(o)];
    HistoryUnique(With(o, h), o.spec.desired.version, Cur(o));
    SetHistoryIsKeyed(o.history, h);
  }

  /** The last write of a pass gets through. */
  lemma LastWrite(r: State, o: Obj, h: History) returns (q: State)
    requires Reachable(r) && r.store == Some(o) && HasEntry(o) && r.work == Closing(o, With(o, h))
    requires h.version == o.spec.desired.version && h != o.history[Cur(o)]
    ensures Reachable(q) && Carries(r, q) && q.log == r.log && q.work.Idle? && InPhase(q.store.value, h.phase)
  {
    hide Write, Accepts, FindHistory, OthersKept, With;
    q := Next(r, Update(Applied));
    ReachableNext(r, Update(Applied));
    Landed(r, o, h, Applied);
  }

  lemma LandedNew(s: State, o: Obj, h: History)
    requires s.store == Some(o) && !HasEntry(o) && h.version == o.spec.desired.version
    ensures var o' := o.(rv := s.nextRv, history := [h] + o.history);
            && Write(s, o, [h] + o.history, Applied) == s.(store := Some(o'), nextRv := s.nextRv + 1)
            && HasEntry(o') && o'.history[Cur(o')] == h && OthersKept(o.history, o'.history, h.version)
    ensures Accepts(s, o, Applied)
  {
    assert |[h] + o.history| != |o.history|;
    HistoryUnique([h] + o.history, o.spec.desired.version, 0);
    SetHistoryIsKeyed(o.history, h);
  }

  lemma ToNew(r: State) returns (q: State)
    requires Reachable(r) && Ready(r)
    ensures Reachable(q) && Carries(r, q) && q.log == r.log
    ensures q.work == Deciding(q.store.value) && InPhase(q.store.value, New)
  {
    hide CV.Commenced, CV.UpgradeSource, FindHistory, Write, Accepts, OthersKept;
    var o := r.store.value;
    EntryAt(o);
    var q1 := r.(work := Loaded(o), pass := r.pass + 1);
    ReachableNext(r, Get);
    var h := NewEntry(o.spec.desired.version, "", New, None);
    var q2 := q1.(work := Creating(o, [h] + o.history));
    ReachableNext(q1, Inspect(true, ""));
    q := Next(q2, Update(Applied));
    ReachableNext(q2, Update(Applied));
    LandedNew(q2, o, h);
  }

  lemma ToPending(r: State) returns (q: State)
    requires Reachable(r) && r.store.Some? && r.work == Deciding(r.store.value) && InPhase(r.store.value, New)
    ensures Reachable(q) && Carries(r, q) && q.log == r.log && q.work.Idle? && InPhase(q.store.value, Pending)
  {
    hide CV.Commenced, CV.UpgradeSource, FindHistory, Write, OthersKept;
    var o := r.store.value;
    EntryAt(o);
    var h := o.history[Cur(o)].(phase := Pending);
    SetEntry(o, h);
    ReachableNext(r, Decide(true, true));
    q := LastWrite(r.(work := Closing(o, With(o, h))), o, h);
  }

  lemma ToAccepted(r: State) returns (q: State)
    requires Reachable(r) && r.work.Idle? && r.store.Some? && InPhase(r.store.value, Pending)
    requires Due(r.store.value.spec, r.now)
    ensures Reachable(q) && q.store == r.store && q.doc == r.doc && q.now == r.now
    ensures q.work == Accepted(r.store.value)
    ensures ApprovalsOf(r.log, r.store.value.spec) ==> ApprovalsOf(q.log, r.store.value.spec)
  {
    hide CV.Commenced, CV.UpgradeSource;
    var o := r.store.value;
    EntryAt(o);
    var q1 := r.(work := Loaded(o), pass := r.pass + 1);
    ReachableNext(r, Get);
    var q2 := q1.(work := Deciding(o));
    ReachableNext(q1, Inspect(true, ""));
    q := Next(q2, Decide(true, true));
    ReachableNext(q2, Decide(true, true));
  }

  /** The write that starts the upgrade; if its reply is lost the pass is over. */
  lemma ToUpgrading(r: State, f: Fault) returns (q: State)
    requires Reachable(r) && r.store.Some? && r.work == Accepted(r.store.value) && InPhase(r.store.value, Pending)
    requires f.Lands()
    ensures Reachable(q) && Carries(r, q) && InPhase(q.store.value, Upgrading)
    ensures q.store.value.history[Cur(q.store.value)].start == Some(q.now)
    ensures q.work == if f.Succeeds() then Checking(q.store.value) else Idle
    ensures ApprovalsOf(r.log, r.store.value.spec) ==> ApprovalsOf(q.log, r.store.value.spec)
  {
    hide CV.Commenced, CV.UpgradeSource, Write, Accepts, FindHistory, OthersKept, With;
    var o := r.store.value;
    EntryAt(o);
    var h := o.history[Cur(o)].(phase := Upgrading, start := Some(r.now));
    SetEntry(o, h);
    var q1 := r.(work := Opening(o, With(o, h)), log := r.log + [Unchanged(r.pass, o.uid)]);
    ReachableNext(r, RefreshUnchanged);
    q := Next(q1, Update(f));
    ReachableNext(q1, Update(f));
    Landed(q1, o, h, f);
  }

  // ---- The states themselves ------------------------------------------------------------------------------------------

  /** A cluster with a given ClusterVersion and one new object. */
  lemma FreshObject(doc: J.Json, spec: Spec) returns (r: State)
    ensures Reachable(r) && r.work.Idle? && r.doc == doc && r.now == 1 && r.log == []
    ensures r.store.Some? && r.store.value == Obj(0, 0, spec, 0, false, [])
  {
    var s := State(1, 0, 0, None, doc, CV.Updates([], []), Idle, PoolIdle, 0, []);
    assert Initial(s) && After(s, []) == s;
    assert Reachable(s);
    r := Next(s, Create(spec));
    ReachableNext(s, Create(spec));
  }

  lemma FreshPending(doc: J.Json, spec: Spec) returns (r: State)
    requires CV.UpgradeSource(spec.desired).Some? && !CV.Commenced(doc, spec.desired)
    ensures Reachable(r) && r.work.Idle? && r.doc == doc && r.now == 1 && r.log == []
    ensures r.store.Some? && r.store.value.spec == spec && r.store.value.edits == 0 && InPhase(r.store.value, Pending)
    ensures OthersKept([], r.store.value.history, spec.desired.version)
  {
    hide CV.Commenced, CV.UpgradeSource;
    r := FreshObject(doc, spec);
    r := ToNew(r);
    r := ToPending(r);
  }

  /** The upgrade has started; the pass that started it goes on, or ended with its reply lost. */
  lemma FreshUpgrading(doc: J.Json, spec: Spec, f: Fault) returns (r: State)
    requires CV.UpgradeSource(spec.desired).Some? && !CV.Commenced(doc, spec.desired)
    requires spec.upgradeAt == Some(0) && f.Lands()
    ensures Reachable(r) && r.doc == doc && r.now == 1 && ApprovalsOf(r.log, spec)
    ensures r.store.Some? && r.store.value.spec == spec && r.store.value.edits == 0
    ensures OthersKept([], r.store.value.history, spec.desired.version)
    ensures InPhase(r.store.value, Upgrading) && r.store.value.history[Cur(r.store.value)].start == Some(1)
    ensures r.work == if f.Succeeds() then Checking(r.store.value) else Idle
  {
    hide CV.Commenced, CV.UpgradeSource, InPhase;
    r := FreshPending(doc, spec);
    r := ToAccepted(r);
    r := ToUpgrading(r, f);
  }

  const PLAIN := Spec(CV.Desired("4", "stable", ""), Some(0))
  const WITH_IMAGE := Spec(CV.Desired("4", "stable", "x"), Some(0))

  /** There is a run that brings a late, uncommitted upgrade before the window check. */
  lemma LateUpgradesOccur()
    ensures exists r, window :: Reachable(r) && LateAndUncommitted(r, window)
  {
    hide Reachable, FindHistory;
    var r := FreshUpgrading(J.Null, PLAIN, Applied);
    ReachableNext(r, Tick(10));
    assert LateAndUncommitted(Next(r, Tick(10)), 5);
  }

  /** The provider has no spec for an object that is terminating already. */
  lemma ToReset(r: State) returns (q: State)
    requires Reachable(r) && r.store.Some? && r.work == Accepted(r.store.value) && InPhase(r.store.value, Pending)
    requires r.store.value.terminating
    ensures Reachable(q) && Resetting(q) && q.store == r.store && q.work.base == r.store.value
  {
    hide CV.Commenced, CV.UpgradeSource, FindHistory;
    var o := r.store.value;
    EntryAt(o);
    SetEntry(o, o.history[Cur(o)].(phase := New));
    q := Next(r, RefreshChanged(Marked));
    ReachableNext(r, RefreshChanged(Marked));
  }

  /** There is a run in which a pending entry is sent back to New. */
  lemma ResetsOccur()
    ensures exists r :: Reachable(r) && Resetting(r) && Next(r, Update(Applied)).store != r.store
  {
    hide Reachable, FindHistory, Resetting, CV.Commenced;
    assert !CV.Commenced(J.Null, PLAIN.desired) by { NothingCommitted(PLAIN.desired); }
    var r := FreshPending(J.Null, PLAIN);
    ReachableNext(r, Mark);
    r := ToAccepted(Next(r, Mark));
    r := ToReset(r);
    ResetLandsIff(r, Applied);
  }

  lemma NothingCommitted(d: CV.Desired)
    ensures !CV.Commenced(J.Null, d)
  {
  }

  /** There is a run in which the cluster is committed to a request nobody approved: the image was edited in after the
      approval. */
  lemma EditedRequestIsCommitted()
    ensures exists q :: && Reachable(q) && CV.DesiredUpdate(q.doc) == Some(CV.Release("", "x"))
                        && forall k :: 0 <= k < |q.log| && q.log[k].Approved? ==> q.log[k].spec.desired.image == ""
  {
    hide Reachable, FindHistory, Inv, After;
    var r := FreshUpgrading(J.Null, PLAIN, ReplyLost);
    var r1 := Next(r, Edit(WITH_IMAGE));
    ReachableNext(r, Edit(WITH_IMAGE));
    var r2 := Next(r1, Get);
    ReachableNext(r1, Get);
    ReachableInv(r2);
    var more := PassCanCommit(r2);
    ReachableAfter(r2, more);
    assert CV.DesiredUpdate(After(r2, more).doc) == Some(CV.Release("", "x"));
  }

  /** The spec is edited, for the same version, under a pass that has read it. */
  lemma EditUnderPass(r: State, spec: Spec)
    requires r.store.Some? && r.work == Loaded(r.store.value) && InPhase(r.store.value, Upgrading)
    requires spec.desired.version == r.store.value.spec.desired.version && CV.Commenced(r.doc, spec.desired)
    requires CV.UpgradeSource(r.store.value.spec.desired).Some? && !CV.Commenced(r.doc, r.store.value.spec.desired)
    ensures Committed(Next(r, Edit(spec))) && StalePass(Next(r, Edit(spec)))
  {
    hide CV.Commenced, CV.UpgradeSource, FindHistory;
  }

  lemma ImageOnly(doc: J.Json)
    requires CV.DesiredUpdate(doc) == Some(CV.Release("", "x"))
    ensures CV.Commenced(doc, WITH_IMAGE.desired) && !CV.Commenced(doc, PLAIN.desired)
    ensures CV.UpgradeSource(PLAIN.desired).Some?
  {
  }

  /** There is a run in which the cluster is committed to what the stored object asks for, and a pass from before the
      object was edited is about to take that back. */
  lemma StalePassesOccur()
    ensures exists r :: Reachable(r) && Committed(r) && StalePass(r)
  {
    hide Reachable, FindHistory, Committed, StalePass, J.MergePatch, CV.ImagePatch, CV.Commenced, CV.DesiredUpdate;
    var doc := J.MergePatch(J.Null, CV.ImagePatch("x"));
    CV.ImagePatchEffect(J.Null, "x");
    ImageOnly(doc);
    var r := FreshUpgrading(doc, PLAIN, ReplyLost);
    ReachableNext(r, Get);
    EditUnderPass(Next(r, Get), WITH_IMAGE);
    ReachableNext(Next(r, Get), Edit(WITH_IMAGE));
  }

  /** There is a run in which the object is deleted and recreated under a pass that has read it, and the pass is about
      to take back the commitment to what the new object asks for. */
  lemma RecreatedUnderPass()
    ensures exists r :: && Reachable(r) && Committed(r) && StalePass(r)
                        && r.work.base.uid != r.store.value.uid && r.store.value.edits == 0
  {
    hide Reachable, FindHistory, J.MergePatch, CV.ImagePatch, CV.Commenced, CV.DesiredUpdate, CV.UpgradeSource;
    var doc := J.MergePatch(J.Null, CV.ImagePatch("x"));
    CV.ImagePatchEffect(J.Null, "x");
    ImageOnly(doc);
    var r := FreshUpgrading(doc, PLAIN, ReplyLost);
    var r1 := Next(r, Get);
    ReachableNext(r, Get);
    var r2 := Next(r1, Delete);
    ReachableNext(r1, Delete);
    var r3 := Next(r2, Create(WITH_IMAGE));
    ReachableNext(r2, Create(WITH_IMAGE));
    ReachableInv(r);
    StoreFacts(r);
    assert Committed(r3) && StalePass(r3);
  }

  const WITH_OTHER_IMAGE := Spec(CV.Desired("4", "stable", "y"), Some(0))

  lemma ToAdopting(r: State) returns (q: State, h: History)
    requires Reachable(r) && r.work.Idle? && r.store.Some? && !HasEntry(r.store.value)
    requires CV.UpgradeSource(r.store.value.spec.desired).Some? && CV.Commenced(r.doc, r.store.value.spec.desired)
    ensures Reachable(q) && q == r.(work := Creating(r.store.value, [h] + r.store.value.history), pass := r.pass + 1)
    ensures h.version == r.store.value.spec.desired.version && h.phase.Upgrading?
  {
    hide CV.Commenced, CV.UpgradeSource, FindHistory;
    var o := r.store.value;
    EntryAt(o);
    h := NewEntry(o.spec.desired.version, "", Upgrading, Some(r.now));
    var q1 := r.(work := Loaded(o), pass := r.pass + 1);
    ReachableNext(r, Get);
    q := q1.(work := Creating(o, [h] + o.history));
    ReachableNext(q1, Inspect(true, ""));
  }

  /** The cluster is committed to what a new object asks for: its version is entered as upgrading. */
  lemma ToAdopted(r: State) returns (q: State)
    requires Reachable(r) && r.work.Idle? && r.store.Some? && !HasEntry(r.store.value)
    requires CV.UpgradeSource(r.store.value.spec.desired).Some? && CV.Commenced(r.doc, r.store.value.spec.desired)
    ensures Reachable(q) && Carries(r, q) && q.work.Idle? && InPhase(q.store.value, Upgrading)
    ensures forall k :: 0 <= k < |q.log| && q.log[k].Approved? ==> q.log[k] in r.log
  {
    hide CV.Commenced, CV.UpgradeSource, FindHistory, Write, Accepts, OthersKept;
    var q1, h := ToAdopting(r);
    var q2 := Next(q1, Update(Applied));
    ReachableNext(q1, Update(Applied));
    LandedNew(q1, r.store.value, h);
    q := Next(q2, Abort);
    ReachableNext(q2, Abort);
  }

  /** There is a run in which the cluster is committed to a request of a version that no pass ever approved: its entry
      was adopted, and the image edited afterwards. */
  lemma AdoptedVersionIsCommitted()
    ensures exists q :: && Reachable(q) && CV.DesiredUpdate(q.doc) == Some(CV.Release("", "y"))
                        && forall k :: 0 <= k < |q.log| ==> !q.log[k].Approved?
  {
    hide Reachable, FindHistory, Inv, After, J.MergePatch, CV.ImagePatch, InPhase;
    var doc := J.MergePatch(J.Null, CV.ImagePatch("x"));
    CV.ImagePatchEffect(J.Null, "x");
    var r := FreshObject(doc, WITH_IMAGE);
    var r1 := ToAdopted(r);
    var r2 := Next(r1, Edit(WITH_OTHER_IMAGE));
    ReachableNext(r1, Edit(WITH_OTHER_IMAGE));
    var r3 := Next(r2, Get);
    ReachableNext(r2, Get);
    SamePhaseAfterEdit(r1.store.value, r2.store.value);
    ReachableInv(r3);
    var more := PassCanCommit(r3);
    ReachableAfter(r3, more);
    assert CV.DesiredUpdate(After(r3, more).doc) == Some(CV.Release("", "y"));
  }

  lemma SamePhaseAfterEdit(o: Obj, o': Obj)
    requires InPhase(o, Upgrading) && o'.history == o.history && o'.spec.desired.version == o.spec.desired.version
    ensures InPhase(o', Upgrading)
  {
  }

  /** A started upgrade that is late fails. */
  lemma ToFailed(r: State) returns (q: State)
    requires Reachable(r) && r.store.Some? && r.work == Checking(r.store.value) && InPhase(r.store.value, Upgrading)
    requires LateAndUncommitted(r, 5)
    ensures Reachable(q) && Carries(r, q) && q.work.Idle? && InPhase(q.store.value, Failed)
  {
    hide CV.Commenced, CV.UpgradeSource, FindHistory, Write, SetHistory;
    var o := r.store.value;
    EntryAt(o);
    var h := o.history[Cur(o)].(phase := Failed);
    SetEntry(o, h);
    var q1 := Next(r, Check(true, 5));
    ReachableNext(r, Check(true, 5));
    var q2 := q1.(work := Closing(o, With(o, h)), log := q1.log + [GaveUp(q1.pass, true, true)]);
    ReachableNext(q1, FailUpgrade(true, true));
    q := LastWrite(q2, o, h);
  }

  const OTHER := Spec(CV.Desired("5", "stable", ""), Some(0))

  lemma FreshFailed() returns (r: State)
    ensures Reachable(r) && r.work.Idle? && r.doc == J.Null && r.now == 11
    ensures r.store.Some? && r.store.value.spec == PLAIN && InPhase(r.store.value, Failed)
    ensures OthersKept([], r.store.value.history, "4")
  {
    hide Reachable, FindHistory, CV.Commenced, Cur, HasEntry;
    NothingCommitted(PLAIN.desired);
    r := FreshUpgrading(J.Null, PLAIN, Applied);
    ReachableNext(r, Tick(10));
    r := ToFailed(Next(r, Tick(10)));
  }

  /** There is a run in which the same object, edited to another version after it failed, is committed. */
  lemma OtherVersionIsCommitted()
    ensures exists q :: && Reachable(q) && q.store.Some? && FailedIn(q.store.value.history, "4")
                        && CV.DesiredUpdate(q.doc) == Some(CV.Release("5", ""))
  {
    hide Reachable, FindHistory, Inv, After, CV.Commenced, Ready, HasEntry, GetHistory, InPhase;
    var r := FreshFailed();
    FailedEntry(r.store.value);
    var r1 := EditToOther(r);
    var r2 := ToNew(r1);
    var r3 := ToPending(r2);
    var r4 := ToAccepted(r3);
    var r5 := ToUpgrading(r4, Applied);
    assert GetHistory(r5.store.value.history, "4") == GetHistory(r1.store.value.history, "4");
    NothingCommitted(OTHER.desired);
    ReachableInv(r5);
    var more := PassCanCommit(r5);
    ReachableAfter(r5, more);
    assert After(r5, more).store == r5.store;
  }

  lemma FailedEntry(o: Obj)
    requires InPhase(o, Failed)
    ensures FailedIn(o.history, o.spec.desired.version)
  {
  }

  lemma EditToOther(r: State) returns (q: State)
    requires Reachable(r) && r.work.Idle? && r.store.Some? && r.doc == J.Null && r.now == 11
    requires r.store.value.spec == PLAIN && OthersKept([], r.store.value.history, "4")
    ensures Reachable(q) && Ready(q) && q.doc == J.Null && q.now == 11 && q.store.value.spec == OTHER
    ensures q.store.value.history == r.store.value.history
  {
    hide Reachable;
    q := Next(r, Edit(OTHER));
    ReachableNext(r, Edit(OTHER));
    NothingCommitted(OTHER.desired);
    assert OTHER.desired.version == "5" && "5" != "4";
    assert GetHistory(r.store.value.history, "5") == GetHistory([], "5");
  }
}

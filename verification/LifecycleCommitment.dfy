/** When the operator's commitment to an upgrade can be lost, and what becomes of failed upgrades. */
module LifecycleCommitment {
  import opened Kube
  import opened UpgradeStatus
  import opened StepRunner
  import opened Lifecycle
  import opened LifecycleInvariant
  import opened LifecycleSteps
  import opened LifecycleTheorems
  import CV = ClusterVersion
  import J = Json

  // ---- A pass that can still commit ------------------------------------------------------------------------------

  /** The pass in hand may yet commit the cluster to its copy's request. */
  predicate MayCommit(s: State) {
    && Held(s.work).Some?
    && CV.UpgradeSource(s.work.base.spec.desired).Some? && !CV.Commenced(s.doc, s.work.base.spec.desired)
    && match s.work
       case Loaded(b) => InPhase(b, Upgrading)
       case Deciding(b) => InPhase(b, Upgrading)
       case Checking(b) => InPhase(b, Upgrading)
       case Stepping(_, _, i) => i <= COMMENCE
       case Running(_, _, i) => i <= COMMENCE
       case _ => false
  }

  /** Calls that all succeed, with the requested version on offer. */
  function WillingCalls(d: CV.Desired): CV.Calls {
    CV.Calls(true, Applied, true, WillingOffer(d), Applied)
  }

  function WillingOffer(d: CV.Desired): CV.Updates {
    CV.Updates([CV.Release(d.version, "image")], [])
  }

  /** What such calls commit. */
  function WillingUpdate(d: CV.Desired): CV.Release {
    if d.image != "" then CV.Release("", d.image) else CV.Release(d.version, "")
  }

  /** The next event of a pass on its way to the commitment, with every step done. */
  function Towards(w: Work): Event {
    match w
    case Loaded(_) => Inspect(true, "")
    case Deciding(_) => Decide(true, true)
    case Checking(_) => Check(false, 0)
    case Stepping(_, _, _) => StepBegin
    case _ => StepEnd(Done)
  }

  function Distance(w: Work): nat {
    match w
    case Loaded(_) => 40
    case Deciding(_) => 39
    case Checking(_) => 38
    case Stepping(_, _, i) => if i <= COMMENCE then 2 * (COMMENCE - i) + 2 else 0
    case Running(_, _, i) => if i <= COMMENCE then 2 * (COMMENCE - i) + 1 else 0
    case _ => 0
  }

  /** Only the pass itself went on: the store, the commitment and the approvals are as they were. */
  predicate OnlyPass(s: State, s': State) {
    && s'.store == s.store && s'.pass == s.pass && s.log <= s'.log
    && forall k :: |s.log| <= k < |s'.log| ==> !s'.log[k].Approved?
  }

  /** The pass has come closer to the commitment. */
  predicate Closer(s: State, s': State) {
    && OnlyPass(s, s') && s'.doc == s.doc && Held(s'.work) == Held(s.work)
    && MayCommit(s') && Distance(s'.work) < Distance(s.work)
  }

  lemma ReadingTowardsCommit(s: State)
    requires MayCommit(s) && (s.work.Loaded? || s.work.Deciding?)
    ensures Closer(s, Next(s, Towards(s.work)))
  {
    hide SetHistory, CV.Commenced, CV.UpgradeSource, FindHistory;
    EntryAt(s.work.base);
  }

  lemma CheckingTowardsCommit(s: State)
    requires MayCommit(s) && s.work.Checking?
    ensures Closer(s, Next(s, Check(false, 0)))
  {
    hide CV.Commenced, CV.UpgradeSource, FindHistory;
  }

  lemma SteppingTowardsCommit(s: State)
    requires Inv(s) && MayCommit(s) && s.work.Stepping?
    ensures Closer(s, Next(s, StepBegin))
  {
    hide Inv, Begun, SetHistory, GetHistory, ToWriteOk;
    LocalEntry(s);
  }

  lemma RunningTowardsCommit(s: State)
    requires Inv(s) && MayCommit(s) && s.work.Running? && s.work.i < COMMENCE
    ensures Closer(s, Next(s, StepEnd(Done)))
  {
    hide Inv, Ended, SetHistory, GetHistory, ToWriteOk;
    LocalEntry(s);
  }

  lemma TowardsCommit(s: State)
    requires Inv(s) && MayCommit(s) && !(s.work.Running? && s.work.i == COMMENCE)
    ensures Closer(s, Next(s, Towards(s.work)))
  {
    hide Inv, Next, Closer;
    if s.work.Stepping? {
      SteppingTowardsCommit(s);
    } else if s.work.Running? {
      RunningTowardsCommit(s);
    } else if s.work.Checking? {
      CheckingTowardsCommit(s);
    } else {
      ReadingTowardsCommit(s);
    }
  }

  /** The two events that commit. */
  lemma CommitNow(s: State)
    requires Inv(s) && MayCommit(s) && s.work.Running? && s.work.i == COMMENCE
    ensures var d := s.work.base.spec.desired;
            var s1 := Next(s, CvoPublishes(WillingOffer(d)));
            var s2 := Next(s1, Commence(true, true, WillingCalls(d)));
            OnlyPass(s, s2) && CV.DesiredUpdate(s2.doc) == Some(WillingUpdate(d))
  {
    hide Inv, Ended, SetHistory, GetHistory, Commencing;
    var d := s.work.base.spec.desired;
    var s1 := s.(updates := WillingOffer(d));
    assert s1 == Next(s, CvoPublishes(WillingOffer(d)));
    CommenceDoc(s1, Commence(true, true, WillingCalls(d)));
    WillingCommence(s.doc, d);
  }

  lemma WillingCommence(doc: J.Json, d: CV.Desired)
    requires CV.UpgradeSource(d).Some? && !CV.Commenced(doc, d)
    ensures CV.DesiredUpdate(Commencing(doc, WillingOffer(d), d, true, true, WillingCalls(d)).0) == Some(WillingUpdate(d))
  {
    var us := WillingOffer(d);
    assert CV.Offers(us.available[0], d.version);
    CV.EnsureDesiredHonours(doc, us, d, WillingCalls(d));
    assert CV.EnsureDesired(doc, us, d, WillingCalls(d)).patched;
  }

  /** Such a pass does commit, in some continuation in which nobody else acts. */
  lemma {:induction false} PassCanCommit(s: State) returns (more: seq<Event>)
    requires Inv(s) && MayCommit(s)
    ensures OnlyPass(s, After(s, more))
    ensures CV.DesiredUpdate(After(s, more).doc) == Some(WillingUpdate(s.work.base.spec.desired))
    decreases Distance(s.work)
  {
    hide Inv, Next, MayCommit, WillingUpdate, OnlyPass;
    if s.work.Running? && s.work.i == COMMENCE {
      CommitNow(s);
      var d := s.work.base.spec.desired;
      var a, b := CvoPublishes(WillingOffer(d)), Commence(true, true, WillingCalls(d));
      more := [a] + [b];
      AfterOne(s, [a], b);
      AfterOne(s, [], a);
      assert [] + [a] == [a];
    } else {
      var e := Towards(s.work);
      TowardsCommit(s);
      NextKeepsInv(s, e);
      var rest := PassCanCommit(Next(s, e));
      more := [e] + rest;
      AfterBoth(s, [e], rest);
      AfterOne(s, [], e);
      assert [] + [e] == [e];
      OnlyPassBoth(s, Next(s, e), After(s, more));
    }
  }

  lemma OnlyPassBoth(a: State, b: State, c: State)
    requires OnlyPass(a, b) && OnlyPass(b, c)
    ensures OnlyPass(a, c)
  {
  }

  // ---- Losing the commitment --------------------------------------------------------------------------------------

  /** The object is still stored and was not edited in between. */
  predicate Unedited(r: State, q: State) {
    && r.store.Some? && SameObject(q.store, r.store.value) && q.store.value.edits == r.store.value.edits
  }

  /** The cluster is committed to what the stored object asks for. */
  predicate Committed(s: State) {
    s.store.Some? && CV.Commenced(s.doc, s.store.value.spec.desired)
  }

  /** A pass that read the object before it was last edited, or an object from before it, may yet commit what that
      asked for. */
  predicate StalePass(s: State) {
    && MayCommit(s) && s.store.Some?
    && (s.work.base.uid != s.store.value.uid || s.work.base.edits < s.store.value.edits)
  }

  /** Whose copy a pass holds after a transition. */
  lemma HeldAfter(s: State, e: Event)
    ensures var s' := Next(s, e);
            Held(s'.work).None? || Held(s'.work) == Held(s.work) || s'.store == Held(s'.work)
  {
    hide SetHistory, GetHistory, Begun, Ended, Commencing;
  }

  lemma MayCommitBefore(s: State, e: Event)
    requires s.work.Checking? ==> InPhase(s.work.base, Upgrading)
    requires MayCommit(Next(s, e)) && Held(Next(s, e).work) == Held(s.work) && Next(s, e).doc == s.doc
    requires s.work.Opening? || s.work.Creating? ==> !Matches(s.store, s.work.base)
    ensures MayCommit(s)
  {
    hide SetHistory, Begun, Ended, Commencing, CV.Commenced, CV.UpgradeSource, FindHistory, Due;
    if Held(s.work).Some? {
      EntryAt(s.work.base);
    }
  }

  lemma SpecStays(s: State, e: Event)
    requires Inv(s) && Unedited(s, Next(s, e))
    ensures Next(s, e).store.value.spec == s.store.value.spec && Inv(Next(s, e))
  {
    hide Next, LaterEntry, Evolves, WorkOk, PoolOk, LogSound, AllLicensed, LogFits, LogKnown, HistOk;
    StepEvolves(s, e);
    NextKeepsInv(s, e);
  }

  /** A pass whose copy is current, or whose request is committed or void, leaves the commitment alone. */
  lemma DocStays(s: State, e: Event)
    requires Inv(s) && Committed(s) && !StalePass(s)
    ensures Next(s, e).doc == s.doc
  {
    hide Next, StoreOk, PoolOk, LogSound, AllLicensed, LogFits, LogKnown, ToWriteOk, HistOk, SamePhases;
    if Next(s, e).doc != s.doc {
      OnlyCommenceCommits(s, e);
      CommenceDoc(s, e);
    }
  }

  /** No transition brings a copy from before the last edit back into play. */
  lemma StaleBefore(s: State, e: Event)
    requires Inv(s) && Unedited(s, Next(s, e)) && Next(s, e).doc == s.doc && StalePass(Next(s, e))
    ensures StalePass(s)
  {
    hide Next, StoreOk, PoolOk, LogSound, AllLicensed, LogFits, LogKnown, ToWriteOk, HistOk, SamePhases, CreateOk;
    hide CV.Commenced, CV.UpgradeSource, Cur;
    var s' := Next(s, e);
    HeldAfter(s, e);
    assert Held(s'.work) == Held(s.work);
    MayCommitBefore(s, e);
  }

  lemma CommitmentStep(s: State, e: Event)
    requires Inv(s) && Committed(s) && !StalePass(s) && Unedited(s, Next(s, e))
    ensures Committed(Next(s, e)) && !StalePass(Next(s, e)) && Inv(Next(s, e))
  {
    hide Next, Inv, MayCommit, CV.Commenced, StalePass;
    SpecStays(s, e);
    DocStays(s, e);
    if StalePass(Next(s, e)) {
      StaleBefore(s, e);
    }
  }

  lemma {:induction false} CommitmentRun(s: State, more: seq<Event>)
    requires Inv(s) && Committed(s) && !StalePass(s) && Unedited(s, After(s, more))
    ensures Inv(After(s, more)) && Committed(After(s, more)) && !StalePass(After(s, more))
  {
    hide Next, Inv, Committed, StalePass;
    if more != [] {
      var most, e := more[..|more| - 1], more[|more| - 1];
      StillUnedited(s, most, e);
      CommitmentRun(s, most);
      CommitmentStep(After(s, most), e);
    }
  }

  /** If the object is there unedited after one more event, it was before it. */
  lemma StillUnedited(s: State, most: seq<Event>, e: Event)
    requires Inv(s) && Unedited(s, Next(After(s, most), e))
    ensures Unedited(s, After(s, most)) && Unedited(After(s, most), Next(After(s, most), e))
  {
    hide Next, LaterEntry, WorkOk, PoolOk, LogSound, AllLicensed, LogFits, HistOk;
    var m := After(s, most);
    RunKeepsInv(s, most);
    RunEvolves(s, most);
    StepEvolves(m, e);
    assert s.store.value.uid < s.nextUid <= m.nextUid;
  }

  lemma WillingUpdateReplaces(doc: J.Json, doc': J.Json, d: CV.Desired, d': CV.Desired)
    requires CV.Commenced(doc, d) && !CV.Commenced(doc, d') && CV.UpgradeSource(d').Some?
    requires CV.DesiredUpdate(doc') == Some(WillingUpdate(d'))
    ensures !CV.Commenced(doc', d)
  {
  }

  /** The commitment to what the stored object asks for can be lost, while that object stays as it is, exactly when a
      pass is in hand that read it before its last edit, or read an object from before it, found that upgrading,
      and has not passed the point of commitment for a request the cluster is not committed to. */
  lemma CommitmentLostIff(r: State)
    requires Reachable(r) && Committed(r)
    ensures (exists more :: Unedited(r, After(r, more)) && !CV.Commenced(After(r, more).doc, r.store.value.spec.desired))
            <==> StalePass(r)
  {
    hide After, Inv, CV.Commenced;
    ReachableInv(r);
    if StalePass(r) {
      var more := PassCanCommit(r);
      WillingUpdateReplaces(r.doc, After(r, more).doc, r.store.value.spec.desired, r.work.base.spec.desired);
      assert Unedited(r, After(r, more));
    } else {
      forall more | Unedited(r, After(r, more))
        ensures CV.Commenced(After(r, more).doc, r.store.value.spec.desired)
      {
        CommitmentRun(r, more);
        RunEvolves(r, more);
      }
    }
  }

  // ---- Committed upgrades do not fail ---------------------------------------------------------------------------------

  /** Only the reconciler's last write of a pass fails an entry, and only for an uncommitted request. */
  lemma FailingWrite(s: State, e: Event)
    requires Inv(s) && Unedited(s, Next(s, e)) && !InPhase(s.store.value, Failed)
    requires CV.Commenced(s.doc, s.store.value.spec.desired)
    ensures !InPhase(Next(s, e).store.value, Failed)
  {
    hide PoolOk, AllLicensed, LogFits, LogKnown, LogSound, HistOk, CV.Commenced, OnUpdate, OnPoolUpdate, Next, WorkOk;
    SpecStays(s, e);
    var o, o' := s.store.value, Next(s, e).store.value;
    if e.Update? {
      assert Next(s, e) == OnUpdate(s, e.f) by { UpdateIs(s, e); }
      FailingUpdate(s, e.f);
    } else if e.PoolUpdate? {
      assert Next(s, e) == OnPoolUpdate(s, e.f) by { UpdateIs(s, e); }
      PoolUpdateEvolves(s, e.f);
      HistoryUnique(o'.history, o'.spec.desired.version, Cur(o));
    } else {
      OthersEvolve(s, e);
    }
  }

  lemma UpdateIs(s: State, e: Event)
    ensures e.Update? ==> Next(s, e) == OnUpdate(s, e.f)
    ensures e.PoolUpdate? ==> Next(s, e) == OnPoolUpdate(s, e.f)
  {
    hide OnUpdate, OnPoolUpdate;
  }

  lemma FailingUpdate(s: State, f: Fault)
    requires Inv(s) && Unedited(s, OnUpdate(s, f)) && !InPhase(s.store.value, Failed)
    requires CV.Commenced(s.doc, s.store.value.spec.desired)
    ensures !InPhase(OnUpdate(s, f).store.value, Failed)
  {
    hide PoolOk, StoreOk, AllLicensed, LogFits, LogKnown, LogSound, CV.Commenced, HistOk, Licensed, EntryOk, Evolves;
    hide SamePhases, Entered, Write, Accepts;
    if s.work.Creating? || s.work.Opening? || s.work.Closing? {
      var b, hist := s.work.base, s.work.hist;
      EnteredStore(s, b, hist, f);
      WrittenStore(s, b, hist, f);
      if s.work.Creating? {
        HistoryUnique(hist, b.spec.desired.version, 0);
      } else {
        HistoryUnique(hist, b.spec.desired.version, Cur(b));
      }
    }
  }

  lemma WrittenStore(s: State, b: Obj, hist: seq<History>, f: Fault)
    requires Matches(s.store, b) ==> s.store == Some(b)
    ensures var s' := Write(s, b, hist, f);
            s'.store == s.store || (s.store == Some(b) && s'.store == Some(b.(rv := s.nextRv, history := hist)))
  {
  }

  /** Once the cluster is committed to what a stored object asks for, whether or not it has an entry yet, and no stale
      pass is in hand, it stays committed for as long as the object exists unedited, and its entry, unless it was
      Failed under an earlier edition, never becomes Failed. */
  lemma {:induction false} NoFailureOnceCommitted(r: State, more: seq<Event>)
    requires Reachable(r) && Committed(r) && !StalePass(r) && Unedited(r, After(r, more))
    requires r.store.value.edits > 0 ==> !InPhase(r.store.value, Failed)
    ensures Committed(After(r, more)) && !InPhase(After(r, more).store.value, Failed)
    decreases |more|
  {
    hide After, Inv, MayCommit, CV.Commenced;
    ReachableInv(r);
    CommitmentRun(r, more);
    if r.store.value.edits == 0 {
      NotFailedYet(r);
    }
    NeverFailed(r, more);
  }

  lemma NotFailedYet(s: State)
    requires Inv(s) && Committed(s) && s.store.value.edits == 0
    ensures !InPhase(s.store.value, Failed)
  {
    hide PoolOk, WorkOk, AllLicensed, LogFits, HistOk, CV.Commenced;
  }

  lemma {:induction false} NeverFailed(s: State, more: seq<Event>)
    requires Inv(s) && Committed(s) && !StalePass(s) && Unedited(s, After(s, more)) && !InPhase(s.store.value, Failed)
    ensures !InPhase(After(s, more).store.value, Failed)
  {
    hide Next, Inv, StalePass, CV.Commenced;
    if more != [] {
      var most, e := more[..|more| - 1], more[|more| - 1];
      StillUnedited(s, most, e);
      CommitmentRun(s, most);
      NeverFailed(s, most);
      FailingWrite(After(s, most), e);
    }
  }

  // ---- Failed upgrades are not committed ----------------------------------------------------------------------------------

  predicate FailedIn(hist: seq<History>, version: string) {
    GetHistory(hist, version).Some? && GetHistory(hist, version).value.phase.Failed?
  }

  /** Nothing will ever be committed for this version of object `uid` again. */
  predicate Abandoned(s: State, uid: nat, version: string) {
    && uid < s.nextUid
    && (s.store.Some? && s.store.value.uid == uid ==> FailedIn(s.store.value.history, version))
    && (Held(s.work).Some? && Held(s.work).value.uid == uid ==>
          && FailedIn(s.work.base.history, version)
          && (s.work.base.spec.desired.version == version ==> s.work.Loaded? || s.work.Deciding?))
  }

  /** Where a pass gets a new copy from. */
  lemma NewCopy(s: State, e: Event)
    requires Held(Next(s, e).work).Some? && Held(Next(s, e).work) != Held(s.work)
    requires Held(s.work).Some? && Matches(s.store, s.work.base) ==> s.store == Some(s.work.base)
    ensures var s' := Next(s, e);
            && s'.store == Held(s'.work)
            && (s'.work.Loaded? || s'.work.Deciding?
                || (s.work.Opening? && s.work.base.uid == s'.work.base.uid && s.work.base.spec == s'.work.base.spec))
  {
    hide SetHistory, GetHistory, Begun, Ended, Commencing, CV.Commenced, CV.UpgradeSource, Due;
  }

  lemma MatchedIsStored(s: State)
    requires Inv(s)
    ensures Held(s.work).Some? && Matches(s.store, s.work.base) ==> s.store == Some(s.work.base)
  {
  }

  /** A pass that finds its version Failed does nothing with it. */
  lemma FailedPassEnds(s: State, e: Event)
    requires (s.work.Loaded? || s.work.Deciding?) && FailedIn(s.work.base.history, s.work.base.spec.desired.version)
    ensures var w := Next(s, e).work; w.Idle? || ((w.Loaded? || w.Deciding?) && w.base == s.work.base)
  {
    hide SetHistory, FindHistory, CV.Commenced, Due;
  }

  lemma FailedStays(s: State, e: Event, version: string)
    requires Inv(s) && s.store.Some? && FailedIn(s.store.value.history, version)
    requires SameObject(Next(s, e).store, s.store.value)
    ensures FailedIn(Next(s, e).store.value.history, version)
  {
    hide Next, Evolves, WorkOk, PoolOk, LogSound, AllLicensed, LogFits, HistOk;
    StepEvolves(s, e);
    NextKeepsInv(s, e);
    LaterItself(s.store.value);
    StepIsLater(s.store.value, s.store.value, Next(s, e).store.value);
    StoredUnique(Next(s, e));
    FoundLater(s.store.value, Next(s, e).store.value, version);
  }

  lemma AbandonedStays(s: State, e: Event, uid: nat, version: string)
    requires Inv(s) && Abandoned(s, uid, version)
    ensures Abandoned(Next(s, e), uid, version)
  {
    hide Next, FailedIn, WorkOk, PoolOk, LogSound, AllLicensed, LogFits, HistOk, Evolved;
    var s' := Next(s, e);
    StepEvolves(s, e);
    if s'.store.Some? && s'.store.value.uid == uid {
      FailedStays(s, e, version);
    }
    if Held(s'.work).Some? {
      if Held(s'.work) != Held(s.work) {
        MatchedIsStored(s);
        NewCopy(s, e);
      } else if s.work.base.uid == uid && s.work.base.spec.desired.version == version {
        FailedPassEnds(s, e);
      }
    }
  }

  lemma {:induction false} AbandonedForever(s: State, more: seq<Event>, uid: nat, version: string)
    requires Inv(s) && Abandoned(s, uid, version)
    ensures Abandoned(After(s, more), uid, version)
  {
    hide Next, Inv, Abandoned;
    if more != [] {
      var most := more[..|more| - 1];
      AbandonedForever(s, most, uid, version);
      RunKeepsInv(s, most);
      AbandonedStays(After(s, most), more[|more| - 1], uid, version);
    }
  }

  /** While a pass is in hand the stored phases are its copy's, so a pass on a Failed version is just reading it. */
  lemma FailedIsAbandoned(s: State, version: string)
    requires Inv(s) && s.store.Some? && FailedIn(s.store.value.history, version)
    ensures Abandoned(s, s.store.value.uid, version)
  {
    hide PoolOk, LogSound, AllLicensed, LogFits, HistOk, Licensed, EntryOk, Evolves;
    if Held(s.work).Some? && Held(s.work).value.uid == s.store.value.uid {
      var b := s.work.base;
      HistoryUnique(b.history, version, FindHistory(s.store.value.history, version));
    }
  }

  /** Once a version of an object is stored as Failed, no later pass that reads the object fresh commits the cluster
      to it: every later change of desiredUpdate is made for another version or another object. The ClusterVersion
      patch itself is not guarded by the UpgradeConfig's resource version, so a pass working from a stale
      client cache would be outside this statement. */
  lemma NoCommitOnceFailed(r: State, more: seq<Event>, e: Event, version: string)
    requires Reachable(r) && r.store.Some? && FailedIn(r.store.value.history, version)
    requires CV.DesiredUpdate(Next(After(r, more), e).doc) != CV.DesiredUpdate(After(r, more).doc)
    ensures var q := After(r, more);
            && q.work.Running?
            && (q.work.base.uid != r.store.value.uid || q.work.base.spec.desired.version != version)
  {
    hide Inv, Next, After, FailedIn;
    ReachableInv(r);
    FailedIsAbandoned(r, version);
    AbandonedForever(r, more, r.store.value.uid, version);
    CommitIsRequest(After(r, more), e);
  }
}

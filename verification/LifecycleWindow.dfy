/** The OSD failure window. An upgrade that has not commenced when its window closes is meant to
    fail; a pass whose ClusterVersion read errs at that point carries on instead. */
module LifecycleWindow {
  import opened Kube
  import opened UpgradeStatus
  import opened Lifecycle
  import opened LifecycleInvariant
  import opened LifecycleSteps
  import opened LifecycleTheorems
  import opened LifecycleCommitment
  import CV = ClusterVersion
  import J = Json

  /** The pass is about to examine an uncommitted upgrade whose window has closed. */
  predicate LateAndUncommitted(s: State, window: nat) {
    && s.work.Checking? && HasEntry(s.work.base)
    && CV.UpgradeSource(s.work.base.spec.desired).Some? && !CV.Commenced(s.doc, s.work.base.spec.desired)
    && window > 0
    && var start := s.work.base.history[Cur(s.work.base)].start;
       start.Some? && s.now > start.value + window
  }

  /** Pass `p` is over, or is past its last chance to commit. */
  predicate Settled(s: State, p: nat, doc: J.Json) {
    s.pass > p || (s.pass == p && s.doc == doc && (s.work.Failing? || s.work.Closing? || s.work.Idle? || s.work.Crashed?))
  }

  lemma SettledStep(s: State, e: Event, p: nat, doc: J.Json)
    requires Settled(s, p, doc)
    ensures Settled(Next(s, e), p, doc)
  {
    hide SetHistory, GetHistory, Begun, Ended, Commencing, CV.Commenced;
  }

  lemma {:induction false} SettledStays(s: State, more: seq<Event>, p: nat, doc: J.Json)
    requires Settled(s, p, doc)
    ensures Settled(After(s, more), p, doc)
  {
    hide Next, Settled;
    if more != [] {
      SettledStays(s, more[..|more| - 1], p, doc);
      SettledStep(After(s, more[..|more| - 1]), more[|more| - 1], p, doc);
    }
  }

  lemma LateCheck(r: State, cvOk: bool, window: nat)
    requires Inv(r) && LateAndUncommitted(r, window)
    ensures var s := Next(r, Check(cvOk, window));
            && s.pass == r.pass && s.doc == r.doc && Held(s.work) == Held(r.work)
            && (if cvOk then s.work.Failing? else MayCommit(s))
  {
    hide StoreOk, PoolOk, WorkBaseOk, CV.Commenced, CV.UpgradeSource;
    EntryAt(r.work.base);
  }

  lemma WillingUpdateIsNew(doc: J.Json, doc': J.Json, d: CV.Desired)
    requires CV.UpgradeSource(d).Some? && !CV.Commenced(doc, d) && CV.DesiredUpdate(doc') == Some(WillingUpdate(d))
    ensures CV.DesiredUpdate(doc') != CV.DesiredUpdate(doc)
  {
  }

  /** A pass that examines a late, uncommitted upgrade can go on to commit it exactly when its read of
      the ClusterVersion failed at that point: the window is enforced on every pass that could read. */
  lemma LateCommitIffReadFailed(r: State, cvOk: bool, window: nat)
    requires Reachable(r) && LateAndUncommitted(r, window)
    ensures (exists more :: var q := After(Next(r, Check(cvOk, window)), more);
               q.pass == r.pass && CV.DesiredUpdate(q.doc) != CV.DesiredUpdate(r.doc))
            <==> !cvOk
  {
    hide Inv, Next, After, MayCommit, CV.Commenced, CV.UpgradeSource, CV.DesiredUpdate;
    ReachableInv(r);
    var s := Next(r, Check(cvOk, window));
    LateCheck(r, cvOk, window);
    if cvOk {
      forall more | After(s, more).pass == r.pass
        ensures CV.DesiredUpdate(After(s, more).doc) == CV.DesiredUpdate(r.doc)
      {
        SettledStays(s, more, r.pass, r.doc);
      }
    } else {
      NextKeepsInv(r, Check(cvOk, window));
      var more := PassCanCommit(s);
      WillingUpdateIsNew(r.doc, After(s, more).doc, r.work.base.spec.desired);
      assert After(s, more).pass == r.pass;
    }
  }
}

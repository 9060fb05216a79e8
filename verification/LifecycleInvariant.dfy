/** What every transition of the lifecycle keeps, whoever takes it. */
module LifecycleInvariant {
  import opened Kube
  import opened UpgradeStatus
  import opened Lifecycle
  import CV = ClusterVersion
  import J = Json

  // ---- One history entry ----------------------------------------------------------------------------

  predicate SetBy(t: Option<Time>, now: Time) {
    t.Some? ==> t.value <= now
  }

  predicate NotAfter(a: Option<Time>, b: Option<Time>) {
    a.Some? && b.Some? ==> a.value <= b.value
  }

  /** The timestamps an entry may carry in its phase, and their order. */
  predicate EntryOk(h: History, now: Time) {
    && (h.phase.New? || h.phase.Pending? ==>
          h.start.None? && h.workerStart.None? && h.workerComplete.None? && h.complete.None?)
    && (h.phase.Upgrading? || h.phase.Upgraded? || h.phase.Failed? ==> h.start.Some?)
    && (h.complete.Some? <==> h.phase.Upgraded?)
    && (h.workerComplete.Some? ==> h.workerStart.Some?)
    && SetBy(h.start, now) && SetBy(h.workerStart, now) && SetBy(h.workerComplete, now) && SetBy(h.complete, now)
    && NotAfter(h.start, h.workerStart) && NotAfter(h.workerStart, h.workerComplete)
    && NotAfter(h.workerStart, h.complete) && NotAfter(h.workerComplete, h.complete) && NotAfter(h.start, h.complete)
  }

  /** The edges a single stored write takes. Only an object that is being deleted goes back to New. */
  predicate Edge(p: Phase, q: Phase, terminating: bool) {
    || p == q
    || (p.New? && q.Pending?)
    || (p.Pending? && q.Upgrading?)
    || (p.Upgrading? && (q.Upgraded? || q.Failed?))
    || (p.Pending? && q.New? && terminating)
  }

  predicate Kept(a: Option<Time>, b: Option<Time>) {
    a.Some? ==> b == a
  }

  /** How an entry may change: along an edge, and with every timestamp written at most once. */
  predicate Evolves(h: History, h': History, terminating: bool) {
    && h.version == h'.version && h.preceding == h'.preceding
    && Edge(h.phase, h'.phase, terminating)
    && Kept(h.start, h'.start) && Kept(h.complete, h'.complete)
    && Kept(h.workerStart, h'.workerStart) && Kept(h.workerComplete, h'.workerComplete)
  }

  // ---- Histories of any length ------------------------------------------------------------------------

  predicate HistOk(hist: seq<History>, now: Time) {
    UniqueVersions(hist) && forall i :: 0 <= i < |hist| ==> EntryOk(hist[i], now)
  }

  /** New entries come in front; the entries there were have evolved. */
  predicate HistEvolves(hist: seq<History>, hist': seq<History>, terminating: bool) {
    && |hist| <= |hist'|
    && forall i :: 0 <= i < |hist| ==> Evolves(hist[i], hist'[i + |hist'| - |hist|], terminating)
  }

  predicate SamePhases(hist: seq<History>, hist': seq<History>) {
    && |hist| == |hist'|
    && forall i :: 0 <= i < |hist| ==> hist[i].version == hist'[i].version && hist[i].phase == hist'[i].phase
  }

  /** The position of the entry for the desired version, or the length of the history. */
  function Cur(o: Obj): nat {
    FindHistory(o.history, o.spec.desired.version)
  }

  predicate HasEntry(o: Obj) {
    Cur(o) < |o.history|
  }

  predicate InPhase(o: Obj, p: Phase) {
    HasEntry(o) && o.history[Cur(o)].phase == p
  }

  lemma EntryAt(o: Obj)
    ensures EntryOf(o) == if HasEntry(o) then Some(o.history[Cur(o)]) else None
  {
  }

  /** The object's history with another entry for the desired version. */
  function With(b: Obj, h: History): seq<History>
    requires HasEntry(b)
  {
    b.history[Cur(b) := h]
  }

  /** A local history that differs from the copy's at most in that entry. */
  predicate Touches(b: Obj, hist: seq<History>) {
    && HasEntry(b) && |hist| == |b.history| && hist == With(b, hist[Cur(b)])
    && hist[Cur(b)].version == b.spec.desired.version
  }

  lemma Retouch(b: Obj, hist: seq<History>, h: History)
    requires Touches(b, hist) && h.version == b.spec.desired.version
    ensures GetHistory(hist, b.spec.desired.version) == Some(hist[Cur(b)])
    ensures SetHistory(hist, h) == With(b, h) && Touches(b, With(b, h))
  {
    HistoryUnique(hist, b.spec.desired.version, Cur(b));
  }

  lemma TouchesItself(b: Obj)
    requires HasEntry(b)
    ensures Touches(b, b.history)
  {
  }

  lemma SetEntry(b: Obj, h: History)
    requires HasEntry(b) && h.version == b.spec.desired.version
    ensures EntryOf(b) == Some(b.history[Cur(b)]) && SetHistory(b.history, h) == With(b, h) && Touches(b, With(b, h))
  {
  }

  lemma TouchedHistory(b: Obj, hist: seq<History>, now: Time)
    requires Touches(b, hist) && HistOk(b.history, now) && EntryOk(hist[Cur(b)], now)
    ensures HistOk(hist, now)
  {
  }

  lemma TouchedEvolves(b: Obj, hist: seq<History>)
    requires Touches(b, hist) && Evolves(b.history[Cur(b)], hist[Cur(b)], b.terminating)
    ensures HistEvolves(b.history, hist, b.terminating)
  {
    hide Cur;
    forall i | 0 <= i < |hist| ensures Evolves(b.history[i], hist[i], b.terminating) {
    }
  }

  // ---- What the log has established -------------------------------------------------------------------

  predicate ApprovedBefore(log: seq<Entry>, k: nat, p: nat, uid: nat, spec: Spec, edits: nat) {
    exists i :: 0 <= i < k && i < |log| && log[i].Approved? && log[i].pass == p && log[i].uid == uid
                && log[i].spec == spec && log[i].edits == edits && Due(spec, log[i].at)
  }

  /** A pass found this very spec valid, available and due, and then saw no remote change. */
  predicate ClearedAt(log: seq<Entry>, k: nat, uid: nat, spec: Spec, edits: nat) {
    && k < |log| && log[k].Unchanged? && log[k].uid == uid
    && ApprovedBefore(log, k, log[k].pass, uid, spec, edits)
  }

  ghost predicate Cleared(log: seq<Entry>, uid: nat, spec: Spec, edits: nat) {
    exists k: nat :: ClearedAt(log, k, uid, spec, edits)
  }

  ghost predicate ClearedVersion(log: seq<Entry>, uid: nat, version: string) {
    exists spec, edits :: Cleared(log, uid, spec, edits) && spec.desired.version == version
  }

  predicate AdoptedVersion(log: seq<Entry>, uid: nat, version: string) {
    exists k :: 0 <= k < |log| && log[k].Adopted? && log[k].uid == uid && log[k].version == version
  }

  /** The version may be upgrading: it was cleared, or the cluster was found committed to it. */
  ghost predicate Licensed(log: seq<Entry>, uid: nat, version: string) {
    ClearedVersion(log, uid, version) || AdoptedVersion(log, uid, version)
  }

  ghost predicate AllLicensed(log: seq<Entry>, uid: nat, hist: seq<History>) {
    forall i :: 0 <= i < |hist| && hist[i].phase.Upgrading? ==> Licensed(log, uid, hist[i].version)
  }

  predicate EntryFits(e: Entry, doc: J.Json, o: Obj) {
    && (e.Approved? ==>
          e.uid <= o.uid && (e.uid == o.uid ==> e.edits <= o.edits && (e.edits == o.edits ==> e.spec == o.spec)))
    && (e.Adopted? ==>
          e.uid <= o.uid && (e.uid == o.uid ==>
            e.edits <= o.edits && (e.edits == o.edits ==> CV.Commenced(doc, o.spec.desired))))
  }

  /** Nothing was logged about later editions of the object; what was logged about this one was about its spec,
      and if that was found committed it still is. */
  predicate LogFits(s: State, o: Obj) {
    forall k :: 0 <= k < |s.log| ==> EntryFits(s.log[k], s.doc, o)
  }

  /** The phase of the entry for a version, if there is one. */
  function PhaseAt(hist: seq<History>, version: string): Option<Phase> {
    var i := FindHistory(hist, version);
    if i < |hist| then Some(hist[i].phase) else None
  }

  predicate Started(p: Option<Phase>) {
    p.Some? && !p.value.New? && !p.value.Pending?
  }

  /** Every approved version of the object has an entry, and every adopted one has one that has started. */
  predicate LogKnown(log: seq<Entry>, o: Obj) {
    forall k :: 0 <= k < |log| ==> EntryKnown(log[k], o.uid, o.history)
  }

  predicate EntryKnown(e: Entry, uid: nat, hist: seq<History>) {
    && (e.Approved? && e.uid == uid ==> PhaseAt(hist, e.spec.desired.version).Some?)
    && (e.Adopted? && e.uid == uid ==> Started(PhaseAt(hist, e.version)))
  }

  /** No version of an object was both approved and adopted. */
  predicate Exclusive(log: seq<Entry>) {
    forall j, k :: 0 <= j < |log| && 0 <= k < |log| && log[j].Approved? && log[k].Adopted? && log[j].uid == log[k].uid ==>
      log[j].spec.desired.version != log[k].version
  }

  predicate LogSound(s: State) {
    && Exclusive(s.log)
    && forall k :: 0 <= k < |s.log| ==>
         (s.log[k].Approved? ==> s.log[k].uid < s.nextUid) && (s.log[k].Adopted? ==> s.log[k].uid < s.nextUid)
  }

  predicate StepsDone(log: seq<Entry>, pass: nat, n: nat) {
    forall j: nat :: j < n ==> StepDone(pass, j) in log
  }

  /** This pass examined the window, and had no readable evidence of an uncommitted late upgrade. */
  predicate WindowPassed(s: State, b: Obj) {
    exists k :: 0 <= k < |s.log| && s.log[k].Checked? && s.log[k].pass == s.pass
                && (!s.log[k].readOk || !s.log[k].late || CV.Commenced(s.doc, b.spec.desired))
  }

  // ---- Copies held by the controllers -----------------------------------------------------------------

  /** An object keeps its spec until it is edited, and once it is being deleted it stays so. */
  predicate Follows(b: Obj, o: Obj) {
    && b.uid == o.uid && b.edits <= o.edits && (b.edits == o.edits ==> b.spec == o.spec)
    && (b.terminating ==> o.terminating)
  }

  /** `b` is the object itself or an earlier version of it. */
  predicate Earlier(b: Obj, o: Obj) {
    b.rv <= o.rv && (b.rv == o.rv ==> o == b) && Follows(b, o)
  }

  /** A copy is the stored version, older than it, or of an object from before it. */
  predicate BaseOk(s: State, b: Obj) {
    && b.uid < s.nextUid && b.rv < s.nextRv && HistOk(b.history, s.now)
    && (s.store.Some? ==> b.uid <= s.store.value.uid)
    && (SameObject(s.store, b) ==> Earlier(b, s.store.value))
  }

  /** Only the reconciler adds entries and moves phases, so while it holds a copy the stored object is in the
      copy's phases, or is a successor object nobody has worked on. */
  ghost predicate WorkBaseOk(s: State, b: Obj) {
    && BaseOk(s, b) && LogFits(s, b) && LogKnown(s.log, b) && AllLicensed(s.log, b.uid, b.history)
    && (SameObject(s.store, b) ==> SamePhases(b.history, s.store.value.history))
    && (s.store.Some? && !SameObject(s.store, b) ==> s.store.value.history == [])
  }

  // ---- The invariant ------------------------------------------------------------------------------------

  ghost predicate StoreOk(s: State) {
    s.store.Some? ==>
      var o := s.store.value;
      && o.uid < s.nextUid && o.rv < s.nextRv && HistOk(o.history, s.now)
      && AllLicensed(s.log, o.uid, o.history) && LogFits(s, o) && LogKnown(s.log, o)
      && (o.edits == 0 && InPhase(o, Failed) ==> !CV.Commenced(s.doc, o.spec.desired))
  }

  /** A history about to be written changes one entry, along an edge, and would keep the store well formed. */
  ghost predicate ToWriteOk(s: State, b: Obj, hist: seq<History>) {
    && Touches(b, hist)
    && var h := hist[Cur(b)];
       && EntryOk(h, s.now) && Evolves(b.history[Cur(b)], h, b.terminating)
       && (h.phase.Upgrading? ==> Licensed(s.log, b.uid, h.version))
       && (h.phase.Failed? ==> !CV.Commenced(s.doc, b.spec.desired))
  }

  predicate CreateOk(s: State, b: Obj, hist: seq<History>) {
    && !HasEntry(b) && |hist| == |b.history| + 1 && hist[1..] == b.history
    && hist[0].version == b.spec.desired.version && EntryOk(hist[0], s.now)
    && (hist[0].phase.New? || (hist[0].phase.Upgrading? && CV.Commenced(s.doc, b.spec.desired)))
  }

  /** Going back to New is only attempted once the stored object has moved on, or was being deleted anyway. */
  predicate ResetOk(s: State, b: Obj, hist: seq<History>) {
    && InPhase(b, Pending) && hist == With(b, b.history[Cur(b)].(phase := New))
    && (Matches(s.store, b) ==> b.terminating)
  }

  /** The copy a pass works on. */
  function Held(w: Work): Option<Obj> {
    if w.Idle? || w.Crashed? then None else Some(w.base)
  }

  /** What each point of a pass knows about its copy and the history it is about to write. */
  ghost predicate WorkFacts(s: State) {
    match s.work
    case Idle => true
    case Loaded(b) => true
    case Creating(b, hist) => CreateOk(s, b, hist)
    case Deciding(b) => HasEntry(b)
    case Accepted(b) => InPhase(b, Pending) && ApprovedBefore(s.log, |s.log|, s.pass, b.uid, b.spec, b.edits)
    case Opening(b, hist) => InPhase(b, Pending) && ToWriteOk(s, b, hist) && hist[Cur(b)].phase.Upgrading?
    case Checking(b) => InPhase(b, Upgrading)
    case Failing(b) => InPhase(b, Upgrading) && !CV.Commenced(s.doc, b.spec.desired)
    case Stepping(b, hist, i) => StepFacts(s, b, hist, i)
    case Running(b, hist, i) => StepFacts(s, b, hist, i)
    case Closing(b, hist) =>
      && Touches(b, hist) && !InPhase(b, Failed) && !InPhase(b, Upgraded)
      && (if hist[Cur(b)].phase.New? then ResetOk(s, b, hist) else ToWriteOk(s, b, hist))
    case Crashed => false
  }

  ghost predicate StepFacts(s: State, b: Obj, hist: seq<History>, i: nat) {
    && InPhase(b, Upgrading) && ToWriteOk(s, b, hist) && hist[Cur(b)].phase.Upgrading?
    && i < STEP_COUNT && StepsDone(s.log, s.pass, i) && WindowPassed(s, b)
  }

  ghost predicate WorkOk(s: State) {
    && WorkFacts(s)
    && (Held(s.work).Some? ==> WorkBaseOk(s, Held(s.work).value))
  }

  predicate PoolOk(s: State) {
    match s.pool
    case PoolIdle => true
    case PoolLoaded(b, _, _) => BaseOk(s, b)
    case PoolWriting(b, hist) =>
      && BaseOk(s, b) && HistOk(hist, s.now) && SamePhases(b.history, hist)
      && HistEvolves(b.history, hist, false)
  }

  ghost predicate Inv(s: State) {
    LogSound(s) && StoreOk(s) && WorkOk(s) && PoolOk(s)
  }
}

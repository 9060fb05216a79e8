/** Every transition of the lifecycle keeps the invariant. */
module LifecycleSteps {
  import opened Kube
  import opened UpgradeStatus
  import opened Lifecycle
  import opened LifecycleInvariant
  import StepRunner
  import CV = ClusterVersion

  // ---- Growing logs and clocks ---------------------------------------------------------------------------

  lemma LicenseKept(log: seq<Entry>, log': seq<Entry>, uid: nat, version: string)
    requires log <= log' && Licensed(log, uid, version)
    ensures Licensed(log', uid, version)
  {
    if ClearedVersion(log, uid, version) {
      var spec, edits :| Cleared(log, uid, spec, edits) && spec.desired.version == version;
      var k: nat :| ClearedAt(log, k, uid, spec, edits);
      ApprovalKept(log, log', k, log[k].pass, uid, spec, edits);
      assert ClearedAt(log', k, uid, spec, edits);
      assert Cleared(log', uid, spec, edits);
    } else {
      var k :| 0 <= k < |log| && log[k].Adopted? && log[k].uid == uid && log[k].version == version;
      assert log'[k] == log[k];
    }
  }

  lemma ApprovalKept(log: seq<Entry>, log': seq<Entry>, k: nat, p: nat, uid: nat, spec: Spec, edits: nat)
    requires log <= log' && ApprovedBefore(log, k, p, uid, spec, edits)
    ensures ApprovedBefore(log', k, p, uid, spec, edits)
  {
    var i :| 0 <= i < k && i < |log| && log[i].Approved? && log[i].pass == p && log[i].uid == uid
             && log[i].spec == spec && log[i].edits == edits && Due(spec, log[i].at);
    assert log'[i] == log[i];
  }

  lemma LicensesKept(log: seq<Entry>, log': seq<Entry>, uid: nat, hist: seq<History>)
    requires log <= log' && AllLicensed(log, uid, hist)
    ensures AllLicensed(log', uid, hist)
  {
    hide Licensed;
    forall i | 0 <= i < |hist| && hist[i].phase.Upgrading? ensures Licensed(log', uid, hist[i].version) {
      LicenseKept(log, log', uid, hist[i].version);
    }
  }

  lemma HistLater(hist: seq<History>, now: Time, now': Time)
    requires HistOk(hist, now) && now <= now'
    ensures HistOk(hist, now')
  {
  }

  // ---- What others may do while a copy is held -----------------------------------------------------------

  /** The stored object is left alone, removed, replaced by a new object, or given a newer version. */
  predicate StoreMoves(s: State, s': State) {
    && s.now <= s'.now && s.nextUid <= s'.nextUid && s.nextRv <= s'.nextRv
    && (s'.store.Some? && s'.store != s.store ==>
          var o := s'.store.value;
          || (s.nextUid <= o.uid && o.history == [])
          || (SameObject(s.store, o) && s.nextRv <= o.rv && Follows(s.store.value, o)))
  }

  predicate PhasesKept(s: State, s': State) {
    s'.store.Some? && SameObject(s.store, s'.store.value) ==>
      SamePhases(s.store.value.history, s'.store.value.history)
  }

  lemma BaseFrame(s: State, s': State, b: Obj)
    requires BaseOk(s, b) && StoreMoves(s, s')
    requires s.store.Some? ==> s.store.value.rv < s.nextRv && s.store.value.uid < s.nextUid
    ensures BaseOk(s', b)
    ensures !Matches(s.store, b) ==> !Matches(s'.store, b)
  {
    HistLater(b.history, s.now, s'.now);
  }

  lemma ToWriteFrame(s: State, s': State, b: Obj, hist: seq<History>)
    requires ToWriteOk(s, b, hist) && s'.doc == s.doc && s.log <= s'.log && s.now <= s'.now
    ensures ToWriteOk(s', b, hist)
  {
    hide Licensed, Cur, With;
    if hist[Cur(b)].phase.Upgrading? {
      LicenseKept(s.log, s'.log, b.uid, hist[Cur(b)].version);
    }
  }

  lemma CreateFrame(s: State, s': State, b: Obj, hist: seq<History>)
    requires CreateOk(s, b, hist) && s'.doc == s.doc && s.now <= s'.now
    ensures CreateOk(s', b, hist)
  {
    hide Cur;
  }

  /** Nothing a pass knows depends on the store, save that its reset does not match. */
  lemma WorkFactsFrame(s: State, s': State)
    requires WorkFacts(s) && s'.work == s.work && s'.pass == s.pass && s'.doc == s.doc
    requires s.log == s'.log && s.now <= s'.now
    requires Held(s.work).Some? && !Matches(s.store, Held(s.work).value) ==> !Matches(s'.store, Held(s.work).value)
    ensures WorkFacts(s')
  {
    hide ToWriteOk, CreateOk, Cur, With, ApprovedBefore;
    match s.work
    case Creating(b, hist) => CreateFrame(s, s', b, hist);
    case Opening(b, hist) => ToWriteFrame(s, s', b, hist);
    case Stepping(b, hist, i) => ToWriteFrame(s, s', b, hist);
    case Running(b, hist, i) => ToWriteFrame(s, s', b, hist);
    case Closing(b, hist) => if !hist[Cur(b)].phase.New? { ToWriteFrame(s, s', b, hist); }
    case _ =>
  }

  lemma WorkFrame(s: State, s': State)
    requires WorkOk(s) && s'.work == s.work && s'.pass == s.pass && s'.doc == s.doc && s'.log == s.log
    requires StoreMoves(s, s') && PhasesKept(s, s')
    requires s.store.Some? ==> s.store.value.rv < s.nextRv && s.store.value.uid < s.nextUid
    ensures WorkOk(s')
  {
    hide WorkFacts, HistOk, LogFits, AllLicensed;
    if Held(s.work).Some? {
      var b := Held(s.work).value;
      BaseFrame(s, s', b);
      LogFitsFrame(s, s', b);
    }
    WorkFactsFrame(s, s');
  }

  lemma LogFitsFrame(s: State, s': State, o: Obj)
    requires LogFits(s, o) && s'.log == s.log && CV.DesiredUpdate(s'.doc) == CV.DesiredUpdate(s.doc)
    ensures LogFits(s', o)
  {
  }

  lemma PoolFrame(s: State, s': State)
    requires PoolOk(s) && s'.pool == s.pool && StoreMoves(s, s')
    requires s.store.Some? ==> s.store.value.rv < s.nextRv && s.store.value.uid < s.nextUid
    ensures PoolOk(s')
  {
    hide BaseOk, HistOk, HistEvolves;
    match s.pool
    case PoolIdle =>
    case PoolLoaded(b, _, _) => BaseFrame(s, s', b);
    case PoolWriting(b, hist) =>
      BaseFrame(s, s', b);
      HistLater(hist, s.now, s'.now);
  }

  // ---- The environment ---------------------------------------------------------------------------------------

  /** The store changes hands; nobody's copy, log or commitment does. */
  lemma StoreMovesKeepInv(s: State, s': State)
    requires Inv(s) && StoreOk(s') && StoreMoves(s, s') && PhasesKept(s, s')
    requires s'.work == s.work && s'.pool == s.pool && s'.pass == s.pass && s'.doc == s.doc && s'.log == s.log
    ensures Inv(s')
  {
    hide WorkOk, PoolOk, HistOk, AllLicensed, LogFits, PhasesKept;
    WorkFrame(s, s');
    PoolFrame(s, s');
  }

  lemma PutOk(s: State, spec: Spec)
    requires LogSound(s)
    ensures StoreOk(Put(s, spec))
  {
  }

  /** A newer version of the stored object with the same history. */
  lemma NewerOk(s: State, o': Obj)
    requires StoreOk(s) && s.store.Some?
    requires Follows(s.store.value, o') && o'.history == s.store.value.history && o'.rv == s.nextRv
    ensures StoreOk(s.(store := Some(o'), nextRv := s.nextRv + 1))
    ensures var s' := s.(store := Some(o'), nextRv := s.nextRv + 1); StoreMoves(s, s') && PhasesKept(s, s')
  {
    hide HistOk, Licensed;
    var o := s.store.value;
    var s' := s.(store := Some(o'), nextRv := s.nextRv + 1);
    forall k | 0 <= k < |s.log| ensures EntryFits(s'.log[k], s'.doc, o') {
      assert EntryFits(s.log[k], s.doc, o);
    }
  }

  lemma TickKeepsInv(s: State, d: nat)
    requires Inv(s)
    ensures Inv(s.(now := s.now + d))
  {
    hide WorkOk, PoolOk, HistOk, AllLicensed, LogFits;
    var s' := s.(now := s.now + d);
    if s.store.Some? {
      HistLater(s.store.value.history, s.now, s'.now);
      LogFitsFrame(s, s', s.store.value);
    }
    StoreMovesKeepInv(s, s');
  }

  predicate IsEnvironment(e: Event) {
    e.Tick? || e.CvoPublishes? || e.Delete? || e.Create? || e.Edit? || e.Touch? || e.Mark?
  }

  predicate IsPool(e: Event) {
    e.PoolGet? || e.PoolStamp? || e.PoolUpdate? || e.PoolError?
  }

  lemma MarkKeepsInv(s: State)
    requires Inv(s)
    ensures Inv(MarkDeleted(s))
    ensures StoreOk(MarkDeleted(s)) && StoreMoves(s, MarkDeleted(s)) && PhasesKept(s, MarkDeleted(s))
  {
    hide WorkOk, PoolOk, HistOk, AllLicensed, LogFits;
    if s.store.Some? && !s.store.value.terminating {
      NewerOk(s, s.store.value.(rv := s.nextRv, terminating := true));
      StoreMovesKeepInv(s, MarkDeleted(s));
    }
  }

  lemma EnvironmentKeepsInv(s: State, e: Event)
    requires Inv(s) && IsEnvironment(e)
    ensures Inv(Next(s, e))
  {
    hide StoreOk, WorkOk, PoolOk;
    match e
    case Tick(d) => TickKeepsInv(s, d);
    case CvoPublishes(us) => SameKeepsInv(s, Next(s, e));
    case Delete => RemoveKeepsInv(s);
    case Create(spec) => if s.store.None? { PutKeepsInv(s, spec); }
    case Edit(spec) => EditKeepsInv(s, spec);
    case Touch => BumpKeepsInv(s);
    case Mark => MarkKeepsInv(s);
  }

  lemma SameKeepsInv(s: State, s': State)
    requires Inv(s) && s' == s.(updates := s'.updates)
    ensures Inv(s')
  {
    hide WorkOk, PoolOk, HistOk, AllLicensed;
    if s.store.Some? {
      LogFitsFrame(s, s', s.store.value);
    }
    StoreMovesKeepInv(s, s');
  }

  lemma RemoveKeepsInv(s: State)
    requires Inv(s)
    ensures Inv(s.(store := None))
  {
    hide WorkOk, PoolOk, HistOk, AllLicensed, LogFits;
    StoreMovesKeepInv(s, s.(store := None));
  }

  lemma PutKeepsInv(s: State, spec: Spec)
    requires Inv(s)
    ensures Inv(Put(s, spec))
  {
    hide WorkOk, PoolOk, HistOk, AllLicensed, LogFits;
    PutOk(s, spec);
    StoreMovesKeepInv(s, Put(s, spec));
  }

  lemma EditKeepsInv(s: State, spec: Spec)
    requires Inv(s)
    ensures Inv(EditSpec(s, spec))
  {
    hide WorkOk, PoolOk, HistOk, AllLicensed, LogFits;
    if s.store.Some? && s.store.value.spec != spec {
      var o := s.store.value;
      NewerOk(s, o.(rv := s.nextRv, spec := spec, edits := o.edits + 1));
      StoreMovesKeepInv(s, EditSpec(s, spec));
    }
  }

  lemma BumpKeepsInv(s: State)
    requires Inv(s)
    ensures Inv(Bump(s))
  {
    hide WorkOk, PoolOk, HistOk, AllLicensed, LogFits;
    if s.store.Some? {
      NewerOk(s, s.store.value.(rv := s.nextRv));
      StoreMovesKeepInv(s, Bump(s));
    }
  }

  // ---- The MachineConfigPool controller ----------------------------------------------------------------------

  lemma StampEvolves(h: History, machines: nat, updated: nat, now: Time)
    requires EntryOk(h, now) && h.phase.Upgrading?
    ensures var h' := Stamp(h, machines, updated, now);
            EntryOk(h', now) && Evolves(h, h', false) && h'.phase.Upgrading?
  {
  }

  lemma StampedOk(b: Obj, h: History, now: Time)
    requires HasEntry(b) && HistOk(b.history, now) && EntryOk(h, now)
    requires Evolves(b.history[Cur(b)], h, false) && h.phase == b.history[Cur(b)].phase
    requires h.version == b.spec.desired.version
    ensures SetHistory(b.history, h) == With(b, h)
    ensures HistOk(With(b, h), now) && SamePhases(b.history, With(b, h)) && HistEvolves(b.history, With(b, h), false)
  {
    hide EntryOk, Evolves, FindHistory;
    SetEntry(b, h);
    TouchedHistory(b, With(b, h), now);
    forall i | 0 <= i < |b.history| ensures Evolves(b.history[i], With(b, h)[i], false) {
      EvolvesToItself(b.history[i]);
    }
  }

  lemma EvolvesToItself(h: History)
    ensures Evolves(h, h, false)
  {
  }

  lemma PoolPassKeepsInv(s: State, s': State)
    requires Inv(s) && PoolOk(s') && s' == s.(pool := s'.pool)
    ensures Inv(s')
  {
    hide PoolOk, HistOk, AllLicensed, EntryFits, WorkFacts;
    WorkFactsFrame(s, s');
  }

  lemma PoolStampKeepsInv(s: State)
    requires Inv(s)
    ensures Inv(OnPoolStamp(s))
  {
    hide WorkOk, StoreOk, HistEvolves, EntryOk, Evolves, With;
    var s' := OnPoolStamp(s);
    if s.pool.PoolLoaded? && s'.pool.PoolWriting? {
      var b := s.pool.base;
      EntryAt(b);
      var h := b.history[Cur(b)];
      StampEvolves(h, s.pool.machines, s.pool.updated, s.now);
      StampedOk(b, Stamp(h, s.pool.machines, s.pool.updated, s.now), s.now);
    }
    PoolPassKeepsInv(s, s');
  }

  lemma PoolUpdateKeepsInv(s: State, f: Fault)
    requires Inv(s)
    ensures Inv(OnPoolUpdate(s, f))
  {
    hide HistOk, AllLicensed, WorkOk, LogFits, HistEvolves;
    if s.pool.PoolWriting? {
      var b, hist := s.pool.base, s.pool.hist;
      var s' := OnPoolUpdate(s, f);
      if s'.store != s.store {
        PoolWriteOk(s, b, hist);
      }
      PoolPassKeepsInv(s, s.(pool := PoolIdle));
      StoreMovesKeepInv(s.(pool := PoolIdle), s');
    }
  }

  /** The pool controller's write keeps every phase, so it keeps the store's invariant. */
  lemma PoolWriteOk(s: State, b: Obj, hist: seq<History>)
    requires StoreOk(s) && s.store == Some(b) && HistOk(hist, s.now) && SamePhases(b.history, hist)
    ensures var s' := s.(store := Some(b.(rv := s.nextRv, history := hist)), nextRv := s.nextRv + 1, pool := PoolIdle);
            StoreOk(s') && StoreMoves(s, s') && PhasesKept(s, s')
  {
    hide HistOk, Licensed, EntryFits;
    var o' := b.(rv := s.nextRv, history := hist);
    HistoryUnique(hist, b.spec.desired.version, Cur(b));
    var s' := s.(store := Some(o'), nextRv := s.nextRv + 1, pool := PoolIdle);
    SameSpecFits(s, s', b, o');
    SamePhasesKnown(s.log, b, o');
  }

  lemma PhaseAtSame(hist: seq<History>, hist': seq<History>, version: string)
    requires SamePhases(hist, hist')
    ensures PhaseAt(hist', version) == PhaseAt(hist, version)
  {
    HistoryUnique(hist', version, FindHistory(hist, version));
  }

  lemma SamePhasesKnown(log: seq<Entry>, o: Obj, o': Obj)
    requires LogKnown(log, o) && o'.uid == o.uid && SamePhases(o.history, o'.history)
    ensures LogKnown(log, o')
  {
    hide PhaseAt, SamePhases;
    forall k | 0 <= k < |log| ensures EntryKnown(log[k], o'.uid, o'.history) {
      assert EntryKnown(log[k], o.uid, o.history);
      if log[k].Approved? {
        PhaseAtSame(o.history, o'.history, log[k].spec.desired.version);
      } else if log[k].Adopted? {
        PhaseAtSame(o.history, o'.history, log[k].version);
      }
    }
  }

  lemma SameSpecFits(s: State, s': State, o: Obj, o': Obj)
    requires LogFits(s, o) && s'.log == s.log && s'.doc == s.doc
    requires o'.uid == o.uid && o'.edits == o.edits && o'.spec == o.spec
    ensures LogFits(s', o')
  {
  }

  lemma PoolKeepsInv(s: State, e: Event)
    requires Inv(s) && IsPool(e)
    ensures Inv(Next(s, e))
  {
    hide StoreOk, WorkOk, HistOk;
    match e
    case PoolGet(m, u) => PoolGetKeepsInv(s, m, u);
    case PoolStamp => PoolStampKeepsInv(s);
    case PoolUpdate(f) => PoolUpdateKeepsInv(s, f);
    case PoolError => PoolPassKeepsInv(s, s.(pool := PoolIdle));
  }

  lemma PoolGetKeepsInv(s: State, machines: nat, updated: nat)
    requires Inv(s)
    ensures Inv(OnPoolGet(s, machines, updated))
  {
    hide WorkOk, HistOk, AllLicensed, LogFits;
    PoolPassKeepsInv(s, OnPoolGet(s, machines, updated));
  }

  // ---- The reconciler: local steps ------------------------------------------------------------------------------

  /** A pass moves on with its copy, or lets go of it. */
  lemma PassKeepsInv(s: State, s': State)
    requires Inv(s) && s' == s.(work := s'.work) && WorkFacts(s')
    requires Held(s'.work).None? || Held(s'.work) == Held(s.work)
    ensures Inv(s')
  {
    hide WorkFacts, PoolOk, HistOk, AllLicensed, EntryFits;
    PoolSame(s, s');
  }

  /** What a pass with copy `b` may log. */
  predicate MayLog(s: State, b: Obj, e: Entry) {
    && !e.Adopted?
    && (e.Approved? ==> e.uid == b.uid && e.spec == b.spec && e.edits == b.edits && InPhase(b, Pending))
  }

  lemma LoggedFits(s: State, s': State, b: Obj, e: Entry, o: Obj)
    requires LogFits(s, o) && MayLog(s, b, e) && s'.log == s.log + [e] && s'.doc == s.doc
    requires b.uid <= o.uid && (b.uid == o.uid ==> Follows(b, o))
    ensures LogFits(s', o)
  {
    forall k | 0 <= k < |s'.log| ensures EntryFits(s'.log[k], s'.doc, o) {
      if k < |s.log| {
        assert EntryFits(s.log[k], s.doc, o);
      }
    }
  }

  lemma LoggedKnown(log: seq<Entry>, b: Obj, e: Entry, o: Obj)
    requires LogKnown(log, o) && !e.Adopted?
    requires e.Approved? ==> e.uid == b.uid && e.spec == b.spec && InPhase(b, Pending)
    requires b.uid == o.uid ==> SamePhases(b.history, o.history)
    ensures LogKnown(log + [e], o)
  {
    forall k | 0 <= k < |log + [e]| ensures EntryKnown((log + [e])[k], o.uid, o.history) {
      if k < |log| {
        assert EntryKnown(log[k], o.uid, o.history);
      } else if e.Approved? && e.uid == o.uid {
        PhaseAtSame(b.history, o.history, e.spec.desired.version);
      }
    }
  }

  /** A version that is approved is pending, one that was adopted is not. */
  lemma LoggedExclusive(log: seq<Entry>, b: Obj, e: Entry)
    requires Exclusive(log) && LogKnown(log, b) && !e.Adopted?
    requires e.Approved? ==> e.uid == b.uid && e.spec == b.spec && InPhase(b, Pending)
    ensures Exclusive(log + [e])
  {
    forall k | 0 <= k < |log| && e.Approved? && log[k].Adopted? && log[k].uid == e.uid
      ensures log[k].version != e.spec.desired.version
    {
      assert EntryKnown(log[k], b.uid, b.history);
    }
  }

  lemma LoggedKeepsBase(s: State, s': State, b: Obj, e: Entry)
    requires LogSound(s) && StoreOk(s) && WorkBaseOk(s, b) && MayLog(s, b, e)
    requires s' == s.(work := s'.work, log := s.log + [e])
    ensures LogSound(s') && StoreOk(s') && WorkBaseOk(s', b)
  {
    hide HistOk, LogFits, AllLicensed, LogKnown, Exclusive, SamePhases;
    LoggedKnown(s.log, b, e, b);
    LoggedExclusive(s.log, b, e);
    LoggedFits(s, s', b, e, b);
    LicensesKept(s.log, s'.log, b.uid, b.history);
    if s.store.Some? {
      LoggedFits(s, s', b, e, s.store.value);
      LoggedKnown(s.log, b, e, s.store.value);
      LicensesKept(s.log, s'.log, s.store.value.uid, s.store.value.history);
    }
  }

  /** A pass moves on with its copy and logs something about it. */
  lemma LoggingKeepsInv(s: State, s': State, e: Entry)
    requires Inv(s) && Held(s.work).Some? && MayLog(s, Held(s.work).value, e)
    requires s' == s.(work := s'.work, log := s.log + [e]) && WorkFacts(s')
    requires Held(s'.work).None? || Held(s'.work) == Held(s.work)
    ensures Inv(s')
  {
    hide WorkFacts, PoolOk, StoreOk, WorkBaseOk, LogSound;
    LoggedKeepsBase(s, s', Held(s.work).value, e);
    PoolSame(s, s');
  }

  lemma PoolSame(s: State, s': State)
    requires PoolOk(s) && s'.pool == s.pool && s'.store == s.store && s'.now == s.now
    requires s'.nextUid == s.nextUid && s'.nextRv == s.nextRv
    ensures PoolOk(s')
  {
    hide HistOk, HistEvolves;
  }

  lemma GetKeepsInv(s: State)
    requires Inv(s)
    ensures Inv(OnGet(s))
  {
    hide HistOk, AllLicensed, EntryFits, PoolOk;
    PoolSame(s, OnGet(s));
  }

  lemma FreshEntryOk(version: string, preceding: string, now: Time)
    ensures EntryOk(NewEntry(version, preceding, New, None), now)
    ensures EntryOk(NewEntry(version, preceding, Upgrading, Some(now)), now)
  {
  }

  lemma InspectKeepsInv(s: State, cvOk: bool, preceding: string)
    requires Inv(s)
    ensures Inv(OnInspect(s, cvOk, preceding))
  {
    hide StoreOk, WorkBaseOk, PoolOk, LogSound, EntryOk;
    var s' := OnInspect(s, cvOk, preceding);
    if s.work.Loaded? {
      var b := s.work.base;
      var d := b.spec.desired;
      EntryAt(b);
      FreshEntryOk(d.version, preceding, s.now);
      PassKeepsInv(s, s');
    }
  }

  /** An entry of the copy, rewritten along an edge. */
  lemma RewriteOk(s: State, b: Obj, h: History)
    requires HasEntry(b) && EntryOk(h, s.now) && Evolves(b.history[Cur(b)], h, b.terminating)
    requires h.phase.Upgrading? ==> Licensed(s.log, b.uid, h.version)
    requires h.phase.Failed? ==> !CV.Commenced(s.doc, b.spec.desired)
    ensures EntryOf(b) == Some(b.history[Cur(b)]) && SetHistory(b.history, h) == With(b, h)
    ensures ToWriteOk(s, b, With(b, h))
  {
    hide Licensed, EntryOk;
    SetEntry(b, h);
  }

  lemma ApproveKeepsInv(s: State, s': State)
    requires Inv(s) && s.work.Deciding? && InPhase(s.work.base, Pending) && Due(s.work.base.spec, s.now)
    requires var b := s.work.base;
             s' == s.(work := Accepted(b), log := s.log + [Approved(s.pass, b.uid, s.now, b.spec, b.edits)])
    ensures Inv(s')
  {
    hide StoreOk, WorkBaseOk, PoolOk, LogSound;
    var b := s.work.base;
    assert s'.log[|s.log|] == Approved(s.pass, b.uid, s.now, b.spec, b.edits);
    LoggingKeepsInv(s, s', s'.log[|s.log|]);
  }

  lemma MarkPendingKeepsInv(s: State, s': State)
    requires Inv(s) && s.work.Deciding? && (InPhase(s.work.base, New) || InPhase(s.work.base, Pending))
    requires var b := s.work.base;
             s' == s.(work := Closing(b, SetHistory(b.history, b.history[Cur(b)].(phase := Pending))))
    ensures Inv(s')
  {
    hide StoreOk, PoolOk, LogSound, Licensed, LogFits;
    var b := s.work.base;
    assert EntryOk(b.history[Cur(b)], s.now);
    RewriteOk(s, b, b.history[Cur(b)].(phase := Pending));
    PassKeepsInv(s, s');
  }

  lemma DecideKeepsInv(s: State, valid: bool, available: bool)
    requires Inv(s)
    ensures Inv(OnDecide(s, valid, available))
  {
    hide StoreOk, PoolOk, LogSound, SetHistory, AllLicensed, LogFits, Due;
    if s.work.Deciding? {
      var b := s.work.base;
      var s' := OnDecide(s, valid, available);
      EntryAt(b);
      if s'.work.Accepted? {
        ApproveKeepsInv(s, s');
      } else if s'.work.Closing? {
        MarkPendingKeepsInv(s, s');
      } else {
        assert EntryOk(b.history[Cur(b)], s.now);
        PassKeepsInv(s, s');
      }
    }
  }

  // ---- The reconciler: refreshing and writing --------------------------------------------------------------------

  lemma ClearedNow(s: State, log': seq<Entry>, b: Obj)
    requires ApprovedBefore(s.log, |s.log|, s.pass, b.uid, b.spec, b.edits) && log' == s.log + [Unchanged(s.pass, b.uid)]
    ensures Licensed(log', b.uid, b.spec.desired.version)
  {
    ApprovalKept(s.log, log', |s.log|, s.pass, b.uid, b.spec, b.edits);
    assert log'[|s.log|] == Unchanged(s.pass, b.uid);
    assert ClearedAt(log', |s.log|, b.uid, b.spec, b.edits);
    assert Cleared(log', b.uid, b.spec, b.edits);
  }

  lemma RefreshUnchangedKeepsInv(s: State)
    requires Inv(s)
    ensures Inv(OnRefreshUnchanged(s))
  {
    hide StoreOk, PoolOk, LogSound, Licensed, LogFits, AllLicensed, ApprovedBefore, SetHistory;
    if s.work.Accepted? {
      var s' := OnRefreshUnchanged(s);
      var b := s.work.base;
      EntryAt(b);
      assert EntryOk(b.history[Cur(b)], s.now);
      ClearedNow(s, s'.log, b);
      RewriteOk(s', b, b.history[Cur(b)].(phase := Upgrading, start := Some(s.now)));
      LoggingKeepsInv(s, s', Unchanged(s.pass, b.uid));
    }
  }

  /** What the refresh does to the store. */
  function Changed(s: State, c: Change): State {
    match c
    case Removed => s.(store := None)
    case Marked => MarkDeleted(s)
    case Replaced(spec) => Put(s, spec)
  }

  /** After a reported change the pass's copy still matches only if it was terminating already. */
  lemma ChangedKeepsInv(s: State, c: Change)
    requires Inv(s)
    ensures Inv(Changed(s, c))
    ensures Held(s.work).Some? && Matches(Changed(s, c).store, Held(s.work).value) ==> Held(s.work).value.terminating
  {
    hide HistOk, AllLicensed, LogFits, WorkFacts, PoolOk;
    match c
    case Removed => RemoveKeepsInv(s);
    case Marked => MarkKeepsInv(s);
    case Replaced(spec) => PutKeepsInv(s, spec);
  }

  lemma RefreshChangedKeepsInv(s: State, c: Change)
    requires Inv(s)
    ensures Inv(OnRefreshChanged(s, c))
  {
    hide StoreOk, PoolOk, LogSound, WorkBaseOk, Changed;
    if s.work.Accepted? {
      var b := s.work.base;
      var s' := OnRefreshChanged(s, c);
      assert s' == Changed(s, c).(work := s'.work) && Changed(s, c).work == s.work by { ChangedIs(s, c); }
      ChangedKeepsInv(s, c);
      SetEntry(b, b.history[Cur(b)].(phase := New));
      PassKeepsInv(Changed(s, c), s');
    }
  }

  lemma ChangedIs(s: State, c: Change)
    ensures Changed(s, c).work == s.work && Changed(s, c).pool == s.pool && Changed(s, c).log == s.log
    ensures s.work.Accepted? && EntryOf(s.work.base).Some? ==>
              OnRefreshChanged(s, c) == Changed(s, c).(work := OnRefreshChanged(s, c).work)
  {
  }

  /** No entry is lost, and none that has started goes back. */
  ghost predicate Retains(hist: seq<History>, hist': seq<History>) {
    forall v :: (PhaseAt(hist, v).Some? ==> PhaseAt(hist', v).Some?)
                && (Started(PhaseAt(hist, v)) ==> Started(PhaseAt(hist', v)))
  }

  lemma RetainsKnown(log: seq<Entry>, o: Obj, o': Obj)
    requires LogKnown(log, o) && o'.uid == o.uid && Retains(o.history, o'.history)
    ensures LogKnown(log, o')
  {
    hide PhaseAt;
    forall k | 0 <= k < |log| ensures EntryKnown(log[k], o'.uid, o'.history) {
      assert EntryKnown(log[k], o.uid, o.history);
    }
  }

  lemma TouchedRetains(b: Obj, hist: seq<History>)
    requires Touches(b, hist) && Evolves(b.history[Cur(b)], hist[Cur(b)], b.terminating)
    ensures Retains(b.history, hist)
  {
    hide Evolves;
    forall v ensures PhaseAt(b.history, v).Some? ==> PhaseAt(hist, v).Some?
      ensures Started(PhaseAt(b.history, v)) ==> Started(PhaseAt(hist, v))
    {
      HistoryUnique(hist, v, FindHistory(b.history, v));
      EvolvesStarted(b, hist);
    }
  }

  lemma EvolvesStarted(b: Obj, hist: seq<History>)
    requires Touches(b, hist) && Evolves(b.history[Cur(b)], hist[Cur(b)], b.terminating)
    ensures Started(Some(b.history[Cur(b)].phase)) ==> Started(Some(hist[Cur(b)].phase))
  {
  }

  lemma PrependRetains(h: History, hist: seq<History>)
    requires PhaseAt(hist, h.version).None?
    ensures Retains(hist, [h] + hist) && PhaseAt([h] + hist, h.version) == Some(h.phase)
  {
    forall v ensures v != h.version ==> PhaseAt([h] + hist, v) == PhaseAt(hist, v) {
      if v != h.version {
        assert ([h] + hist)[1..] == hist;
      }
    }
  }

  /** A history that may replace the copy's in the store. */
  ghost predicate Writable(s: State, b: Obj, hist: seq<History>) {
    && HistOk(hist, s.now) && AllLicensed(s.log, b.uid, hist) && Retains(b.history, hist)
    && (b.edits == 0 && InPhase(b.(history := hist), Failed) ==> !CV.Commenced(s.doc, b.spec.desired))
  }

  lemma TouchedWritable(s: State, b: Obj, hist: seq<History>)
    requires HistOk(b.history, s.now) && AllLicensed(s.log, b.uid, b.history) && ToWriteOk(s, b, hist)
    ensures Writable(s, b, hist)
  {
    hide Licensed, EntryOk, Retains;
    TouchedHistory(b, hist, s.now);
    TouchedRetains(b, hist);
    HistoryUnique(hist, b.spec.desired.version, Cur(b));
  }

  lemma CreatedHist(s: State, b: Obj, hist: seq<History>)
    requires HistOk(b.history, s.now) && CreateOk(s, b, hist)
    ensures HistOk(hist, s.now) && Cur(b.(history := hist)) == 0 && Retains(b.history, hist)
    ensures PhaseAt(hist, b.spec.desired.version) == Some(hist[0].phase)
  {
    hide EntryOk, Retains;
    assert hist == [hist[0]] + b.history;
    PrependRetains(hist[0], b.history);
    HistoryUnique(hist, b.spec.desired.version, 0);
    forall i | 0 < i < |hist| ensures hist[i] == b.history[i - 1] {
    }
  }

  lemma CreatedWritable(s: State, b: Obj, hist: seq<History>)
    requires HistOk(b.history, s.now) && AllLicensed(s.log, b.uid, b.history) && CreateOk(s, b, hist)
    requires hist[0].phase.New?
    ensures Writable(s, b, hist)
  {
    hide Licensed, HistOk, Retains;
    CreatedHist(s, b, hist);
    forall i | 0 < i < |hist| ensures hist[i] == b.history[i - 1] {
    }
  }

  /** A write by the reconciler, after which it lets go: it changes nothing, or turns the object it matched
      into one with the new history. */
  lemma WriteKeepsInv(s: State, b: Obj, hist: seq<History>, f: Fault)
    requires Inv(s) && Held(s.work) == Some(b) && Writable(s, b, hist)
    ensures var s' := Write(s, b, hist, f).(work := Idle);
            && Inv(s')
            && (Accepts(s, b, f) ==> s'.store.Some? && s'.store.value.history == hist && s'.store.value.spec == b.spec)
  {
    hide ToWriteOk, CreateOk, ResetOk, PoolOk, HistOk, AllLicensed, LogFits, LogKnown, Retains;
    var s0 := s.(work := Idle);
    var s' := Write(s, b, hist, f).(work := Idle);
    PassKeepsInv(s, s0);
    if s'.store != s.store {
      SameSpecFits(s, s', b, s'.store.value);
      RetainsKnown(s.log, b, s'.store.value);
      PoolFrame(s0, s');
    } else {
      assert s' == s0;
    }
  }

  /** From between passes, go on with the object as it is stored. */
  lemma HoldStored(s: State, w: Work)
    requires Inv(s) && s.work.Idle? && s.store.Some? && Held(w) == Some(s.store.value)
    requires WorkFacts(s.(work := w))
    ensures Inv(s.(work := w))
  {
    hide WorkFacts, PoolOk, HistOk, AllLicensed, EntryFits;
    PoolSame(s, s.(work := w));
  }

  /** The adoption of a version: its entry is stored and logged at once. */
  lemma AdoptionKeepsInv(s: State, b: Obj, hist: seq<History>)
    requires Inv(s) && s.work == Creating(b, hist) && s.store == Some(b) && hist[0].phase.Upgrading?
    ensures Inv(Entered(s, b, hist, Applied).(work := Idle))
    ensures Entered(s, b, hist, Applied).store == Some(b.(rv := s.nextRv, history := hist))
  {
    hide HistOk, PoolOk, AllLicensed, LogFits, LogKnown, Exclusive, Licensed, Retains;
    var e := Adopted(b.uid, b.spec.desired.version, b.edits);
    var o' := b.(rv := s.nextRv, history := hist);
    var s' := s.(store := Some(o'), nextRv := s.nextRv + 1, log := s.log + [e], work := Idle);
    assert |hist| != |b.history|;
    CreatedHist(s, b, hist);
    AdoptedLicensed(s, b, hist, s'.log);
    AdoptedFits(s, s', b, o');
    AdoptedKnown(s, b, o', e);
    assert s' == Entered(s, b, hist, Applied).(work := Idle);
    PoolFrame(s, s');
  }

  lemma AdoptedLicensed(s: State, b: Obj, hist: seq<History>, log': seq<Entry>)
    requires AllLicensed(s.log, b.uid, b.history) && CreateOk(s, b, hist)
    requires log' == s.log + [Adopted(b.uid, b.spec.desired.version, b.edits)]
    ensures AllLicensed(log', b.uid, hist)
  {
    hide ClearedVersion;
    LicensesKept(s.log, log', b.uid, b.history);
    assert log'[|s.log|] == Adopted(b.uid, b.spec.desired.version, b.edits);
    assert AdoptedVersion(log', b.uid, b.spec.desired.version);
    forall i | 0 < i < |hist| ensures hist[i] == b.history[i - 1] {
    }
  }

  lemma AdoptedFits(s: State, s': State, b: Obj, o': Obj)
    requires LogFits(s, b) && CV.Commenced(s.doc, b.spec.desired) && s'.doc == s.doc
    requires s'.log == s.log + [Adopted(b.uid, b.spec.desired.version, b.edits)]
    requires o'.uid == b.uid && o'.edits == b.edits && o'.spec == b.spec
    ensures LogFits(s', o')
  {
    forall k | 0 <= k < |s'.log| ensures EntryFits(s'.log[k], s'.doc, o') {
      if k < |s.log| {
        assert EntryFits(s.log[k], s.doc, b);
      }
    }
  }

  /** A version without an entry was never approved. */
  lemma AdoptedKnown(s: State, b: Obj, o': Obj, e: Entry)
    requires LogKnown(s.log, b) && Exclusive(s.log) && !HasEntry(b) && Retains(b.history, o'.history) && o'.uid == b.uid
    requires e == Adopted(b.uid, b.spec.desired.version, b.edits)
    requires Started(PhaseAt(o'.history, b.spec.desired.version))
    ensures LogKnown(s.log + [e], o') && Exclusive(s.log + [e])
  {
    hide Retains;
    RetainsKnown(s.log, b, o');
    forall k | 0 <= k < |s.log + [e]| ensures EntryKnown((s.log + [e])[k], o'.uid, o'.history) {
      if k < |s.log| {
        assert EntryKnown(s.log[k], o'.uid, o'.history);
      }
    }
    forall j | 0 <= j < |s.log| && s.log[j].Approved? && s.log[j].uid == e.uid
      ensures s.log[j].spec.desired.version != e.version
    {
      assert EntryKnown(s.log[j], b.uid, b.history);
    }
  }

  lemma CreatingUpdateKeepsInv(s: State, f: Fault)
    requires Inv(s) && s.work.Creating?
    ensures Inv(OnUpdate(s, f))
  {
    hide HistOk, AllLicensed, LogFits, LogKnown, PoolOk, LogSound, Writable;
    var b, hist := s.work.base, s.work.hist;
    if !(f.Lands() && Matches(s.store, b)) {
      assert OnUpdate(s, f) == s.(work := Idle);
      PassKeepsInv(s, OnUpdate(s, f));
    } else {
      EnteredKeepsInv(s, f);
      var s1 := Entered(s, b, hist, f);
      if f.Succeeds() {
        CreatedHasEntry(s, b, hist, s1.store.value);
        HoldStored(s1.(work := Idle), Deciding(s1.store.value));
      }
    }
  }

  lemma EnteredKeepsInv(s: State, f: Fault)
    requires Inv(s) && s.work.Creating? && f.Lands() && Matches(s.store, s.work.base)
    ensures var s1 := Entered(s, s.work.base, s.work.hist, f);
            && Inv(s1.(work := Idle))
            && s1.store.Some? && s1.store.value.history == s.work.hist && s1.store.value.spec == s.work.base.spec
  {
    hide HistOk, AllLicensed, LogFits, LogKnown, PoolOk, LogSound, Writable;
    var b, hist := s.work.base, s.work.hist;
    assert s.store == Some(b);
    if hist[0].phase.Upgrading? {
      AdoptionKeepsInv(s, b, hist);
    } else {
      CreatedWritable(s, b, hist);
      assert |hist| != |b.history|;
      WriteKeepsInv(s, b, hist, f);
    }
  }

  lemma CreatedHasEntry(s: State, b: Obj, hist: seq<History>, o: Obj)
    requires CreateOk(s, b, hist) && o.history == hist && o.spec == b.spec
    ensures HasEntry(o)
  {
    hide Licensed;
  }

  lemma TouchedPhase(s: State, b: Obj, hist: seq<History>, o: Obj)
    requires ToWriteOk(s, b, hist) && o.history == hist && o.spec == b.spec
    ensures Cur(o) == Cur(b) && HasEntry(o) && InPhase(o, hist[Cur(b)].phase)
  {
    hide Licensed, EntryOk, Evolves;
    HistoryUnique(hist, b.spec.desired.version, Cur(b));
  }

  lemma OpeningUpdateKeepsInv(s: State, f: Fault)
    requires Inv(s) && s.work.Opening?
    ensures Inv(OnUpdate(s, f))
  {
    hide HistOk, AllLicensed, LogFits, PoolOk, Writable, Write, Accepts, ToWriteOk;
    var b, hist := s.work.base, s.work.hist;
    TouchedWritable(s, b, hist);
    WriteKeepsInv(s, b, hist, f);
    var s1 := Write(s, b, hist, f);
    if Accepts(s, b, f) {
      TouchedPhase(s, b, hist, s1.store.value);
      HoldStored(s1.(work := Idle), Checking(s1.store.value));
    }
  }

  /** A reset that matches goes along an edge, since the object is terminating. */
  lemma ResetIsWritable(s: State, b: Obj, hist: seq<History>)
    requires ResetOk(s, b, hist) && HistOk(b.history, s.now) && b.terminating
    ensures ToWriteOk(s, b, hist)
  {
    hide Licensed;
    SetEntry(b, b.history[Cur(b)].(phase := New));
    assert EntryOk(b.history[Cur(b)], s.now);
  }

  lemma ClosingUpdateKeepsInv(s: State, f: Fault)
    requires Inv(s) && s.work.Closing?
    ensures Inv(OnUpdate(s, f))
  {
    hide HistOk, AllLicensed, LogFits, PoolOk, Writable, ToWriteOk;
    var b, hist := s.work.base, s.work.hist;
    if hist[Cur(b)].phase.New? && Matches(s.store, b) {
      ResetIsWritable(s, b, hist);
    }
    if Matches(s.store, b) {
      TouchedWritable(s, b, hist);
      WriteKeepsInv(s, b, hist, f);
    } else {
      assert OnUpdate(s, f) == s.(work := Idle);
      PassKeepsInv(s, OnUpdate(s, f));
    }
  }

  lemma UpdateKeepsInv(s: State, f: Fault)
    requires Inv(s)
    ensures Inv(OnUpdate(s, f))
  {
    hide Inv;
    match s.work
    case Creating(_, _) => CreatingUpdateKeepsInv(s, f);
    case Opening(_, _) => OpeningUpdateKeepsInv(s, f);
    case Closing(_, _) => ClosingUpdateKeepsInv(s, f);
    case _ =>
  }

  // ---- The reconciler: giving up and running the steps ------------------------------------------------------------

  lemma StartStepsOk(s: State, s': State)
    requires Inv(s) && s.work.Checking? && s.log <= s'.log && s'.doc == s.doc && s'.now == s.now
    ensures ToWriteOk(s', s.work.base, s.work.base.history)
  {
    hide PoolOk, StoreOk, LogFits, Licensed;
    var b := s.work.base;
    LicensesKept(s.log, s'.log, b.uid, b.history);
    TouchesItself(b);
    assert EntryOk(b.history[Cur(b)], s.now);
  }

  lemma CheckKeepsInv(s: State, cvOk: bool, window: nat)
    requires Inv(s)
    ensures Inv(OnCheck(s, cvOk, window))
  {
    hide StoreOk, PoolOk, LogFits, AllLicensed, ToWriteOk, LogSound;
    if s.work.Checking? {
      var b := s.work.base;
      EntryAt(b);
      assert EntryOk(b.history[Cur(b)], s.now);
      var s' := OnCheck(s, cvOk, window);
      assert s'.log[|s.log|].Checked?;
      StartStepsOk(s, s');
      LoggingKeepsInv(s, s', s'.log[|s.log|]);
    }
  }

  lemma FailUpgradeKeepsInv(s: State, scaledDown: bool, notified: bool)
    requires Inv(s)
    ensures Inv(OnFailUpgrade(s, scaledDown, notified))
  {
    hide StoreOk, PoolOk, LogFits, LogSound, Licensed, SetHistory;
    if s.work.Failing? {
      var b := s.work.base;
      EntryAt(b);
      var h := b.history[Cur(b)];
      assert EntryOk(h, s.now);
      SetEntry(b, h);
      var h' := h.(phase := if scaledDown && notified then Failed else h.phase);
      RewriteOk(s, b, h');
      SetEntry(b, h');
      var s' := OnFailUpgrade(s, scaledDown, notified);
      ToWriteFrame(s, s', b, With(b, h'));
      LoggingKeepsInv(s, s', GaveUp(s.pass, scaledDown, notified));
    }
  }

  /** The local entry with other conditions, or moved on from Upgrading. */
  lemma RetouchOk(s: State, b: Obj, hist: seq<History>, h: History)
    requires ToWriteOk(s, b, hist) && hist[Cur(b)].phase.Upgrading?
    requires h == hist[Cur(b)].(conditions := h.conditions, phase := h.phase, complete := h.complete)
    requires h.phase.Upgrading? || h.phase.Upgraded?
    requires h.complete == if h.phase.Upgraded? then Some(s.now) else None
    requires b.history[Cur(b)].phase.Upgrading? && EntryOk(b.history[Cur(b)], s.now)
    ensures GetHistory(hist, b.spec.desired.version) == Some(hist[Cur(b)])
    ensures SetHistory(hist, h) == With(b, h) && ToWriteOk(s, b, With(b, h))
  {
    hide Licensed;
    Retouch(b, hist, h);
  }

  lemma LocalEntry(s: State)
    requires Inv(s) && (s.work.Stepping? || s.work.Running?)
    ensures var b, hist := s.work.base, s.work.hist;
            && ToWriteOk(s, b, hist) && hist[Cur(b)].phase.Upgrading? && s.work.i < STEP_COUNT
            && b.history[Cur(b)].phase.Upgrading? && EntryOk(b.history[Cur(b)], s.now)
            && hist[Cur(b)].complete == None && EntryOk(hist[Cur(b)], s.now)
            && GetHistory(hist, b.spec.desired.version) == Some(hist[Cur(b)])
  {
    hide StoreOk, PoolOk, LogFits, AllLicensed, Licensed;
    Retouch(s.work.base, s.work.hist, s.work.hist[Cur(s.work.base)]);
  }

  lemma StepBeginKeepsInv(s: State)
    requires Inv(s)
    ensures Inv(OnStepBegin(s))
  {
    hide StoreOk, PoolOk, WorkBaseOk, Begun, Licensed, EntryOk, Evolves, SetHistory, GetHistory;
    if s.work.Stepping? {
      var b, hist, i := s.work.base, s.work.hist, s.work.i;
      LocalEntry(s);
      var h := hist[Cur(b)].(conditions := Begun(hist[Cur(b)].conditions, i, s.now));
      RetouchOk(s, b, hist, h);
      PassKeepsInv(s, OnStepBegin(s));
    }
  }

  lemma StopKeepsInv(s: State, o: StepRunner.Outcome, h: History)
    requires Inv(s) && s.work.Running? && !o.Done?
    requires h == s.work.hist[Cur(s.work.base)].(conditions := h.conditions)
    ensures Inv(FinishWith(s, o, h))
  {
    hide StoreOk, PoolOk, WorkBaseOk, Licensed, EntryOk, Evolves, SetHistory, GetHistory;
    LocalEntry(s);
    RetouchOk(s, s.work.base, s.work.hist, h);
    PassKeepsInv(s, FinishWith(s, o, h));
  }

  lemma WindowPassedGrows(s: State, s': State, b: Obj)
    requires WindowPassed(s, b) && s.log <= s'.log && s.pass == s'.pass && s'.doc == s.doc
    ensures WindowPassed(s', b)
  {
    var k :| 0 <= k < |s.log| && s.log[k].Checked? && s.log[k].pass == s.pass
             && (!s.log[k].readOk || !s.log[k].late || CV.Commenced(s.doc, b.spec.desired));
    assert s'.log[k] == s.log[k];
  }

  lemma OneMoreStep(log: seq<Entry>, pass: nat, n: nat)
    requires StepsDone(log, pass, n)
    ensures StepsDone(log + [StepDone(pass, n)], pass, n + 1)
  {
    forall j: nat | j < n + 1 ensures StepDone(pass, j) in log + [StepDone(pass, n)] {
      if j < n {
        assert StepDone(pass, j) in log;
      }
    }
  }

  lemma AdvanceKeepsInv(s: State, h: History)
    requires Inv(s) && s.work.Running? && s.work.i + 1 < STEP_COUNT
    requires h == s.work.hist[Cur(s.work.base)].(conditions := h.conditions)
    ensures Inv(FinishWith(s, StepRunner.Done, h))
  {
    hide StoreOk, PoolOk, WorkBaseOk, ToWriteOk, SetHistory, GetHistory, WindowPassed, StepsDone;
    var s' := FinishWith(s, StepRunner.Done, h);
    var b := s.work.base;
    LocalEntry(s);
    RetouchOk(s, b, s.work.hist, h);
    ToWriteFrame(s, s', b, With(b, h));
    WindowPassedGrows(s, s', b);
    OneMoreStep(s.log, s.pass, s.work.i);
    LoggingKeepsInv(s, s', StepDone(s.pass, s.work.i));
  }

  lemma CompleteKeepsInv(s: State, h: History)
    requires Inv(s) && s.work.Running? && s.work.i + 1 == STEP_COUNT
    requires h == s.work.hist[Cur(s.work.base)].(conditions := h.conditions)
    ensures Inv(FinishWith(s, StepRunner.Done, h))
  {
    hide StoreOk, PoolOk, WorkBaseOk, Licensed, EntryOk, Evolves, SetHistory, GetHistory, WindowPassed, StepsDone;
    var s' := FinishWith(s, StepRunner.Done, h);
    var b := s.work.base;
    var h' := h.(phase := Upgraded, complete := Some(s.now));
    LocalEntry(s);
    RetouchOk(s, b, s.work.hist, h');
    ToWriteFrame(s, s', b, With(b, h'));
    LoggingKeepsInv(s, s', StepDone(s.pass, s.work.i));
  }

  lemma FinishStepKeepsInv(s: State, o: StepRunner.Outcome)
    requires Inv(s) && s.work.Running?
    ensures s.work.i < STEP_COUNT && Inv(FinishStep(s, o))
  {
    hide Inv, Ended, FinishWith, GetHistory;
    LocalEntry(s);
    var h0 := s.work.hist[Cur(s.work.base)];
    var h := h0.(conditions := Ended(h0.conditions, s.work.i, o, s.now));
    if !o.Done? {
      StopKeepsInv(s, o, h);
    } else if s.work.i + 1 < STEP_COUNT {
      AdvanceKeepsInv(s, h);
    } else {
      CompleteKeepsInv(s, h);
    }
  }

  // ---- The commitment -----------------------------------------------------------------------------------------------

  /** A patch either leaves desiredUpdate alone or commits the cluster to the pass's own request. */
  predicate Patched(s: State, s': State, b: Obj) {
    && s' == s.(doc := s'.doc)
    && (CV.Commenced(s.doc, b.spec.desired) ==> s'.doc == s.doc)
    && (CV.DesiredUpdate(s'.doc) == CV.DesiredUpdate(s.doc) || CV.Commenced(s'.doc, b.spec.desired))
  }

  /** What was logged about the object in this edition was logged by passes with the same spec. */
  lemma PatchedFits(s: State, s': State, b: Obj, o: Obj)
    requires Patched(s, s', b) && LogFits(s, b) && LogFits(s, o)
    requires b.uid <= o.uid && (b.uid == o.uid ==> Follows(b, o))
    ensures LogFits(s', o)
  {
    forall k | 0 <= k < |s'.log| ensures EntryFits(s'.log[k], s'.doc, o) {
      assert EntryFits(s.log[k], s.doc, b) && EntryFits(s.log[k], s.doc, o);
    }
  }

  lemma PatchKeepsStore(s: State, s': State, b: Obj)
    requires StoreOk(s) && WorkBaseOk(s, b) && InPhase(b, Upgrading) && Patched(s, s', b)
    ensures StoreOk(s') && WorkBaseOk(s', b)
  {
    hide HistOk, AllLicensed, LogFits;
    PatchedFits(s, s', b, b);
    if s.store.Some? {
      var o := s.store.value;
      PatchedFits(s, s', b, o);
      if SameObject(s.store, b) && o.edits == 0 {
        HistoryUnique(o.history, o.spec.desired.version, Cur(b));
      }
    }
  }

  lemma PatchKeepsInv(s: State, s': State)
    requires Inv(s) && s.work.Running? && Patched(s, s', s.work.base)
    ensures Inv(s')
  {
    hide PoolOk, StoreOk, WorkBaseOk, Licensed, Cur, With, EntryOk, Evolves, StepsDone;
    PatchKeepsStore(s, s', s.work.base);
    PoolSame(s, s');
  }

  lemma CommencePatches(s: State, d: CV.Desired, cvOk: bool, notified: bool, calls: CV.Calls)
    requires s.work.Running? && s.work.base.spec.desired == d
    ensures Patched(s, s.(doc := Commencing(s.doc, s.updates, d, cvOk, notified, calls).0), s.work.base)
  {
    CV.EnsureDesiredHonours(s.doc, s.updates, d, calls);
  }

  lemma CommenceKeepsInv(s: State, cvOk: bool, notified: bool, calls: CV.Calls)
    requires Inv(s)
    ensures Inv(OnCommence(s, cvOk, notified, calls))
  {
    hide Inv, Commencing, FinishStep, Patched;
    if s.work.Running? && s.work.i == COMMENCE {
      var d := s.work.base.spec.desired;
      var (doc, o) := Commencing(s.doc, s.updates, d, cvOk, notified, calls);
      CommencePatches(s, d, cvOk, notified, calls);
      PatchKeepsInv(s, s.(doc := doc));
      FinishStepKeepsInv(s.(doc := doc), o);
    }
  }

  lemma AbortKeepsInv(s: State)
    requires Inv(s)
    ensures Inv(OnAbort(s))
  {
    hide PoolOk, StoreOk, WorkBaseOk;
    PassKeepsInv(s, OnAbort(s));
  }

  // ---- Every transition ------------------------------------------------------------------------------------------------

  lemma ReconcilerKeepsInv(s: State, e: Event)
    requires Inv(s) && !IsEnvironment(e) && !IsPool(e)
    ensures Inv(Next(s, e))
  {
    hide Inv, OnGet, OnInspect, OnDecide, OnRefreshUnchanged, OnRefreshChanged, OnUpdate, OnCheck, OnFailUpgrade;
    hide OnStepBegin, FinishStep, OnCommence, OnAbort;
    match e
    case Get => GetKeepsInv(s);
    case Inspect(ok, p) => InspectKeepsInv(s, ok, p);
    case Decide(v, a) => DecideKeepsInv(s, v, a);
    case RefreshUnchanged => RefreshUnchangedKeepsInv(s);
    case RefreshChanged(c) => RefreshChangedKeepsInv(s, c);
    case Update(f) => UpdateKeepsInv(s, f);
    case Check(ok, w) => CheckKeepsInv(s, ok, w);
    case FailUpgrade(d, n) => FailUpgradeKeepsInv(s, d, n);
    case StepBegin => StepBeginKeepsInv(s);
    case StepEnd(o) => if s.work.Running? && s.work.i != COMMENCE { FinishStepKeepsInv(s, o); }
    case Commence(ok, n, c) => CommenceKeepsInv(s, ok, n, c);
    case Abort => AbortKeepsInv(s);
  }

  /** Every transition, by whoever takes it and whatever fails, keeps the invariant. */
  lemma NextKeepsInv(s: State, e: Event)
    requires Inv(s)
    ensures Inv(Next(s, e))
  {
    hide Inv, Next;
    if IsEnvironment(e) {
      EnvironmentKeepsInv(s, e);
    } else if IsPool(e) {
      PoolKeepsInv(s, e);
    } else {
      ReconcilerKeepsInv(s, e);
    }
  }

  lemma {:induction false} RunKeepsInv(s: State, events: seq<Event>)
    requires Inv(s)
    ensures Inv(After(s, events))
  {
    hide Inv, Next;
    if events != [] {
      RunKeepsInv(s, events[..|events| - 1]);
      NextKeepsInv(After(s, events[..|events| - 1]), events[|events| - 1]);
    }
  }

  lemma ReachableInv(r: State)
    requires Reachable(r)
    ensures Inv(r)
  {
    hide After;
    var s, events :| Initial(s) && After(s, events) == r;
    RunKeepsInv(s, events);
  }
}

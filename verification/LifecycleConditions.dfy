/** The conditions that reach the stored object, although passes overwrite, lose and repeat each
    other's writes. */
module LifecycleConditions {
  import opened Kube
  import opened UpgradeStatus
  import opened StepRunner
  import opened StepTimes
  import opened Lifecycle
  import opened LifecycleInvariant
  import opened LifecycleSteps

  // ---- One condition list ---------------------------------------------------------------------------------

  predicate AllGood(cs: seq<Condition>, now: Time) {
    forall i :: 0 <= i < |cs| ==> GoodCondition(cs[i], now)
  }

  lemma SetKeepsGood(cs: seq<Condition>, c: Condition, now: Time)
    requires AllGood(cs, now) && GoodCondition(c, now)
    ensures AllGood(SetCondition(cs, c, now), now)
  {
  }

  /** Starting a step records its name if it is new. */
  lemma StartTypes(cs: seq<Condition>, step: string, now: Time)
    requires AllGood(cs, now)
    ensures var cs' := StepRunner.Put(cs, StartSets(cs, step, now), now);
            && AllGood(cs', now) && Types(cs') == if step in Types(cs) then Types(cs) else [step] + Types(cs)
  {
  }

  /** Ending it changes no names. */
  lemma EndTypes(cs: seq<Condition>, step: string, r: StepRun)
    requires AllGood(cs, r.endedAt)
    ensures var cs' := StepRunner.Put(cs, EndSets(cs, step, r), r.endedAt);
            && AllGood(cs', r.endedAt) && Types(cs') == Types(cs)
  {
    var oc := EndSets(cs, step, r);
    if oc.Some? {
      FoundByType(cs, step);
      SetConditionIsKeyed(cs, oc.value, r.endedAt);
      SetKeepsGood(cs, oc.value, r.endedAt);
    }
  }

  predicate RecordedUpTo(cs: seq<Condition>, steps: seq<string>, f: nat) {
    f <= |steps| && Types(cs) == Recorded(steps, f)
  }

  /** The list records the steps of some prefix that includes the first `n`, in reverse order and once
      each, and its timestamps are sound. */
  ghost predicate CondsOk(cs: seq<Condition>, steps: seq<string>, n: nat, now: Time) {
    AllGood(cs, now) && exists f: nat :: n <= f && RecordedUpTo(cs, steps, f)
  }

  lemma StartKeepsConds(cs: seq<Condition>, steps: seq<string>, i: nat, now: Time)
    requires i < |steps| && CondsOk(cs, steps, i, now)
    ensures CondsOk(StepRunner.Put(cs, StartSets(cs, steps[i], now), now), steps, i + 1, now)
  {
    var f: nat :| i <= f && RecordedUpTo(cs, steps, f);
    var cs' := StepRunner.Put(cs, StartSets(cs, steps[i], now), now);
    StartTypes(cs, steps[i], now);
    RecordedMembers(steps, f);
    if i == f {
      RecordedNext(steps, f);
      assert RecordedUpTo(cs', steps, f + 1);
    } else {
      assert steps[i] in steps[..f] by { assert steps[..f][i] == steps[i]; }
      assert RecordedUpTo(cs', steps, f);
    }
  }

  lemma EndKeepsConds(cs: seq<Condition>, steps: seq<string>, i: nat, n: nat, r: StepRun)
    requires i < |steps| && CondsOk(cs, steps, n, r.endedAt)
    ensures CondsOk(StepRunner.Put(cs, EndSets(cs, steps[i], r), r.endedAt), steps, n, r.endedAt)
  {
    EndTypes(cs, steps[i], r);
    var f: nat :| n <= f && RecordedUpTo(cs, steps, f);
    assert RecordedUpTo(StepRunner.Put(cs, EndSets(cs, steps[i], r), r.endedAt), steps, f);
  }

  lemma NoConditions(steps: seq<string>, now: Time)
    ensures CondsOk([], steps, 0, now)
  {
    assert steps[..0] == [];
    assert RecordedUpTo([], steps, 0);
  }

  // ---- The whole state ------------------------------------------------------------------------------------

  ghost predicate HistConds(hist: seq<History>, steps: seq<string>, now: Time) {
    forall k :: 0 <= k < |hist| ==> CondsOk(hist[k].conditions, steps, 0, now)
  }

  /** A local history whose entry at `k` has recorded the first `n` steps. */
  ghost predicate StepConds(hist: seq<History>, steps: seq<string>, k: nat, n: nat, now: Time) {
    HistConds(hist, steps, now) && (k < |hist| ==> CondsOk(hist[k].conditions, steps, n, now))
  }

  ghost predicate WorkConds(w: Work, steps: seq<string>, now: Time) {
    match w
    case Idle => true
    case Crashed => true
    case Creating(b, hist) => HistConds(b.history, steps, now) && HistConds(hist, steps, now)
    case Opening(b, hist) => HistConds(b.history, steps, now) && HistConds(hist, steps, now)
    case Closing(b, hist) => HistConds(b.history, steps, now) && HistConds(hist, steps, now)
    case Stepping(b, hist, i) => HistConds(b.history, steps, now) && StepConds(hist, steps, Cur(b), i, now)
    case Running(b, hist, i) => HistConds(b.history, steps, now) && StepConds(hist, steps, Cur(b), i + 1, now)
    case _ => HistConds(w.base.history, steps, now)
  }

  ghost predicate PoolConds(p: PoolWork, steps: seq<string>, now: Time) {
    match p
    case PoolIdle => true
    case PoolLoaded(b, _, _) => HistConds(b.history, steps, now)
    case PoolWriting(b, hist) => HistConds(b.history, steps, now) && HistConds(hist, steps, now)
  }

  ghost predicate Conds(s: State, steps: seq<string>) {
    && (s.store.Some? ==> HistConds(s.store.value.history, steps, s.now))
    && WorkConds(s.work, steps, s.now) && PoolConds(s.pool, steps, s.now)
  }

  lemma CondsLater(cs: seq<Condition>, steps: seq<string>, n: nat, n': nat, now: Time, now': Time)
    requires CondsOk(cs, steps, n, now) && n' <= n && now <= now'
    ensures CondsOk(cs, steps, n', now')
  {
  }

  lemma HistCondsLater(steps: seq<string>, hist: seq<History>, now: Time, now': Time)
    requires HistConds(hist, steps, now) && now <= now'
    ensures HistConds(hist, steps, now')
  {
    hide CondsOk;
    forall k | 0 <= k < |hist| ensures CondsOk(hist[k].conditions, steps, 0, now') {
      CondsLater(hist[k].conditions, steps, 0, 0, now, now');
    }
  }

  lemma StepCondsLater(steps: seq<string>, hist: seq<History>, k: nat, n: nat, now: Time, now': Time)
    requires StepConds(hist, steps, k, n, now) && now <= now'
    ensures StepConds(hist, steps, k, n, now')
  {
    hide CondsOk, HistConds;
    HistCondsLater(steps, hist, now, now');
    if k < |hist| {
      CondsLater(hist[k].conditions, steps, n, n, now, now');
    }
  }

  lemma WorkCondsLater(w: Work, steps: seq<string>, now: Time, now': Time)
    requires WorkConds(w, steps, now) && now <= now'
    ensures WorkConds(w, steps, now')
  {
    hide HistConds, StepConds;
    if Held(w).Some? {
      HistCondsLater(steps, w.base.history, now, now');
    }
    match w
    case Creating(_, hist) => HistCondsLater(steps, hist, now, now');
    case Opening(_, hist) => HistCondsLater(steps, hist, now, now');
    case Closing(_, hist) => HistCondsLater(steps, hist, now, now');
    case Stepping(b, hist, i) => StepCondsLater(steps, hist, Cur(b), i, now, now');
    case Running(b, hist, i) => StepCondsLater(steps, hist, Cur(b), i + 1, now, now');
    case _ =>
  }

  lemma PoolCondsLater(p: PoolWork, steps: seq<string>, now: Time, now': Time)
    requires PoolConds(p, steps, now) && now <= now'
    ensures PoolConds(p, steps, now')
  {
    hide HistConds;
    if !p.PoolIdle? {
      HistCondsLater(steps, p.base.history, now, now');
      if p.PoolWriting? {
        HistCondsLater(steps, p.hist, now, now');
      }
    }
  }

  /** Writing an entry with sound conditions keeps the history's sound. */
  lemma SetKeepsConds(hist: seq<History>, h: History, steps: seq<string>, now: Time)
    requires HistConds(hist, steps, now) && CondsOk(h.conditions, steps, 0, now)
    ensures HistConds(SetHistory(hist, h), steps, now)
  {
    hide CondsOk;
  }

  /** An entry that was found, rewritten with its conditions untouched. */
  lemma SameConditions(hist: seq<History>, version: string, h: History, steps: seq<string>, now: Time)
    requires HistConds(hist, steps, now) && GetHistory(hist, version).Some?
    requires h.conditions == GetHistory(hist, version).value.conditions
    ensures HistConds(SetHistory(hist, h), steps, now)
  {
    hide CondsOk;
    SetKeepsConds(hist, h, steps, now);
  }

  // ---- Every transition -------------------------------------------------------------------------------------

  lemma EnvironmentKeepsConds(s: State, steps: seq<string>, e: Event)
    requires Conds(s, steps) && IsEnvironment(e)
    ensures Conds(Next(s, e), steps)
  {
    hide WorkConds, PoolConds, CondsOk;
    if e.Tick? {
      WorkCondsLater(s.work, steps, s.now, s.now + e.d);
      PoolCondsLater(s.pool, steps, s.now, s.now + e.d);
      if s.store.Some? {
        HistCondsLater(steps, s.store.value.history, s.now, s.now + e.d);
      }
    }
  }

  lemma PoolKeepsConds(s: State, steps: seq<string>, e: Event)
    requires Conds(s, steps) && IsPool(e)
    ensures Conds(Next(s, e), steps)
  {
    hide WorkConds, HistConds, SetHistory, GetHistory;
    if e.PoolStamp? && s.pool.PoolLoaded? {
      var b := s.pool.base;
      if EntryOf(b).Some? {
        var h := Stamp(EntryOf(b).value, s.pool.machines, s.pool.updated, s.now);
        SameConditions(b.history, b.spec.desired.version, h, steps, s.now);
      }
    }
  }

  lemma InspectKeepsConds(s: State, steps: seq<string>, cvOk: bool, preceding: string)
    requires Conds(s, steps)
    ensures Conds(OnInspect(s, cvOk, preceding), steps)
  {
    hide PoolConds, CondsOk, GetHistory;
    NoConditions(steps, s.now);
  }

  /** The local steps that rewrite the copy's entry leave its conditions alone. */
  lemma RewriteKeepsConds(s: State, steps: seq<string>, e: Event)
    requires Conds(s, steps) && (e.Decide? || e.RefreshUnchanged? || e.RefreshChanged? || e.FailUpgrade?)
    ensures Conds(Next(s, e), steps)
  {
    hide PoolConds, CondsOk, SetHistory, GetHistory, Due;
    if Held(s.work).Some? && EntryOf(s.work.base).Some? {
      var b := s.work.base;
      var h := EntryOf(b).value;
      forall p: Phase, t: Option<Time>
        ensures HistConds(SetHistory(b.history, h.(phase := p)), steps, s.now)
             && HistConds(SetHistory(b.history, h.(phase := p, start := t)), steps, s.now)
      {
        SameConditions(b.history, b.spec.desired.version, h.(phase := p), steps, s.now);
        SameConditions(b.history, b.spec.desired.version, h.(phase := p, start := t), steps, s.now);
      }
    }
  }

  lemma CheckKeepsConds(s: State, steps: seq<string>, cvOk: bool, window: nat)
    requires Conds(s, steps) && (s.work.Checking? ==> HasEntry(s.work.base))
    ensures Conds(OnCheck(s, cvOk, window), steps)
  {
    hide PoolConds, CondsOk, GetHistory;
  }

  lemma BeginKeepsConds(s: State, steps: seq<string>)
    requires steps == OSD_STEPS && Inv(s) && Conds(s, steps) && s.work.Stepping?
    ensures Conds(OnStepBegin(s), steps)
  {
    hide Inv, PoolConds, CondsOk, SetHistory, GetHistory, Begun, ToWriteOk;
    var b, hist, i := s.work.base, s.work.hist, s.work.i;
    LocalEntry(s);
    EntryVersion(s);
    BegunOk(hist, steps, Cur(b), i, s.now);
    var h := hist[Cur(b)].(conditions := Begun(hist[Cur(b)].conditions, i, s.now));
    StepWrite(s, h, steps, i + 1);
  }

  lemma BegunOk(hist: seq<History>, steps: seq<string>, k: nat, i: nat, now: Time)
    requires steps == OSD_STEPS && i < STEP_COUNT && k < |hist| && StepConds(hist, steps, k, i, now)
    ensures CondsOk(Begun(hist[k].conditions, i, now), steps, i + 1, now)
  {
    StartKeepsConds(hist[k].conditions, steps, i, now);
  }

  lemma EndedOk(cs: seq<Condition>, steps: seq<string>, i: nat, n: nat, o: Outcome, now: Time)
    requires steps == OSD_STEPS && i < STEP_COUNT && CondsOk(cs, steps, n, now)
    ensures CondsOk(Ended(cs, i, o, now), steps, n, now)
  {
    EndKeepsConds(cs, steps, i, n, StepRun(now, o, now));
  }

  /** Writing the local entry, with conditions that have recorded the first `n` steps. */
  lemma StepWrite(s: State, h: History, steps: seq<string>, n: nat)
    requires Inv(s) && (s.work.Stepping? || s.work.Running?) && HistConds(s.work.hist, steps, s.now)
    requires h.version == s.work.base.spec.desired.version && CondsOk(h.conditions, steps, n, s.now)
    ensures StepConds(SetHistory(s.work.hist, h), steps, Cur(s.work.base), n, s.now)
  {
    hide Inv, CondsOk, EntryOk, Evolves, Licensed;
    LocalEntry(s);
    Retouch(s.work.base, s.work.hist, h);
    CondsLater(h.conditions, steps, n, 0, s.now, s.now);
    SetKeepsConds(s.work.hist, h, steps, s.now);
  }

  lemma FinishKeepsConds(s: State, steps: seq<string>, o: Outcome)
    requires steps == OSD_STEPS && Inv(s) && Conds(s, steps) && s.work.Running?
    ensures s.work.i < STEP_COUNT && Conds(FinishStep(s, o), steps)
  {
    hide Inv, PoolConds, CondsOk, HistConds, SetHistory, GetHistory, Ended, ToWriteOk;
    var b, hist, i := s.work.base, s.work.hist, s.work.i;
    LocalEntry(s);
    EntryVersion(s);
    var h0 := hist[Cur(b)];
    EndedOk(h0.conditions, steps, i, i + 1, o, s.now);
    var h := h0.(conditions := Ended(h0.conditions, i, o, s.now));
    StepWrite(s, h, steps, i + 1);
    StepWrite(s, h.(phase := Upgrading), steps, i + 1);
    StepWrite(s, h.(phase := Upgraded, complete := Some(s.now)), steps, i + 1);
  }

  lemma EntryVersion(s: State)
    requires Inv(s) && (s.work.Stepping? || s.work.Running?)
    ensures HasEntry(s.work.base) && Cur(s.work.base) < |s.work.hist|
    ensures s.work.hist[Cur(s.work.base)].version == s.work.base.spec.desired.version
  {
    hide StoreOk, PoolOk, WorkBaseOk;
  }

  lemma StepEventKeepsConds(s: State, steps: seq<string>, e: Event)
    requires steps == OSD_STEPS && Inv(s) && Conds(s, steps) && (e.StepBegin? || e.StepEnd?)
    ensures Conds(Next(s, e), steps)
  {
    hide Inv, Conds, FinishStep;
    if e.StepBegin? && s.work.Stepping? {
      hide OnStepBegin;
      BeginKeepsConds(s, steps);
    } else if e.StepEnd? && s.work.Running? && s.work.i != COMMENCE {
      FinishKeepsConds(s, steps, e.o);
    }
  }

  lemma CommenceKeepsConds(s: State, steps: seq<string>, e: Event)
    requires steps == OSD_STEPS && Inv(s) && Conds(s, steps) && e.Commence?
    ensures Conds(Next(s, e), steps)
  {
    hide Inv, FinishStep, Commencing, Patched, WorkConds, PoolConds, HistConds;
    if s.work.Running? && s.work.i == COMMENCE {
      var d := s.work.base.spec.desired;
      var (doc, o) := Commencing(s.doc, s.updates, d, e.cvOk, e.notified, e.calls);
      CommencePatches(s, d, e.cvOk, e.notified, e.calls);
      PatchKeepsInv(s, s.(doc := doc));
      FinishKeepsConds(s.(doc := doc), steps, o);
    }
  }

  lemma UpdateKeepsConds(s: State, steps: seq<string>, f: Fault)
    requires Conds(s, steps)
    ensures Conds(OnUpdate(s, f), steps)
  {
    hide PoolConds, HistConds, StepConds;
  }

  lemma CheckingHasEntry(s: State)
    requires Inv(s) && s.work.Checking?
    ensures HasEntry(s.work.base)
  {
  }

  lemma NextKeepsConds(s: State, steps: seq<string>, e: Event)
    requires steps == OSD_STEPS
    requires Inv(s) && Conds(s, steps)
    ensures Conds(Next(s, e), steps)
  {
    hide Inv, HistConds, StepConds, OnInspect, OnUpdate, OnCheck;
    if IsEnvironment(e) {
      EnvironmentKeepsConds(s, steps, e);
    } else if IsPool(e) {
      PoolKeepsConds(s, steps, e);
    } else {
      match e
      case Get =>
      case Inspect(ok, p) => InspectKeepsConds(s, steps, ok, p);
      case Update(f) => UpdateKeepsConds(s, steps, f);
      case Check(ok, w) =>
        if s.work.Checking? {
          CheckingHasEntry(s);
        }
        CheckKeepsConds(s, steps, ok, w);
      case StepBegin => StepEventKeepsConds(s, steps, e);
      case StepEnd(_) => StepEventKeepsConds(s, steps, e);
      case Commence(_, _, _) => CommenceKeepsConds(s, steps, e);
      case Abort =>
      case _ => RewriteKeepsConds(s, steps, e);
    }
  }

  lemma {:induction false} RunKeepsConds(s: State, steps: seq<string>, events: seq<Event>)
    requires steps == OSD_STEPS
    requires Inv(s) && Conds(s, steps)
    ensures Conds(Lifecycle.After(s, events), steps)
  {
    hide Inv, Next, Conds;
    if events != [] {
      var most := events[..|events| - 1];
      RunKeepsInv(s, most);
      RunKeepsConds(s, steps, most);
      NextKeepsConds(Lifecycle.After(s, most), steps, events[|events| - 1]);
    }
  }

  /** In every reachable state, however many passes ran and whichever of their writes were lost or
      rejected, the conditions of each stored entry are exactly the distinct names of the first `f` OSD
      steps for some `f`, latest first, each with sound times; the record of a failed upgrade is
      never among them. */
  lemma StoredConditionsAreSound(r: State)
    requires Reachable(r) && r.store.Some?
    ensures forall k :: 0 <= k < |r.store.value.history| ==>
              var cs := r.store.value.history[k].conditions;
              && AllGood(cs, r.now)
              && (exists f: nat :: RecordedUpTo(cs, OSD_STEPS, f))
              && "FailedUpgrade" !in Types(cs)
  {
    var s, events :| Initial(s) && Lifecycle.After(s, events) == r;
    RunKeepsConds(s, OSD_STEPS, events);
    forall k | 0 <= k < |r.store.value.history| ensures "FailedUpgrade" !in Types(r.store.value.history[k].conditions) {
      var cs := r.store.value.history[k].conditions;
      assert CondsOk(cs, OSD_STEPS, 0, r.now);
      var f: nat :| RecordedUpTo(cs, OSD_STEPS, f);
      RecordedMembers(OSD_STEPS, f);
      NoFailureStep();
    }
  }

  lemma NoFailureStep()
    ensures "FailedUpgrade" !in OSD_STEPS
  {
  }
}

/** The timestamps the step runner keeps on conditions, over any number of runs. */
module StepTimes {
  import opened Kube
  import opened UpgradeStatus
  import opened StepRunner

  /** The status last set for type `t`. */
  function LastStatus(log: seq<SetCall>, t: string): Option<Status> {
    if log == [] then None
    else
      var e := log[|log| - 1];
      if e.ctype == t then Some(e.status) else LastStatus(log[..|log| - 1], t)
  }

  /** The instant of the latest call that changed the status of type `t`; the first call counts. */
  function LastChange(log: seq<SetCall>, t: string): Option<Time> {
    if log == [] then None
    else
      var e, before := log[|log| - 1], log[..|log| - 1];
      if e.ctype == t && LastStatus(before, t) != Some(e.status) then Some(e.at) else LastChange(before, t)
  }

  /** The instants of the first and of the latest call for type `t`. */
  function FirstSet(log: seq<SetCall>, t: string): Option<Time> {
    if log == [] then None
    else
      var before := FirstSet(log[..|log| - 1], t);
      if before.None? && log[|log| - 1].ctype == t then Some(log[|log| - 1].at) else before
  }

  function LastSet(log: seq<SetCall>, t: string): Option<Time> {
    if log == [] then None
    else if log[|log| - 1].ctype == t then Some(log[|log| - 1].at)
    else LastSet(log[..|log| - 1], t)
  }

  /** What the metrics collector and the status readers rely on for one condition. */
  predicate GoodCondition(c: Condition, now: Time) {
    && c.start.Some? && c.start.value <= now
    && !c.status.IsUnknown?
    && (c.status.IsTrue? <==> c.complete.Some?)
    && (c.complete.Some? ==> c.start.value <= c.complete.value <= now)
  }

  predicate GoodAt(tr: Track, t: string, now: Time) {
    match GetCondition(tr.conds, t)
    case None => LastStatus(tr.log, t).None? && FirstSet(tr.log, t).None?
    case Some(c) =>
      && GoodCondition(c, now)
      && LastStatus(tr.log, t) == Some(c.status)
      && c.lastTransition.Some? && c.lastTransition == LastChange(tr.log, t)
      && c.start == FirstSet(tr.log, t) && c.lastProbe == LastSet(tr.log, t)
      && (c.status.IsTrue? ==> c.complete == LastChange(tr.log, t))
  }

  /** How the runner's sets treat the times of what they replace. */
  predicate KeepsTimes(cs: seq<Condition>, c: Condition, now: Time) {
    match GetCondition(cs, c.ctype)
    case None => c.start == Some(now) && !c.status.IsTrue?
    case Some(b) =>
      && c.start == b.start
      && (c.status.IsTrue? ==> c.complete == if b.status.IsTrue? then b.complete else Some(now))
  }

  ghost predicate Good(tr: Track, now: Time) {
    forall t :: GoodAt(tr, t, now)
  }

  function PutLogged(tr: Track, c: Condition, now: Time): Track {
    Track(SetCondition(tr.conds, c, now), tr.log + [SetCall(c.ctype, c.status, now)])
  }

  lemma PutKeepsGoodAt(tr: Track, c: Condition, now: Time, now': Time, t: string)
    requires GoodAt(tr, t, now) && now <= now' && GoodCondition(c, now') && KeepsTimes(tr.conds, c, now')
    ensures GoodAt(PutLogged(tr, c, now'), t, now')
  {
    SetConditionAt(tr.conds, c, now', t);
    assert PutLogged(tr, c, now').log[..|tr.log|] == tr.log;
  }

  lemma PutKeepsGood(tr: Track, c: Condition, now: Time, now': Time)
    requires Good(tr, now) && now <= now' && GoodCondition(c, now') && KeepsTimes(tr.conds, c, now')
    ensures Good(PutLogged(tr, c, now'), now')
  {
    forall t ensures GoodAt(PutLogged(tr, c, now'), t, now') {
      assert GoodAt(tr, t, now);
      PutKeepsGoodAt(tr, c, now, now', t);
    }
  }

  lemma GoodLater(tr: Track, now: Time, now': Time)
    requires Good(tr, now) && now <= now'
    ensures Good(tr, now')
  {
    forall t ensures GoodAt(tr, t, now') {
      assert GoodAt(tr, t, now);
    }
  }

  lemma DoStepKeepsGood(tr: Track, step: string, r: StepRun, now: Time)
    requires Good(tr, now) && now <= r.startedAt <= r.endedAt
    ensures Good(DoStep(tr, step, r), r.endedAt)
  {
    var mid := StartStep(tr, step, r);
    var oc := StartSets(tr.conds, step, r.startedAt);
    if oc.Some? {
      PutKeepsGood(tr, oc.value, now, r.startedAt);
    } else {
      GoodLater(tr, now, r.startedAt);
    }
    assert GoodAt(mid, step, r.startedAt);
    var ec := EndSets(mid.conds, step, r);
    if ec.Some? {
      PutKeepsGood(mid, ec.value, r.startedAt, r.endedAt);
    } else {
      GoodLater(mid, r.startedAt, r.endedAt);
    }
  }

  /** The clock never runs backwards during a run. */
  predicate Monotone(run: seq<StepRun>) {
    && (forall i :: 0 <= i < |run| ==> run[i].startedAt <= run[i].endedAt)
    && (forall i, j :: 0 <= i < j < |run| ==> run[i].endedAt <= run[j].startedAt)
  }

  predicate Within(run: seq<StepRun>, lo: Time, hi: Time) {
    && lo <= hi
    && forall i :: 0 <= i < |run| ==> lo <= run[i].startedAt && run[i].endedAt <= hi
  }

  lemma {:induction false} RunFromKeepsGood(
      tr: Track, steps: seq<string>, run: seq<StepRun>, i: nat, now: Time, hi: Time)
    requires |run| == |steps| && i <= |steps|
    requires Monotone(run) && Within(run, 0, hi) && now <= hi
    requires forall j :: i <= j < |run| ==> now <= run[j].startedAt
    requires Good(tr, now)
    ensures Good(RunFrom(tr, steps, run, i), hi)
    decreases |steps| - i
  {
    if i == |steps| {
      GoodLater(tr, now, hi);
    } else {
      DoStepKeepsGood(tr, steps[i], run[i], now);
      var tr' := DoStep(tr, steps[i], run[i]);
      if run[i].outcome.Done? {
        RunFromKeepsGood(tr', steps, run, i + 1, run[i].endedAt, hi);
      } else {
        GoodLater(tr', run[i].endedAt, hi);
      }
    }
  }

  /** Run `k` takes place between `marks[k]` and `marks[k + 1]`. */
  predicate InOrder(runs: seq<seq<StepRun>>, marks: seq<Time>) {
    && |marks| == |runs| + 1
    && forall k :: 0 <= k < |runs| ==> Monotone(runs[k]) && Within(runs[k], marks[k], marks[k + 1])
  }

  /** Over every series of runs and outcomes, each condition has as its start time that of its first set, has a
      completion time exactly when it is True, namely the time it last became so, never completes before it starts,
      and its last transition time is that of the latest set that changed its status. */
  lemma {:induction false} ConditionTimes(steps: seq<string>, runs: seq<seq<StepRun>>, marks: seq<Time>)
    requires FitsAll(steps, runs) && InOrder(runs, marks)
    ensures Good(AfterRuns(steps, runs), marks[|runs|])
  {
    if runs != [] {
      var n := |runs| - 1;
      ConditionTimes(steps, runs[..n], marks[..n + 1]);
      RunFromKeepsGood(AfterRuns(steps, runs[..n]), steps, runs[n], 0, marks[n], marks[n + 1]);
    }
  }

  /** The reading the collector publishes for a condition: completion when True, start otherwise. */
  function Published(c: Condition): Option<Time> {
    if c.status.IsTrue? then c.complete else c.start
  }

  /** The collector never reads a missing time. */
  lemma CollectorReadsArePresent(steps: seq<string>, runs: seq<seq<StepRun>>, marks: seq<Time>, i: nat)
    requires FitsAll(steps, runs) && InOrder(runs, marks)
    requires i < |AfterRuns(steps, runs).conds|
    ensures Published(AfterRuns(steps, runs).conds[i]).Some?
    ensures Published(AfterRuns(steps, runs).conds[i]).value <= marks[|runs|]
  {
    ConditionTimes(steps, runs, marks);
    var tr := AfterRuns(steps, runs);
    RecordedTypes(steps, runs);
    ReverseDistinct(Dedup(steps[..Furthest(runs)]));
    DistinctFind(tr.conds, i);
    assert GoodAt(tr, tr.conds[i].ctype, marks[|runs|]);
  }
}

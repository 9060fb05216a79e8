/** The UpgradeConfig status as the operator holds it in memory. A history record is copied when it is
    looked up, while its conditions stay in a shared backing array; a change to a copy is seen in the
    status only where it goes through that array or is written back. */
module StatusObjects {
  import opened Kube
  import opened UpgradeStatus
  import opened StepRunner

  datatype Record = Record(
    version: string, preceding: string, phase: Phase, conds: array<Condition>,
    start: Option<Time>, complete: Option<Time>, workerStart: Option<Time>, workerComplete: Option<Time>)

  ghost function Seen(r: Record): History
    reads r.conds
  {
    History(r.version, r.preceding, r.phase, r.conds[..], r.start, r.complete, r.workerStart, r.workerComplete)
  }

  /** Find the position of a condition type, or the length if it is missing. */
  method FindCondition(conds: array<Condition>, t: string) returns (i: nat)
    ensures i == Find(conds[..], t)
  {
    i := 0;
    while i < conds.Length && conds[i].ctype != t
      invariant i <= conds.Length
      invariant forall j :: 0 <= j < i ==> conds[j].ctype != t
    {
      i := i + 1;
    }
    FindUnique(conds[..], t, i);
  }

  /** GetCondition returns a copy: editing it changes nothing in the list. */
  method LookUp(conds: array<Condition>, t: string) returns (r: Option<Condition>)
    ensures r == GetCondition(conds[..], t)
  {
    var i := FindCondition(conds, t);
    r := if i < conds.Length then Some(conds[i]) else None;
  }

  /** SetCondition on a record: a known type is overwritten in the shared array, a new one makes the record's
      conditions a new array and leaves the shared one alone. */
  method SetConditionIn(h: Record, c: Condition, now: Time) returns (h': Record, changed: bool)
    modifies h.conds
    ensures h' == h.(conds := h'.conds) && h'.conds[..] == SetCondition(old(h.conds[..]), c, now)
    ensures if GetCondition(old(h.conds[..]), c.ctype).Some? then h'.conds == h.conds
            else fresh(h'.conds) && h.conds[..] == old(h.conds[..])
    ensures changed <==> var was := GetCondition(old(h.conds[..]), c.ctype);
                         was.None? || was.value.status != c.status || was.value.reason != c.reason
                         || was.value.message != c.message
  {
    var c' := c.(lastTransition := Some(now), lastProbe := Some(now));
    var i := FindCondition(h.conds, c.ctype);
    if i < h.conds.Length {
      var was := h.conds[i];
      if was.status == c.status {
        c' := c'.(lastTransition := was.lastTransition);
      }
      changed := was.status != c.status || was.reason != c.reason || was.message != c.message;
      h.conds[i] := c';
      h' := h;
      assert h.conds[..] == old(h.conds[..])[i := c'];
    } else {
      var n := h.conds.Length;
      var conds := new Condition[n + 1](k requires 0 <= k < n + 1 reads h.conds => if k == 0 then c' else h.conds[k - 1]);
      assert conds[..] == [c'] + h.conds[..];
      h' := h.(conds := conds);
      changed := true;
    }
  }

  ghost function ArraysOf(rs: seq<Record>): set<array<Condition>> {
    set i | 0 <= i < |rs| :: rs[i].conds
  }

  /** The records as their readers see them. */
  ghost function ViewOf(rs: seq<Record>): (hs: seq<History>)
    reads ArraysOf(rs)
    ensures |hs| == |rs|
    ensures forall i :: 0 <= i < |hs| ==> hs[i] == Seen(rs[i])
  {
    seq(|rs|, i requires 0 <= i < |rs| reads ArraysOf(rs) => Seen(rs[i]))
  }

  /** No two records share an array. */
  ghost predicate Apart(rs: seq<Record>) {
    forall i, j :: 0 <= i < j < |rs| ==> rs[i].conds != rs[j].conds
  }

  lemma Replaced(rs: seq<Record>, k: nat, h: Record)
    requires Apart(rs) && k < |rs| && forall i :: 0 <= i < |rs| && i != k ==> rs[i].conds != h.conds
    ensures Apart(rs[k := h]) && ArraysOf(rs[k := h]) <= ArraysOf(rs) + {h.conds}
    ensures ViewOf(rs[k := h]) == ViewOf(rs)[k := Seen(h)]
  {
  }

  lemma Prepended(rs: seq<Record>, h: Record)
    requires Apart(rs) && forall i :: 0 <= i < |rs| ==> rs[i].conds != h.conds
    ensures Apart([h] + rs) && ArraysOf([h] + rs) <= ArraysOf(rs) + {h.conds}
    ensures ViewOf([h] + rs) == [Seen(h)] + ViewOf(rs)
  {
  }

  lemma StoredIn(rs: seq<Record>, h: Record, k: nat)
    requires Apart(rs) && k == FindHistory(ViewOf(rs), h.version)
    requires forall i :: 0 <= i < |rs| && i != k ==> rs[i].conds != h.conds
    ensures var rs' := if k < |rs| then rs[k := h] else [h] + rs;
            Apart(rs') && ArraysOf(rs') <= ArraysOf(rs) + {h.conds} && ViewOf(rs') == SetHistory(ViewOf(rs), Seen(h))
  {
    if k < |rs| {
      Replaced(rs, k, h);
    } else {
      Prepended(rs, h);
    }
  }

  /** The history with other conditions in the entry for `version`. */
  function WithConds(hs: seq<History>, version: string, cs: seq<Condition>): seq<History> {
    var i := FindHistory(hs, version);
    if i < |hs| then hs[i := hs[i].(conditions := cs)] else hs
  }

  /** The conditions of the entry for `version`. */
  function CondsOf(hs: seq<History>, version: string): seq<Condition> {
    var h := GetHistory(hs, version);
    if h.Some? then h.value.conditions else []
  }

  lemma WithCondsTwice(hs: seq<History>, version: string, a: seq<Condition>, b: seq<Condition>)
    ensures WithConds(WithConds(hs, version, a), version, b) == WithConds(hs, version, b)
    ensures WithConds(hs, version, CondsOf(hs, version)) == hs
    ensures FindHistory(WithConds(hs, version, a), version) == FindHistory(hs, version)
    ensures GetHistory(hs, version).Some? ==> CondsOf(WithConds(hs, version, a), version) == a
  {
    HistoryUnique(WithConds(hs, version, a), version, FindHistory(hs, version));
  }

  lemma EntryKept(hs: seq<History>, version: string, cs: seq<Condition>)
    requires GetHistory(hs, version).Some?
    ensures GetHistory(WithConds(hs, version, cs), version).Some? && CondsOf(WithConds(hs, version, cs), version) == cs
    ensures WithConds(hs, version, CondsOf(hs, version)) == hs
  {
    WithCondsTwice(hs, version, cs, cs);
  }

  lemma RunNext(hs: seq<History>, version: string, tr: Track, steps: seq<string>, run: seq<StepRun>, i: nat)
    requires |run| == |steps| && i < |steps|
    ensures var tr' := DoStep(tr, steps[i], run[i]);
            && WithConds(WithConds(hs, version, tr.conds), version, tr'.conds) == WithConds(hs, version, tr'.conds)
            && RunFrom(tr, steps, run, i) == if run[i].outcome.Done? then RunFrom(tr', steps, run, i + 1) else tr'
  {
    WithCondsTwice(hs, version, tr.conds, DoStep(tr, steps[i], run[i]).conds);
  }

  /** The run stopped at a step that returned an error. */
  predicate EndsInError(run: seq<StepRun>) {
    Reached(run, 0) > 0 && run[Reached(run, 0) - 1].outcome.Erred?
  }

  lemma StoppedAt(run: seq<StepRun>, i: nat)
    requires i < |run| && !run[i].outcome.Done? && forall j :: 0 <= j < i ==> run[j].outcome.Done?
    ensures RunPhase(run) == Upgrading && (EndsInError(run) <==> run[i].outcome.Erred?)
  {
  }

  lemma Finished(tr: Track, steps: seq<string>, run: seq<StepRun>)
    requires |run| == |steps| && forall j :: 0 <= j < |run| ==> run[j].outcome.Done?
    ensures RunPhase(run) == Upgraded && !EndsInError(run) && RunFrom(tr, steps, run, |steps|) == tr
  {
  }

  class UpgradeConfig {
    var version: string
    var records: seq<Record>
    ghost var repr: set<array<Condition>>

    /** No two records share an array, and `repr` holds them all. */
    ghost predicate Valid()
      reads this
    {
      Apart(records) && ArraysOf(records) <= repr
    }

    ghost function View(): seq<History>
      requires Valid()
      reads this, repr
    {
      ViewOf(records)
    }

    ghost function Entry(): Option<History>
      requires Valid()
      reads this, repr
    {
      GetHistory(View(), version)
    }

    constructor (version: string)
      ensures Valid() && View() == [] && this.version == version
    {
      this.version, records, repr := version, [], {};
    }

    method FindRecord(v: string) returns (i: nat)
      requires Valid()
      ensures i == FindHistory(View(), v) <= |records|
    {
      i := 0;
      while i < |records| && records[i].version != v
        invariant i <= |records|
        invariant forall j :: 0 <= j < i ==> records[j].version != v
      {
        i := i + 1;
      }
      HistoryUnique(View(), v, i);
    }

    /** GetHistory returns a copy of the record, on the same array. */
    method CopyHistory(v: string) returns (r: Option<Record>)
      requires Valid()
      ensures r.Some? <==> GetHistory(View(), v).Some?
      ensures r.Some? ==> Seen(r.value) == GetHistory(View(), v).value
      ensures r.Some? ==> FindHistory(View(), v) < |records| && r.value == records[FindHistory(View(), v)]
    {
      var i := FindRecord(v);
      r := if i < |records| then Some(records[i]) else None;
    }

    /** SetHistory: replace the record of that version, or put it in front. */
    method WriteBack(h: Record, ghost k: nat)
      requires Valid() && k == FindHistory(View(), h.version)
      requires forall i :: 0 <= i < |records| && i != k ==> records[i].conds != h.conds
      modifies this`records, this`repr
      ensures Valid() && View() == SetHistory(old(View()), Seen(h)) && repr == old(repr) + {h.conds}
    {
      hide Apart, ArraysOf, ViewOf, Seen, SetHistory;
      var i := FindRecord(h.version);
      StoredIn(records, h, k);
      repr := repr + {h.conds};
      if i < |records| {
        records := records[i := h];
      } else {
        records := [h] + records;
      }
    }

    /** Set one condition in a copy of the entry and write the copy back. */
    method Set(h: Record, c: Condition, now: Time)
      requires Valid() && FindHistory(View(), version) < |records| && h == records[FindHistory(View(), version)]
      modifies this`records, this`repr, h.conds
      ensures Valid() && fresh(repr - old(repr))
      ensures View() == WithConds(old(View()), version, SetCondition(old(h.conds[..]), c, now))
    {
      ghost var k := FindHistory(View(), version);
      var h', changed := SetConditionIn(h, c, now);
      HistoryUnique(View(), version, k);
      WriteBack(h', k);
      assert View() == SetHistory(old(View()), Seen(h'));
    }

    // ---- What the step runner records -------------------------------------------------------------------------

    /** The copy of the entry is up to date. */
    ghost predicate IsEntry(h: Record)
      requires Valid()
      reads this, repr
    {
      FindHistory(View(), version) < |records| && h == records[FindHistory(View(), version)]
    }

    method CopyEntry() returns (h: Record)
      requires Valid() && Entry().Some?
      ensures IsEntry(h) && h.conds in repr && h.conds[..] == Entry().value.conditions
    {
      var r := CopyHistory(version);
      h := r.value;
    }

    method SetAny(h: Record, oc: Option<Condition>, now: Time)
      requires Valid() && IsEntry(h)
      modifies this`records, this`repr, h.conds
      ensures Valid() && fresh(repr - old(repr))
      ensures View() == WithConds(old(View()), version, Put(old(h.conds[..]), oc, now))
    {
      if oc.Some? {
        Set(h, oc.value, now);
      } else {
        ghost var i := FindHistory(View(), version);
        assert View()[i].(conditions := h.conds[..]) == View()[i];
      }
    }

    method SetConditionStart(step: string, now: Time)
      requires Valid() && Entry().Some?
      modifies this`records, this`repr, repr
      ensures Valid() && fresh(repr - old(repr))
      ensures var cs := CondsOf(old(View()), version);
              View() == WithConds(old(View()), version, Put(cs, StartSets(cs, step, now), now))
    {
      var h := CopyEntry();
      var c := LookUp(h.conds, step);
      var oc := None;
      if c.None? {
        oc := Some(Condition(step, IsFalse, None, None, Some(now), None, step + " not done", step + " has started"));
      }
      SetAny(h, oc, now);
    }

    method SetConditionInProgress(step: string, message: string, now: Time)
      requires Valid() && Entry().Some?
      modifies this`records, this`repr, repr
      ensures Valid() && fresh(repr - old(repr))
      ensures var cs := CondsOf(old(View()), version);
              View() == WithConds(old(View()), version, Put(cs, ProgressSets(cs, step, message), now))
    {
      var h := CopyEntry();
      var c := LookUp(h.conds, step);
      if c.Some? {
        c := Some(c.value.(message := message, status := IsFalse, complete := None));
      }
      SetAny(h, c, now);
    }

    method SetConditionComplete(step: string, now: Time)
      requires Valid() && Entry().Some?
      modifies this`records, this`repr, repr
      ensures Valid() && fresh(repr - old(repr))
      ensures var cs := CondsOf(old(View()), version);
              View() == WithConds(old(View()), version, Put(cs, CompleteSets(cs, step, now), now))
    {
      var h := CopyEntry();
      var c := LookUp(h.conds, step);
      if c.Some? {
        var done := c.value.(reason := step + " done", message := step + " is completed", status := IsTrue);
        if done.complete.None? {
          done := done.(complete := Some(now));
        }
        c := Some(done);
      }
      SetAny(h, c, now);
    }

    /** One round of the runner's loop: record the start, take the step's result, record the result. */
    method RunStep(step: string, r: StepRun, ghost tr: Track)
      requires Valid() && GetHistory(View(), version).Some? && tr.conds == CondsOf(View(), version)
      modifies this`records, this`repr, repr
      ensures Valid() && fresh(repr - old(repr))
      ensures View() == WithConds(old(View()), version, DoStep(tr, step, r).conds)
    {
      ghost var hs := View();
      ghost var mid := StartStep(tr, step, r).conds;
      WithCondsTwice(hs, version, mid, DoStep(tr, step, r).conds);
      SetConditionStart(step, r.startedAt);
      match r.outcome
      case Erred(message) =>
        SetConditionInProgress(step, message, r.endedAt);
      case NotDone =>
        SetConditionInProgress(step, step + " still in progress", r.endedAt);
      case Done =>
        SetConditionComplete(step, r.endedAt);
    }

    /** Run the steps in order until one is not done. `run` holds what each step returns, and when. */
    method Run(steps: seq<string>, run: seq<StepRun>) returns (phase: Phase, err: bool)
      requires Valid() && GetHistory(View(), version).Some? && |run| == |steps|
      modifies this`records, this`repr, repr
      ensures Valid() && fresh(repr - old(repr))
      ensures View() == WithConds(old(View()), version,
                          RunFrom(Track(CondsOf(old(View()), version), []), steps, run, 0).conds)
      ensures phase == RunPhase(run)
      ensures err <==> EndsInError(run)
    {
      hide *;
      ghost var hs := View();
      ghost var tr := Track(CondsOf(hs, version), []);
      ghost var goal := RunFrom(tr, steps, run, 0);
      EntryKept(hs, version, tr.conds);
      for i := 0 to |steps|
        invariant Valid() && fresh(repr - old(repr))
        invariant View() == WithConds(hs, version, tr.conds)
        invariant RunFrom(tr, steps, run, i) == goal
        invariant forall j :: 0 <= j < i ==> run[j].outcome.Done?
      {
        EntryKept(hs, version, tr.conds);
        RunStep(steps[i], run[i], tr);
        RunNext(hs, version, tr, steps, run, i);
        tr := DoStep(tr, steps[i], run[i]);
        if !run[i].outcome.Done? {
          StoppedAt(run, i);
          return Upgrading, run[i].outcome.Erred?;
        }
      }
      Finished(tr, steps, run);
      return Upgraded, false;
    }

    // ---- Giving up -----------------------------------------------------------------------------------------------

    /** performUpgradeFailure sets a condition in a copy and does not write the copy back. */
    method PerformUpgradeFailure(scaledDown: bool, notified: bool, now: Time) returns (phase: Phase)
      requires Valid() && Entry().Some?
      modifies repr
      ensures phase == if scaledDown && notified then Failed else old(Entry()).value.phase
      ensures GetCondition(old(Entry()).value.conditions, FAILED).None? ==> View() == old(View())
      ensures var cs := CondsOf(old(View()), version);
              View() == WithConds(old(View()), version,
                          if GetCondition(cs, FAILED).None? then cs
                          else SetCondition(cs, FailedCondition(scaledDown && notified), now))
    {
      var h := CopyEntry();
      ghost var hs := View();
      ghost var i := FindHistory(hs, version);
      var h', changed := SetConditionIn(h, FailedCondition(scaledDown && notified), now);
      phase := if scaledDown && notified then Failed else h.phase;
      assert hs[i].(conditions := hs[i].conditions) == hs[i];
      assert View() == hs[i := hs[i].(conditions := h.conds[..])];
    }
  }

  const FAILED := "FailedUpgrade"

  function FailedCondition(succeeded: bool): Condition {
    Condition(FAILED, if succeeded then IsTrue else IsFalse, None, None, None, None,
              "Upgrade failed", "FailedUpgrade notification sent")
  }
}

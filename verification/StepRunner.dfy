/** The ordered step runner. Every reconcile runs the whole list from its first step, stops at the
    first step that is not done, and records each step it starts as a condition. */
module StepRunner {
  import opened Kube
  import opened UpgradeStatus

  datatype Outcome = Done | NotDone | Erred(message: string)

  /** One step of one run: when it was started, what it returned, and when it returned. */
  datatype StepRun = StepRun(startedAt: Time, outcome: Outcome, endedAt: Time)

  /** A recorded call of SetCondition. */
  datatype SetCall = SetCall(ctype: string, status: Status, at: Time)

  // What each bookkeeping helper sets, if anything.

  function StartSets(cs: seq<Condition>, step: string, now: Time): Option<Condition> {
    if GetCondition(cs, step).Some? then None
    else Some(Condition(step, IsFalse, None, None, Some(now), None, step + " not done", step + " has started"))
  }

  function ProgressSets(cs: seq<Condition>, step: string, message: string): Option<Condition> {
    var c := GetCondition(cs, step);
    if c.None? then None
    else Some(c.value.(message := message, status := IsFalse, complete := None))
  }

  function CompleteSets(cs: seq<Condition>, step: string, now: Time): Option<Condition> {
    var c := GetCondition(cs, step);
    if c.None? then None
    else Some(c.value.(reason := step + " done", message := step + " is completed", status := IsTrue,
                       complete := if c.value.complete.None? then Some(now) else c.value.complete))
  }

  function Put(cs: seq<Condition>, oc: Option<Condition>, now: Time): seq<Condition> {
    if oc.None? then cs else SetCondition(cs, oc.value, now)
  }

  function Logged(log: seq<SetCall>, oc: Option<Condition>, now: Time): seq<SetCall> {
    if oc.None? then log else log + [SetCall(oc.value.ctype, oc.value.status, now)]
  }

  function NotDoneMessage(step: string, o: Outcome): string
    requires !o.Done?
  {
    if o.Erred? then o.message else step + " still in progress"
  }

  /** What a step's end sets, given its outcome. */
  function EndSets(cs: seq<Condition>, step: string, r: StepRun): Option<Condition> {
    if r.outcome.Done? then CompleteSets(cs, step, r.endedAt)
    else ProgressSets(cs, step, NotDoneMessage(step, r.outcome))
  }

  /** The conditions kept so far together with the SetCondition calls that produced them. */
  datatype Track = Track(conds: seq<Condition>, log: seq<SetCall>)

  function StartStep(tr: Track, step: string, r: StepRun): Track {
    var oc := StartSets(tr.conds, step, r.startedAt);
    Track(Put(tr.conds, oc, r.startedAt), Logged(tr.log, oc, r.startedAt))
  }

  function EndStep(tr: Track, step: string, r: StepRun): Track {
    var oc := EndSets(tr.conds, step, r);
    Track(Put(tr.conds, oc, r.endedAt), Logged(tr.log, oc, r.endedAt))
  }

  function DoStep(tr: Track, step: string, r: StepRun): Track {
    EndStep(StartStep(tr, step, r), step, r)
  }

  /** Run the steps from position `i` on. */
  function RunFrom(tr: Track, steps: seq<string>, run: seq<StepRun>, i: nat): Track
    requires |run| == |steps| && i <= |steps|
    decreases |steps| - i
  {
    if i == |steps| then tr
    else
      var tr' := DoStep(tr, steps[i], run[i]);
      if run[i].outcome.Done? then RunFrom(tr', steps, run, i + 1) else tr'
  }

  /** How many steps a run from position `i` has started when it ends, counting from the first. */
  function Reached(run: seq<StepRun>, i: nat): (n: nat)
    requires i <= |run|
    ensures i <= n <= |run|
    ensures forall j :: i <= j < n - 1 ==> run[j].outcome.Done?
    ensures n < |run| ==> i < n && !run[n - 1].outcome.Done?
    decreases |run| - i
  {
    if i == |run| then i else if run[i].outcome.Done? then Reached(run, i + 1) else i + 1
  }

  predicate AllDone(run: seq<StepRun>) {
    forall i :: 0 <= i < |run| ==> run[i].outcome.Done?
  }

  /** Run's own result. */
  function RunPhase(run: seq<StepRun>): Phase {
    if AllDone(run) then Upgraded else Upgrading
  }

  // ---- Any number of runs of one step list --------------------------------------------------

  predicate FitsAll(steps: seq<string>, runs: seq<seq<StepRun>>) {
    forall k :: 0 <= k < |runs| ==> |runs[k]| == |steps|
  }

  function AfterRuns(steps: seq<string>, runs: seq<seq<StepRun>>): Track
    requires FitsAll(steps, runs)
  {
    if runs == [] then Track([], [])
    else RunFrom(AfterRuns(steps, runs[..|runs| - 1]), steps, runs[|runs| - 1], 0)
  }

  /** The furthest position any run ever started. */
  function Furthest(runs: seq<seq<StepRun>>): nat {
    if runs == [] then 0
    else
      var f, r := Furthest(runs[..|runs| - 1]), Reached(runs[|runs| - 1], 0);
      if f < r then r else f
  }

  lemma {:induction false} FurthestInRange(steps: seq<string>, runs: seq<seq<StepRun>>)
    requires FitsAll(steps, runs)
    ensures Furthest(runs) <= |steps|
  {
    if runs != [] {
      FurthestInRange(steps, runs[..|runs| - 1]);
    }
  }

  /** First occurrences, in order. */
  function Dedup(names: seq<string>): (d: seq<string>)
    ensures forall x :: x in d <==> x in names
    ensures Distinct(d)
  {
    if names == [] then []
    else
      var rest := names[..|names| - 1];
      assert names == rest + [names[|names| - 1]];
      var d := Dedup(rest);
      if names[|names| - 1] in d then d else d + [names[|names| - 1]]
  }

  function Reverse<T>(s: seq<T>): (r: seq<T>)
    ensures |r| == |s|
    ensures forall i :: 0 <= i < |s| ==> r[i] == s[|s| - 1 - i]
  {
    if s == [] then [] else [s[|s| - 1]] + Reverse(s[..|s| - 1])
  }

  /** The names recorded once the steps before position `f` have been started. */
  function Recorded(steps: seq<string>, f: nat): seq<string>
    requires f <= |steps|
  {
    Reverse(Dedup(steps[..f]))
  }

  lemma RecordedNext(steps: seq<string>, f: nat)
    requires f < |steps|
    ensures Recorded(steps, f + 1) ==
            if steps[f] in steps[..f] then Recorded(steps, f) else [steps[f]] + Recorded(steps, f)
    ensures forall x :: x in Recorded(steps, f) <==> x in steps[..f]
  {
    assert steps[..f + 1][..f] == steps[..f];
    var d := Dedup(steps[..f]);
    assert (d + [steps[f]])[..|d|] == d;
    forall x ensures x in Reverse(d) <==> x in d {
      if x in d {
        var i :| 0 <= i < |d| && d[i] == x;
        assert Reverse(d)[|d| - 1 - i] == x;
      }
    }
  }

  lemma FoundByType(cs: seq<Condition>, t: string)
    ensures GetCondition(cs, t).Some? <==> t in Types(cs)
    ensures GetCondition(cs, t).Some? ==> GetCondition(cs, t).value.ctype == t
  {
  }

  lemma DoStepTypes(tr: Track, step: string, r: StepRun)
    ensures Types(DoStep(tr, step, r).conds) ==
            if step in Types(tr.conds) then Types(tr.conds) else [step] + Types(tr.conds)
  {
    FoundByType(tr.conds, step);
    var oc := StartSets(tr.conds, step, r.startedAt);
    if oc.Some? {
      SetConditionIsKeyed(tr.conds, oc.value, r.startedAt);
    }
    var mid := StartStep(tr, step, r);
    FoundByType(mid.conds, step);
    var ec := EndSets(mid.conds, step, r);
    if ec.Some? {
      SetConditionIsKeyed(mid.conds, ec.value, r.endedAt);
    }
  }

  lemma {:induction false} RunFromTypes(tr: Track, steps: seq<string>, run: seq<StepRun>, i: nat, f: nat)
    requires |run| == |steps| && i <= f <= |steps|
    requires Types(tr.conds) == Recorded(steps, f)
    ensures var r := Reached(run, i);
            Types(RunFrom(tr, steps, run, i).conds) == Recorded(steps, if f < r then r else f)
    decreases |steps| - i
  {
    hide DoStep, Recorded;
    if i < |steps| {
      DoStepTypes(tr, steps[i], run[i]);
      var tr' := DoStep(tr, steps[i], run[i]);
      var f' := if i == f then f + 1 else f;
      if i == f {
        RecordedNext(steps, f);
      } else {
        assert steps[i] in steps[..f];
        if f < |steps| {
          RecordedNext(steps, f);
        } else {
          RecordedNext(steps, f - 1);
          RecordedMembers(steps, f);
        }
      }
      if run[i].outcome.Done? {
        RunFromTypes(tr', steps, run, i + 1, f');
      }
    }
  }

  lemma RecordedMembers(steps: seq<string>, f: nat)
    requires f <= |steps|
    ensures forall x :: x in Recorded(steps, f) <==> x in steps[..f]
  {
    var d := Dedup(steps[..f]);
    forall x ensures x in Reverse(d) <==> x in d {
      if x in d {
        var i :| 0 <= i < |d| && d[i] == x;
        assert Reverse(d)[|d| - 1 - i] == x;
      }
    }
  }

  /** Whatever the outcomes of however many runs, the recorded condition types are exactly the
      distinct names of the steps ever started, latest first. */
  lemma {:induction false} RecordedTypes(steps: seq<string>, runs: seq<seq<StepRun>>)
    requires FitsAll(steps, runs)
    ensures Furthest(runs) <= |steps|
    ensures Types(AfterRuns(steps, runs).conds) == Reverse(Dedup(steps[..Furthest(runs)]))
  {
    FurthestInRange(steps, runs);
    if runs != [] {
      var before := runs[..|runs| - 1];
      RecordedTypes(steps, before);
      RunFromTypes(AfterRuns(steps, before), steps, runs[|runs| - 1], 0, Furthest(before));
    }
  }

  // ---- What a condition's status means -------------------------------------------------------

  /** The result of the last started occurrence of `name` in one run from position `i`, if any. */
  function RunVerdict(steps: seq<string>, run: seq<StepRun>, i: nat, name: string): Option<bool>
    requires |run| == |steps| && i <= |steps|
    decreases |steps| - i
  {
    if i == |steps| then None
    else
      var later := if run[i].outcome.Done? then RunVerdict(steps, run, i + 1, name) else None;
      if later.Some? then later
      else if steps[i] == name then Some(run[i].outcome.Done?) else None
  }

  /** The result of the latest started occurrence of `name` over all runs, if any. */
  function Verdict(steps: seq<string>, runs: seq<seq<StepRun>>, name: string): Option<bool>
    requires FitsAll(steps, runs)
  {
    if runs == [] then None
    else
      var v := RunVerdict(steps, runs[|runs| - 1], 0, name);
      if v.Some? then v else Verdict(steps, runs[..|runs| - 1], name)
  }

  function StatusOf(cs: seq<Condition>, name: string): Option<Status> {
    var c := GetCondition(cs, name);
    if c.Some? then Some(c.value.status) else None
  }

  function AsStatus(v: Option<bool>): Option<Status> {
    if v.None? then None else Some(if v.value then IsTrue else IsFalse)
  }

  lemma DoStepStatus(tr: Track, step: string, r: StepRun, name: string)
    ensures StatusOf(DoStep(tr, step, r).conds, name) ==
            if name == step then AsStatus(Some(r.outcome.Done?)) else StatusOf(tr.conds, name)
  {
    FoundByType(tr.conds, step);
    var oc := StartSets(tr.conds, step, r.startedAt);
    if oc.Some? {
      SetConditionIsKeyed(tr.conds, oc.value, r.startedAt);
    }
    var mid := StartStep(tr, step, r);
    FoundByType(mid.conds, step);
    SetConditionIsKeyed(mid.conds, EndSets(mid.conds, step, r).value, r.endedAt);
  }

  lemma {:induction false} RunFromStatus(tr: Track, steps: seq<string>, run: seq<StepRun>, i: nat, name: string)
    requires |run| == |steps| && i <= |steps|
    ensures var v := RunVerdict(steps, run, i, name);
            StatusOf(RunFrom(tr, steps, run, i).conds, name) ==
            if v.Some? then AsStatus(v) else StatusOf(tr.conds, name)
    decreases |steps| - i
  {
    if i < |steps| {
      DoStepStatus(tr, steps[i], run[i], name);
      if run[i].outcome.Done? {
        RunFromStatus(DoStep(tr, steps[i], run[i]), steps, run, i + 1, name);
      }
    }
  }

  /** A condition's status is the latest result of its step. */
  lemma {:induction false} StatusIsVerdict(steps: seq<string>, runs: seq<seq<StepRun>>, name: string)
    requires FitsAll(steps, runs)
    ensures StatusOf(AfterRuns(steps, runs).conds, name) == AsStatus(Verdict(steps, runs, name))
  {
    if runs != [] {
      var before := runs[..|runs| - 1];
      StatusIsVerdict(steps, before, name);
      RunFromStatus(AfterRuns(steps, before), steps, runs[|runs| - 1], 0, name);
    }
  }

  // ---- What a condition's message and reason tell -----------------------------------------------------------------

  /** The outcome of the last started occurrence of `name` in one run from position `i`, if any. */
  function RunOutcome(steps: seq<string>, run: seq<StepRun>, i: nat, name: string): Option<Outcome>
    requires |run| == |steps| && i <= |steps|
    decreases |steps| - i
  {
    if i == |steps| then None
    else
      var later := if run[i].outcome.Done? then RunOutcome(steps, run, i + 1, name) else None;
      if later.Some? then later
      else if steps[i] == name then Some(run[i].outcome) else None
  }

  function LatestOutcome(steps: seq<string>, runs: seq<seq<StepRun>>, name: string): Option<Outcome>
    requires FitsAll(steps, runs)
  {
    if runs == [] then None
    else
      var o := RunOutcome(steps, runs[|runs| - 1], 0, name);
      if o.Some? then o else LatestOutcome(steps, runs[..|runs| - 1], name)
  }

  /** In this run a step of that name was started at or after position `i`, and returned true. */
  predicate DoneIn(steps: seq<string>, run: seq<StepRun>, i: nat, name: string)
    requires |run| == |steps| && i <= |steps|
  {
    exists j :: i <= j < Reached(run, i) && steps[j] == name && run[j].outcome.Done?
  }

  predicate EverDone(steps: seq<string>, runs: seq<seq<StepRun>>, name: string)
    requires FitsAll(steps, runs)
  {
    exists k :: 0 <= k < |runs| && DoneIn(steps, runs[k], 0, name)
  }

  /** The message for an outcome, and the reason for a step that was or was not ever done. */
  predicate Tells(c: Condition, name: string, o: Outcome, done: bool) {
    && c.message == (match o
                     case Done => name + " is completed"
                     case NotDone => name + " still in progress"
                     case Erred(message) => message)
    && c.reason == name + if done then " done" else " not done"
  }

  /** The condition of `name`, if it has one, tells this outcome and whether the step was ever done. */
  predicate TellsAll(cs: seq<Condition>, name: string, o: Option<Outcome>, done: bool) {
    var c := GetCondition(cs, name);
    if c.Some? then o.Some? && Tells(c.value, name, o.value, done) else o.None? && !done
  }

  lemma DoStepTells(tr: Track, step: string, r: StepRun, name: string, o: Option<Outcome>, done: bool)
    requires TellsAll(tr.conds, name, o, done)
    ensures if name == step then TellsAll(DoStep(tr, step, r).conds, name, Some(r.outcome), done || r.outcome.Done?)
            else TellsAll(DoStep(tr, step, r).conds, name, o, done)
  {
    FoundByType(tr.conds, step);
    var oc := StartSets(tr.conds, step, r.startedAt);
    if oc.Some? {
      SetConditionIsKeyed(tr.conds, oc.value, r.startedAt);
    }
    var mid := StartStep(tr, step, r);
    FoundByType(mid.conds, step);
    SetConditionIsKeyed(mid.conds, EndSets(mid.conds, step, r).value, r.endedAt);
  }

  lemma DoneInNext(steps: seq<string>, run: seq<StepRun>, i: nat, name: string)
    requires |run| == |steps| && i < |steps|
    ensures DoneIn(steps, run, i, name) <==>
            run[i].outcome.Done? && (steps[i] == name || DoneIn(steps, run, i + 1, name))
  {
    if run[i].outcome.Done? && DoneIn(steps, run, i + 1, name) {
      var j :| i + 1 <= j < Reached(run, i + 1) && steps[j] == name && run[j].outcome.Done?;
    }
  }

  lemma {:induction false} RunFromTells(
    tr: Track, steps: seq<string>, run: seq<StepRun>, i: nat, name: string, o: Option<Outcome>, done: bool)
    requires |run| == |steps| && i <= |steps| && TellsAll(tr.conds, name, o, done)
    ensures var o' := RunOutcome(steps, run, i, name);
            TellsAll(RunFrom(tr, steps, run, i).conds, name, if o'.Some? then o' else o, done || DoneIn(steps, run, i, name))
    decreases |steps| - i
  {
    hide TellsAll, DoStep, DoneIn;
    if i < |steps| {
      DoStepTells(tr, steps[i], run[i], name, o, done);
      DoneInNext(steps, run, i, name);
      if run[i].outcome.Done? {
        var here := steps[i] == name;
        RunFromTells(DoStep(tr, steps[i], run[i]), steps, run, i + 1, name,
                     if here then Some(run[i].outcome) else o, done || here);
      }
    } else {
      assert !DoneIn(steps, run, i, name) by { NoneLeft(steps, run, name); }
    }
  }

  lemma NoneLeft(steps: seq<string>, run: seq<StepRun>, name: string)
    requires |run| == |steps|
    ensures !DoneIn(steps, run, |steps|, name)
  {
  }

  /** A condition's message tells the latest outcome of its step; its reason tells whether the step was ever done, in any
      run, also when it is not done now. */
  lemma {:induction false} TextTellsOutcome(steps: seq<string>, runs: seq<seq<StepRun>>, name: string)
    requires FitsAll(steps, runs)
    ensures TellsAll(AfterRuns(steps, runs).conds, name, LatestOutcome(steps, runs, name), EverDone(steps, runs, name))
  {
    hide TellsAll, DoneIn, RunFrom;
    if runs == [] {
      assert TellsAll([], name, None, false) by { NothingTold(name); }
    } else {
      var n := |runs| - 1;
      var before := runs[..n];
      TextTellsOutcome(steps, before, name);
      RunFromTells(AfterRuns(steps, before), steps, runs[n], 0, name, LatestOutcome(steps, before, name),
                   EverDone(steps, before, name));
      assert EverDone(steps, runs, name) <==> EverDone(steps, before, name) || DoneIn(steps, runs[n], 0, name) by {
        assert forall k :: 0 <= k < n ==> before[k] == runs[k];
      }
    }
  }

  lemma NothingTold(name: string)
    ensures TellsAll([], name, None, false)
  {
  }

  // ---- The condition the failure and delay notices describe ------------------------------------

  /** Position of the first condition that is False, or the length of the list. */
  function FirstFalse(cs: seq<Condition>): (i: nat)
    ensures i <= |cs|
    ensures i < |cs| ==> cs[i].status.IsFalse?
    ensures forall j :: 0 <= j < i ==> !cs[j].status.IsFalse?
  {
    if cs == [] || cs[0].status.IsFalse? then 0 else 1 + FirstFalse(cs[1..])
  }

  /** The step the notices are written about. */
  function FirstIncomplete(cs: seq<Condition>): Option<string> {
    var i := FirstFalse(cs);
    if i < |cs| then Some(cs[i].ctype) else None
  }

  /** The scan as the event manager performs it. */
  method FindIncomplete(cs: seq<Condition>) returns (r: Option<string>)
    ensures r == FirstIncomplete(cs)
  {
    r := None;
    for i := 0 to |cs|
      invariant r.None? && i + FirstFalse(cs[i..]) == FirstFalse(cs)
    {
      assert cs[i..][1..] == cs[i + 1..];
      if cs[i].status == IsFalse {
        r := Some(cs[i].ctype);
        return;
      }
    }
  }

  /** Position `k` among the distinct started steps is not done, and every later one is. */
  predicate IncompleteAt(d: seq<string>, steps: seq<string>, runs: seq<seq<StepRun>>, k: nat)
    requires FitsAll(steps, runs)
  {
    && k < |d| && Verdict(steps, runs, d[k]) == Some(false)
    && forall j :: k < j < |d| ==> Verdict(steps, runs, d[j]) == Some(true)
  }

  /** `t` is the furthest started step whose latest result was not done. */
  ghost predicate IsFurthestIncomplete(steps: seq<string>, runs: seq<seq<StepRun>>, t: string)
    requires FitsAll(steps, runs) && Furthest(runs) <= |steps|
  {
    var d := Dedup(steps[..Furthest(runs)]);
    exists k: nat :: IncompleteAt(d, steps, runs, k) && d[k] == t
  }

  /** The condition at position `i` belongs to the i-th latest distinct step and carries its result. */
  lemma ConditionAt(steps: seq<string>, runs: seq<seq<StepRun>>, i: nat)
    requires FitsAll(steps, runs) && Furthest(runs) <= |steps|
    requires i < |AfterRuns(steps, runs).conds|
    ensures var c := AfterRuns(steps, runs).conds[i];
            var d := Dedup(steps[..Furthest(runs)]);
            && |AfterRuns(steps, runs).conds| == |d|
            && c.ctype == d[|d| - 1 - i]
            && AsStatus(Verdict(steps, runs, c.ctype)) == Some(c.status)
  {
    RecordedTypes(steps, runs);
    var cs := AfterRuns(steps, runs).conds;
    var d := Dedup(steps[..Furthest(runs)]);
    assert cs[i].ctype == Types(cs)[i] == Reverse(d)[i];
    ReverseDistinct(d);
    DistinctFind(cs, i);
    StatusIsVerdict(steps, runs, cs[i].ctype);
  }

  lemma ReverseDistinct(d: seq<string>)
    requires Distinct(d)
    ensures Distinct(Reverse(d))
  {
  }

  /** The notices describe the furthest step ever started that is not done; they fall back to the
      default text exactly when every step started so far is done. */
  lemma NoticeDescribesFurthestIncomplete(steps: seq<string>, runs: seq<seq<StepRun>>)
    requires FitsAll(steps, runs)
    ensures Furthest(runs) <= |steps|
    ensures match FirstIncomplete(AfterRuns(steps, runs).conds)
            case Some(t) => IsFurthestIncomplete(steps, runs, t)
            case None => forall t :: t in steps[..Furthest(runs)] ==> Verdict(steps, runs, t) == Some(true)
  {
    hide AfterRuns, Furthest, Verdict, IsFurthestIncomplete;
    RecordedTypes(steps, runs);
    var cs := AfterRuns(steps, runs).conds;
    var d := Dedup(steps[..Furthest(runs)]);
    assert |cs| == |d|;
    if FirstIncomplete(cs).None? {
      forall t | t in steps[..Furthest(runs)] ensures Verdict(steps, runs, t) == Some(true) {
        var k :| 0 <= k < |d| && d[k] == t;
        ConditionAt(steps, runs, |d| - 1 - k);
      }
    } else {
      FirstIncompleteIsFurthest(steps, runs, FirstIncomplete(cs).value);
    }
  }

  lemma FirstIncompleteIsFurthest(steps: seq<string>, runs: seq<seq<StepRun>>, t: string)
    requires FitsAll(steps, runs) && Furthest(runs) <= |steps|
    requires FirstIncomplete(AfterRuns(steps, runs).conds) == Some(t)
    ensures IsFurthestIncomplete(steps, runs, t)
  {
    hide AfterRuns, Dedup, Verdict, Furthest;
    var cs := AfterRuns(steps, runs).conds;
    var d := Dedup(steps[..Furthest(runs)]);
    var i := FirstFalse(cs);
    ConditionAt(steps, runs, i);
    var k := |d| - 1 - i;
    forall j | k < j < |d| ensures Verdict(steps, runs, d[j]) == Some(true) {
      ConditionAt(steps, runs, |d| - 1 - j);
    }
    assert IncompleteAt(d, steps, runs, k) && d[k] == t;
  }

  lemma DistinctFind(cs: seq<Condition>, i: nat)
    requires i < |cs| && Distinct(Types(cs))
    ensures GetCondition(cs, cs[i].ctype) == Some(cs[i])
  {
    var k := Find(cs, cs[i].ctype);
    assert k <= i;
    assert Types(cs)[k] == Types(cs)[i];
  }

  // ---- Which run a notice is about -------------------------------------------------------------

  /** Within one run every reached step is done except the one it stopped at, and the steps beyond
      its reach get no result. */
  lemma {:induction false} RunVerdictByReach(steps: seq<string>, run: seq<StepRun>, i: nat, t: string)
    requires |run| == |steps| && i < |steps| && !AllDone(run[i..])
    ensures var n := Reached(run, i);
            && i < n && !run[n - 1].outcome.Done?
            && RunVerdict(steps, run, i, t) ==
               if t == steps[n - 1] then Some(false) else if t in steps[i..n] then Some(true) else None
    decreases |steps| - i
  {
    var n := Reached(run, i);
    if run[i].outcome.Done? {
      assert run[i..][1..] == run[i + 1..];
      assert !AllDone(run[i + 1..]) by {
        var k :| 0 <= k < |run[i..]| && !run[i..][k].outcome.Done?;
        assert !run[i + 1..][k - 1].outcome.Done?;
      }
      RunVerdictByReach(steps, run, i + 1, t);
      assert steps[i..n] == [steps[i]] + steps[i + 1..n];
    } else {
      assert steps[i..n] == [steps[i]];
    }
  }

  /** De-duplicating a longer prefix only adds names, at the end. */
  lemma {:induction false} DedupGrows(s: seq<string>, n: nat)
    requires n <= |s|
    ensures Dedup(s[..n]) <= Dedup(s)
    ensures forall j :: |Dedup(s[..n])| <= j < |Dedup(s)| ==> Dedup(s)[j] !in s[..n]
  {
    if n == |s| {
      assert s[..n] == s;
    } else {
      var rest := s[..|s| - 1];
      DedupGrows(rest, n);
      assert rest[..n] == s[..n];
    }
  }

  /** A name already among the first `n` precedes one that is not. */
  lemma EarlierNamesFirst(s: seq<string>, n: nat, k: nat, j: nat)
    requires n <= |s| && k < |Dedup(s)| && j < |Dedup(s)|
    requires Dedup(s)[k] in s[..n] && Dedup(s)[j] !in s[..n]
    ensures k < j
  {
    DedupGrows(s, n);
  }

  lemma {:induction false} VerdictsAreOfStartedSteps(steps: seq<string>, runs: seq<seq<StepRun>>, t: string)
    requires FitsAll(steps, runs)
    ensures Furthest(runs) <= |steps|
    ensures Verdict(steps, runs, t).Some? ==> t in steps[..Furthest(runs)]
  {
    RecordedTypes(steps, runs);
    StatusIsVerdict(steps, runs, t);
    FoundByType(AfterRuns(steps, runs).conds, t);
    RecordedMembers(steps, Furthest(runs));
  }

  /** A run that stopped decides the steps it reached and leaves the others' results alone. */
  lemma VerdictAfter(steps: seq<string>, runs: seq<seq<StepRun>>, run: seq<StepRun>, t: string)
    requires FitsAll(steps, runs) && |run| == |steps| && !AllDone(run)
    ensures FitsAll(steps, runs + [run]) && 0 < Reached(run, 0) <= |steps|
    ensures var n := Reached(run, 0);
            Verdict(steps, runs + [run], t) ==
            if t == steps[n - 1] then Some(false) else if t in steps[..n] then Some(true) else Verdict(steps, runs, t)
  {
    var n := Reached(run, 0);
    assert (runs + [run])[..|runs|] == runs && run[0..] == run;
    RunVerdictByReach(steps, run, 0, t);
    assert steps[0..n] == steps[..n];
  }

  /** An incomplete step beyond the latest run's reach hides the step that run stopped at. */
  lemma LaterStepIsReported(steps: seq<string>, runs: seq<seq<StepRun>>, run: seq<StepRun>, x: string)
    requires FitsAll(steps, runs) && |run| == |steps| && !AllDone(run)
    requires x !in steps[..Reached(run, 0)] && Verdict(steps, runs, x) == Some(false)
    ensures 0 < Reached(run, 0) <= |steps| && FitsAll(steps, runs + [run])
    ensures FirstIncomplete(AfterRuns(steps, runs + [run]).conds) != Some(steps[Reached(run, 0) - 1])
  {
    var all, n := runs + [run], Reached(run, 0);
    VerdictAfter(steps, runs, run, x);
    VerdictsAreOfStartedSteps(steps, all, x);
    var stop := steps[n - 1];
    if FirstIncomplete(AfterRuns(steps, all).conds) == Some(stop) {
      FirstIncompleteIsFurthest(steps, all, stop);
      var f := Furthest(all);
      var d := Dedup(steps[..f]);
      var k: nat :| IncompleteAt(d, steps, all, k) && d[k] == stop;
      assert (runs + [run])[..|runs|] == runs;
      var j: nat :| j < |d| && d[j] == x;
      assert steps[..f][..n] == steps[..n];
      assert stop in steps[..n] by { assert steps[..n][n - 1] == stop; }
      EarlierNamesFirst(steps[..f], n, k, j);
      assert false;
    }
  }

  /** The notice describes the step the latest run stopped at exactly when no step beyond that run's
      reach is still incomplete from an earlier run. */
  lemma StopStepIsReported(steps: seq<string>, runs: seq<seq<StepRun>>, run: seq<StepRun>)
    requires FitsAll(steps, runs) && |run| == |steps| && !AllDone(run)
    ensures FitsAll(steps, runs + [run]) && 0 < Reached(run, 0) <= |steps|
    ensures FirstIncomplete(AfterRuns(steps, runs + [run]).conds) == Some(steps[Reached(run, 0) - 1])
            <==> forall t :: t !in steps[..Reached(run, 0)] ==> Verdict(steps, runs, t) != Some(false)
  {
    var all, n := runs + [run], Reached(run, 0);
    var stop := steps[n - 1];
    VerdictAfter(steps, runs, run, stop);
    if x :| x !in steps[..n] && Verdict(steps, runs, x) == Some(false) {
      LaterStepIsReported(steps, runs, run, x);
    } else {
      NoticeDescribesFurthestIncomplete(steps, all);
      VerdictsAreOfStartedSteps(steps, all, stop);
      var t := FirstIncomplete(AfterRuns(steps, all).conds).value;
      VerdictAfter(steps, runs, run, t);
      assert Verdict(steps, all, t) == Some(false);
    }
  }

  /** A first run that stops at its second step and a second run that stops at its first: the notice still describes
      the second step. */
  lemma AnotherStepIsReported(steps: seq<string>, at: Time)
    requires |steps| == 2 && steps[0] != steps[1]
    ensures var first := [StepRun(at, Done, at), StepRun(at, NotDone, at)];
            var second := [StepRun(at, NotDone, at), StepRun(at, NotDone, at)];
            && Reached(second, 0) == 1 && FitsAll(steps, [first] + [second])
            && FirstIncomplete(AfterRuns(steps, [first] + [second]).conds) != Some(steps[0])
  {
    var first := [StepRun(at, Done, at), StepRun(at, NotDone, at)];
    var second := [StepRun(at, NotDone, at), StepRun(at, NotDone, at)];
    assert !first[1].outcome.Done? && !second[0].outcome.Done?;
    assert Verdict(steps, [first], steps[1]) == Some(false) by {
      assert RunVerdict(steps, first, 1, steps[1]) == Some(false);
    }
    assert steps[..1] == [steps[0]];
    LaterStepIsReported(steps, [first], second, steps[1]);
  }
}

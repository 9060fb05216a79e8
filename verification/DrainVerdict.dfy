/** The verdict that a node's drain has failed: a sort of the strategies by wait, then deadline arithmetic. */
module DrainVerdict {
  import opened Kube
  import opened Drain

  // ---- The sort ----------------------------------------------------------------------------------------------

  /** Slices up to this length are insertion-sorted by the Go library. */
  const INSERTION_LIMIT: nat := 12

  predicate Permutation(a: seq<Timed>, b: seq<Timed>) {
    multiset(a) == multiset(b)
  }

  predicate Ascending(ts: seq<Timed>) {
    forall i, j :: 0 <= i < j < |ts| ==> ts[i].wait <= ts[j].wait
  }

  /** The comparison the sort is given: it looks up both positions in the unsorted input. */
  predicate Less(ts: seq<Timed>, i: nat, j: nat)
    requires i < |ts| && j < |ts|
  {
    ts[i].wait < ts[j].wait
  }

  function Swap(s: seq<Timed>, j: nat): seq<Timed>
    requires 0 < j < |s|
  {
    s[j := s[j - 1]][j - 1 := s[j]]
  }

  function Sink(ts: seq<Timed>, s: seq<Timed>, j: nat): (r: seq<Timed>)
    requires |s| == |ts| && j < |s|
    ensures |r| == |s|
    decreases j
  {
    if j > 0 && Less(ts, j, j - 1) then Sink(ts, Swap(s, j), j - 1) else s
  }

  function SortedFrom(ts: seq<Timed>, s: seq<Timed>, i: nat): (r: seq<Timed>)
    requires |s| == |ts|
    ensures |r| == |s|
    decreases |s| - i
  {
    if i >= |s| then s else SortedFrom(ts, Sink(ts, s, i), i + 1)
  }

  lemma SinkNext(ts: seq<Timed>, s: seq<Timed>, j: nat)
    requires |s| == |ts| && j < |s|
    ensures Sink(ts, s, j) == if j > 0 && Less(ts, j, j - 1) then Sink(ts, Swap(s, j), j - 1) else s
    ensures j > 0 ==> multiset(Swap(s, j)) == multiset(s)
  {
  }

  lemma SortNext(ts: seq<Timed>, s: seq<Timed>, i: nat)
    requires |s| == |ts|
    ensures SortedFrom(ts, s, i) == if i >= |s| then s else SortedFrom(ts, Sink(ts, s, i), i + 1)
  {
    hide Sink;
  }

  /** sortDuration copies the strategies and sorts the copy in place. A longer slice goes through another
      algorithm of the library, of which only `other`, the permutation it ends with, is known. */
  method SortDuration(ts: seq<Timed>, other: seq<Timed>) returns (r: seq<Timed>)
    requires |ts| > INSERTION_LIMIT ==> Permutation(other, ts)
    ensures Permutation(r, ts)
    ensures |ts| <= INSERTION_LIMIT ==> r == SortedFrom(ts, ts, 1)
    ensures |ts| > INSERTION_LIMIT ==> r == other
  {
    hide Sink, SortedFrom;
    if |ts| > INSERTION_LIMIT {
      return other;
    }
    var a := new Timed[|ts|](i requires 0 <= i < |ts| => ts[i]);
    assert a[..] == ts;
    var i := 1;
    while i < |ts|
      invariant i >= 1 && multiset(a[..]) == multiset(ts)
      invariant SortedFrom(ts, a[..], i) == SortedFrom(ts, ts, 1)
    {
      ghost var s := a[..];
      SortNext(ts, s, i);
      var j := i;
      while j > 0 && Less(ts, j, j - 1)
        invariant 0 <= j <= i
        invariant multiset(a[..]) == multiset(ts)
        invariant Sink(ts, a[..], j) == Sink(ts, s, i)
      {
        ghost var before := a[..];
        SinkNext(ts, before, j);
        a[j], a[j - 1] := a[j - 1], a[j];
        assert a[..] == Swap(before, j);
        j := j - 1;
      }
      SinkNext(ts, a[..], j);
      i := i + 1;
    }
    SortNext(ts, a[..], i);
    r := a[..];
  }

  // ---- The verdict -------------------------------------------------------------------------------------------

  function Due(s: seq<Timed>, elapsed: Time): (r: seq<Timed>)
    ensures |r| <= |s|
  {
    if s == [] then []
    else
      var t := s[|s| - 1];
      Due(s[..|s| - 1], elapsed) + if IsDue(t, elapsed) then [t] else []
  }

  /** Whether a strategy still has pods to act on; None when listing them failed. */
  type Validity = Timed -> Option<bool>

  predicate AnyError(s: seq<Timed>, valid: Validity) {
    exists i :: 0 <= i < |s| && valid(s[i]) == None
  }

  predicate AnyValid(s: seq<Timed>, valid: Validity) {
    exists i :: 0 <= i < |s| && valid(s[i]) == Some(true)
  }

  function Max(a: Time, b: Time): Time {
    if a > b then a else b
  }

  function Deadline(executed: seq<Timed>, timeOut: Time, expected: Time): Time {
    if executed == [] then timeOut else Max(timeOut, executed[|executed| - 1].wait + expected)
  }

  /** The verdict for the strategies in the order the sort left them; None is an error. */
  function Verdict(s: seq<Timed>, timeOut: Time, expected: Time, elapsed: Time, valid: Validity): Option<bool> {
    var executed := Due(s, elapsed);
    var pending := s[|executed|..];
    if AnyError(pending, valid) then None
    else if AnyValid(pending, valid) then Some(false)
    else Some(elapsed > Deadline(executed, timeOut, expected))
  }

  /** The strategies that are due, and how many of them there are. */
  method Executed(sorted: seq<Timed>, elapsed: Time) returns (executed: seq<Timed>, current: nat)
    ensures executed == Due(sorted, elapsed) && current == |executed|
  {
    executed, current := [], 0;
    for i := 0 to |sorted|
      invariant executed == Due(sorted[..i], elapsed) && current == |executed|
    {
      assert sorted[..i + 1][..i] == sorted[..i];
      if IsDue(sorted[i], elapsed) {
        executed := executed + [sorted[i]];
        current := current + 1;
      }
    }
    assert sorted[..|sorted|] == sorted;
  }

  /** Whether any pending strategy is valid; the first failing check ends the loop. */
  method CheckPending(pending: seq<Timed>, valid: Validity) returns (r: Option<bool>)
    ensures r == if AnyError(pending, valid) then None else Some(AnyValid(pending, valid))
  {
    var validPending: seq<Timed> := [];
    for i := 0 to |pending|
      invariant forall k :: 0 <= k < i ==> valid(pending[k]) != None
      invariant validPending == [] <==> forall k :: 0 <= k < i ==> valid(pending[k]) != Some(true)
    {
      var isValid := valid(pending[i]);
      if isValid.None? {
        return None;
      }
      if isValid.value {
        validPending := validPending + [pending[i]];
      }
    }
    r := Some(|validPending| > 0);
  }

  method HasFailed(
    ts: seq<Timed>, other: seq<Timed>, timeOut: Time, expected: Time,
    addedAt: Option<Time>, now: Time, valid: Validity) returns (r: Option<bool>)
    requires addedAt.Some? ==> addedAt.value <= now
    requires |ts| > INSERTION_LIMIT ==> Permutation(other, ts)
    ensures addedAt.None? ==> r == Some(false)
    ensures addedAt.Some? ==>
              r == Verdict(
                     if |ts| > INSERTION_LIMIT then other else SortedFrom(ts, ts, 1),
                     timeOut, expected, now - addedAt.value, valid)
  {
    if addedAt.None? {
      return Some(false);
    }
    var elapsed: Time := now - addedAt.value;
    if |ts| == 0 {
      return Some(elapsed > timeOut);
    }
    var sorted := SortDuration(ts, other);
    var executed, current := Executed(sorted, elapsed);
    var pending := CheckPending(sorted[current..], valid);
    if pending.None? {
      return None;
    }
    if pending.value {
      return Some(false);
    }
    if |executed| > 0 {
      var last := executed[|executed| - 1];
      if last.wait + expected > timeOut {
        return Some(elapsed > last.wait + expected);
      }
    }
    return Some(elapsed > timeOut);
  }

  // ---- Bounds that hold whatever the sort does ----------------------------------------------------------------

  lemma {:induction false} DueOf(s: seq<Timed>, elapsed: Time)
    ensures forall t :: t in Due(s, elapsed) <==> t in s && IsDue(t, elapsed)
  {
    if s != [] {
      DueOf(s[..|s| - 1], elapsed);
      assert s == s[..|s| - 1] + [s[|s| - 1]];
    }
  }

  lemma {:induction false} AllDue(s: seq<Timed>, elapsed: Time)
    requires forall t :: t in s ==> IsDue(t, elapsed)
    ensures Due(s, elapsed) == s
  {
    if s != [] {
      AllDue(s[..|s| - 1], elapsed);
      assert s == s[..|s| - 1] + [s[|s| - 1]];
    }
  }

  /** In whatever order the strategies come out of the sort, no node is failed within the drain timeout,
      and every node is failed, without an error, once every strategy is overdue by the expected drain time. */
  lemma VerdictBounds(ts: seq<Timed>, s: seq<Timed>, timeOut: Time, expected: Time, elapsed: Time, valid: Validity)
    requires Permutation(s, ts)
    ensures elapsed <= timeOut ==> Verdict(s, timeOut, expected, elapsed, valid) != Some(true)
    ensures (elapsed > timeOut && forall t :: t in ts ==> elapsed > t.wait + expected) ==>
              Verdict(s, timeOut, expected, elapsed, valid) == Some(true)
  {
    if elapsed > timeOut && forall t :: t in ts ==> elapsed > t.wait + expected {
      forall t | t in s ensures t in ts {
        assert t in multiset(s);
      }
      AllDue(s, elapsed);
      if s != [] {
        assert s[|s| - 1] in s;
      }
    }
  }

  // ---- The rule the verdict stands for ------------------------------------------------------------------------

  ghost predicate Errs(ts: seq<Timed>, elapsed: Time, valid: Validity) {
    exists t :: t in ts && !IsDue(t, elapsed) && valid(t) == None
  }

  ghost predicate SomeStillValid(ts: seq<Timed>, elapsed: Time, valid: Validity) {
    exists t :: t in ts && !IsDue(t, elapsed) && valid(t) == Some(true)
  }

  ghost predicate Overdue(ts: seq<Timed>, timeOut: Time, expected: Time, elapsed: Time) {
    elapsed > timeOut && forall t :: t in ts && IsDue(t, elapsed) ==> elapsed > t.wait + expected
  }

  /** While a strategy not yet due still has pods the drain is in hand. Otherwise the node has failed once
      the timeout is over and every strategy that came due has had the expected drain time to work. */
  ghost function Rule(ts: seq<Timed>, timeOut: Time, expected: Time, elapsed: Time, valid: Validity): Option<bool> {
    if Errs(ts, elapsed, valid) then None
    else if SomeStillValid(ts, elapsed, valid) then Some(false)
    else Some(Overdue(ts, timeOut, expected, elapsed))
  }

  lemma {:induction false} DueIsPrefix(s: seq<Timed>, elapsed: Time)
    requires Ascending(s)
    ensures Due(s, elapsed) == s[..|Due(s, elapsed)|]
    ensures forall i :: 0 <= i < |s| ==> (IsDue(s[i], elapsed) <==> i < |Due(s, elapsed)|)
  {
    if s != [] {
      var n := |s| - 1;
      if IsDue(s[n], elapsed) {
        AllDue(s, elapsed);
      } else {
        DueIsPrefix(s[..n], elapsed);
        assert Due(s, elapsed) == Due(s[..n], elapsed);
        assert forall i :: 0 <= i < n ==> s[..n][i] == s[i];
      }
    }
  }

  lemma PendingIsNotDue(s: seq<Timed>, elapsed: Time)
    requires Ascending(s)
    ensures forall t :: t in s[|Due(s, elapsed)|..] <==> t in s && !IsDue(t, elapsed)
  {
    hide Due;
    DueIsPrefix(s, elapsed);
    var n := |Due(s, elapsed)|;
    var pending := s[n..];
    forall t ensures t in pending <==> t in s && !IsDue(t, elapsed) {
      if t in pending {
        var i :| 0 <= i < |pending| && pending[i] == t;
        assert s[n + i] == t;
      }
      if t in s && !IsDue(t, elapsed) {
        var i :| 0 <= i < |s| && s[i] == t;
        assert pending[i - n] == t;
      }
    }
  }

  lemma LastDueIsLatest(s: seq<Timed>, elapsed: Time)
    requires Ascending(s)
    ensures var due := Due(s, elapsed);
            && (due == [] ==> forall t :: t in s ==> !IsDue(t, elapsed))
            && (due != [] ==> due[|due| - 1] in s && IsDue(due[|due| - 1], elapsed))
            && (due != [] ==> forall t :: t in s && IsDue(t, elapsed) ==> t.wait <= due[|due| - 1].wait)
  {
    DueIsPrefix(s, elapsed);
    DueOf(s, elapsed);
  }

  lemma ChecksPendingOnly(s: seq<Timed>, elapsed: Time, valid: Validity)
    requires Ascending(s)
    ensures AnyError(s[|Due(s, elapsed)|..], valid) <==> Errs(s, elapsed, valid)
    ensures AnyValid(s[|Due(s, elapsed)|..], valid) <==> SomeStillValid(s, elapsed, valid)
  {
    PendingIsNotDue(s, elapsed);
    var pending := s[|Due(s, elapsed)|..];
    assert AnyError(pending, valid) <==> exists t :: t in pending && valid(t) == None;
    assert AnyValid(pending, valid) <==> exists t :: t in pending && valid(t) == Some(true);
  }

  lemma DeadlineIsOverdue(s: seq<Timed>, timeOut: Time, expected: Time, elapsed: Time)
    requires Ascending(s)
    ensures elapsed > Deadline(Due(s, elapsed), timeOut, expected) <==> Overdue(s, timeOut, expected, elapsed)
  {
    LastDueIsLatest(s, elapsed);
  }

  /** For strategies sorted by wait, what is checked as pending is exactly what is not yet due, and the
      verdict, errors included, is the rule. */
  lemma AscendingVerdictIsRule(s: seq<Timed>, timeOut: Time, expected: Time, elapsed: Time, valid: Validity)
    requires Ascending(s)
    ensures forall t :: t in s[|Due(s, elapsed)|..] <==> t in s && !IsDue(t, elapsed)
    ensures Verdict(s, timeOut, expected, elapsed, valid) == Rule(s, timeOut, expected, elapsed, valid)
  {
    PendingIsNotDue(s, elapsed);
    ChecksPendingOnly(s, elapsed, valid);
    DeadlineIsOverdue(s, timeOut, expected, elapsed);
  }

  lemma {:induction false} SortKeepsAscending(ts: seq<Timed>, i: nat)
    requires Ascending(ts)
    ensures SortedFrom(ts, ts, i) == ts
    decreases |ts| - i
  {
    if i < |ts| {
      SortKeepsAscending(ts, i + 1);
    }
  }

  // ---- The operator's own list --------------------------------------------------------------------------------

  /** What the sort makes of the five strategies: it puts them in order exactly when they already were. */
  lemma SortOfFive(timeOut: Time, pdbForce: Time, expected: Time)
    ensures var ts := Strategies(timeOut, pdbForce, expected);
            && (pdbForce + expected >= timeOut ==> SortedFrom(ts, ts, 1) == ts)
            && (pdbForce + expected < timeOut ==> SortedFrom(ts, ts, 1) == [ts[0], ts[1], ts[3], ts[2], ts[4]])
            && (Ascending(SortedFrom(ts, ts, 1)) <==> pdbForce + expected >= timeOut)
  {
    var ts := Strategies(timeOut, pdbForce, expected);
    if pdbForce + expected >= timeOut {
      SortKeepsAscending(ts, 1);
    } else {
      var s := Swap(ts, 3);
      assert SortedFrom(ts, ts, 1) == SortedFrom(ts, ts, 3);
      assert Sink(ts, ts, 3) == Sink(ts, s, 2) == s;
      assert SortedFrom(ts, s, 4) == SortedFrom(ts, s, 5) == s;
      assert s[2].wait < s[1].wait;
    }
  }

  /** The verdict on the operator's own list, for a given drain timeout, extra grace and expected time. */
  function Failing(timeOut: Time, pdbForce: Time, expected: Time, elapsed: Time, valid: Validity): bool {
    var ts := Strategies(timeOut, pdbForce, expected);
    Verdict(SortedFrom(ts, ts, 1), timeOut, expected, elapsed, valid) == Some(true)
  }

  /** The rule on that list. */
  ghost predicate ShouldFail(timeOut: Time, pdbForce: Time, expected: Time, elapsed: Time, valid: Validity) {
    Rule(Strategies(timeOut, pdbForce, expected), timeOut, expected, elapsed, valid) == Some(true)
  }

  predicate NoPdbWork(timeOut: Time, pdbForce: Time, expected: Time, valid: Validity) {
    var ts := Strategies(timeOut, pdbForce, expected);
    valid(ts[3]) == Some(false) && valid(ts[4]) == Some(false)
  }

  lemma ThreeAnswers(answer: Option<bool>)
    ensures answer == None || answer == Some(true) || answer == Some(false)
  {
    match answer
    case None =>
    case Some(yes) => if yes {} else {}
  }

  /** When exactly the rule fails a node. */
  lemma ShouldFailWhen(timeOut: Time, pdbForce: Time, expected: Time, elapsed: Time, valid: Validity)
    ensures ShouldFail(timeOut, pdbForce, expected, elapsed, valid) <==>
            && elapsed > timeOut + expected
            && (elapsed > pdbForce + expected + expected
                || (elapsed <= pdbForce + expected && NoPdbWork(timeOut, pdbForce, expected, valid)))
  {
    var ts := Strategies(timeOut, pdbForce, expected);
    assert ts[0] in ts && ts[3] in ts && ts[4] in ts;
    assert Overdue(ts, timeOut, expected, elapsed) <==>
           && elapsed > timeOut && elapsed > timeOut + expected
           && (elapsed > pdbForce + expected ==> elapsed > pdbForce + expected + expected);
    ThreeAnswers(valid(ts[3]));
    ThreeAnswers(valid(ts[4]));
    if elapsed > timeOut {
      assert Errs(ts, elapsed, valid) <==>
             elapsed <= pdbForce + expected && (valid(ts[3]) == None || valid(ts[4]) == None);
      assert SomeStillValid(ts, elapsed, valid) <==>
             elapsed <= pdbForce + expected && (valid(ts[3]) == Some(true) || valid(ts[4]) == Some(true));
    }
  }

  /** When exactly the code does if the short budget grace upsets the order of the sort. */
  lemma FailingWhenUnsorted(timeOut: Time, pdbForce: Time, expected: Time, elapsed: Time, valid: Validity)
    requires pdbForce + expected < timeOut
    ensures Failing(timeOut, pdbForce, expected, elapsed, valid) <==>
            elapsed > timeOut && elapsed > pdbForce + expected + expected
  {
    var ts := Strategies(timeOut, pdbForce, expected);
    SortOfFive(timeOut, pdbForce, expected);
    var s := SortedFrom(ts, ts, 1);
    if elapsed > timeOut {
      AllDue(s, elapsed);
    }
  }

  lemma FailingWhenSorted(timeOut: Time, pdbForce: Time, expected: Time, elapsed: Time, valid: Validity)
    requires pdbForce + expected >= timeOut
    ensures Failing(timeOut, pdbForce, expected, elapsed, valid)
            <==> ShouldFail(timeOut, pdbForce, expected, elapsed, valid)
  {
    SortOfFive(timeOut, pdbForce, expected);
    AscendingVerdictIsRule(Strategies(timeOut, pdbForce, expected), timeOut, expected, elapsed, valid);
  }

  /** The answer "failed" is the rule's at all times and for all pods exactly when the budget wait is not below the
      drain timeout (or no time is allowed for a drain); otherwise nodes are failed too early. */
  lemma FailingIsRuleIff(timeOut: Time, pdbForce: Time, expected: Time)
    ensures (forall elapsed: Time, valid: Validity ::
               Failing(timeOut, pdbForce, expected, elapsed, valid)
               <==> ShouldFail(timeOut, pdbForce, expected, elapsed, valid))
            <==> pdbForce + expected >= timeOut || expected == 0
  {
    if pdbForce + expected >= timeOut || expected == 0 {
      forall elapsed: Time, valid: Validity
        ensures Failing(timeOut, pdbForce, expected, elapsed, valid)
                <==> ShouldFail(timeOut, pdbForce, expected, elapsed, valid)
      {
        if pdbForce + expected >= timeOut {
          FailingWhenSorted(timeOut, pdbForce, expected, elapsed, valid);
        } else {
          FailingWhenUnsorted(timeOut, pdbForce, expected, elapsed, valid);
          ShouldFailWhen(timeOut, pdbForce, expected, elapsed, valid);
        }
      }
    } else {
      var idle: Validity := (t: Timed) => Some(false);
      var early := timeOut + expected;
      FailingWhenUnsorted(timeOut, pdbForce, expected, early, idle);
      ShouldFailWhen(timeOut, pdbForce, expected, early, idle);
      assert Failing(timeOut, pdbForce, expected, early, idle)
             && !ShouldFail(timeOut, pdbForce, expected, early, idle);
    }
  }

  /** The listing of the default deletion fails, the others find nothing. */
  function DeleteListingFails(t: Timed): Option<bool> {
    if t.name == "DELETE" then None else Some(false)
  }

  lemma DeleteListing(timeOut: Time, pdbForce: Time, expected: Time)
    requires pdbForce + expected < timeOut
    ensures var ts := Strategies(timeOut, pdbForce, expected);
            && Verdict(SortedFrom(ts, ts, 1), timeOut, expected, timeOut, DeleteListingFails) == Some(false)
            && Rule(ts, timeOut, expected, timeOut, DeleteListingFails) == None
  {
    var ts := Strategies(timeOut, pdbForce, expected);
    SortOfFive(timeOut, pdbForce, expected);
    var s := SortedFrom(ts, ts, 1);
    assert ts[0] in ts && DeleteListingFails(ts[0]) == None;
    DueOfFive(timeOut, pdbForce, expected);
    assert s[2..] == [ts[3], ts[2], ts[4]];
    assert ts[3].name[0] == 'P' && ts[2].name[0] == 'P' && ts[4].name[0] == 'P' && "DELETE"[0] == 'D';
  }

  /** At the drain timeout only the two budget strategies of the upset order are due. */
  lemma DueOfFive(timeOut: Time, pdbForce: Time, expected: Time)
    requires pdbForce + expected < timeOut
    ensures var ts := Strategies(timeOut, pdbForce, expected);
            Due([ts[0], ts[1], ts[3], ts[2], ts[4]], timeOut) == [ts[3], ts[4]]
  {
    var ts := Strategies(timeOut, pdbForce, expected);
    var s := [ts[0], ts[1], ts[3], ts[2], ts[4]];
    assert s[..4][..3] == s[..3] && s[..3][..2] == s[..2] && s[..2][..1] == s[..1] && s[..1][..0] == [];
    assert Due(s[..2], timeOut) == [];
    assert Due(s[..3], timeOut) == [ts[3]];
    assert Due(s[..4], timeOut) == [ts[3]];
  }

  /** The whole verdict, errors included, is the rule at all times and for all pods exactly when the budget wait is not
      below the drain timeout. */
  lemma VerdictIsRuleIff(timeOut: Time, pdbForce: Time, expected: Time)
    ensures var ts := Strategies(timeOut, pdbForce, expected);
            (forall elapsed: Time, valid: Validity ::
               Verdict(SortedFrom(ts, ts, 1), timeOut, expected, elapsed, valid)
               == Rule(ts, timeOut, expected, elapsed, valid))
            <==> pdbForce + expected >= timeOut
  {
    hide Verdict, Rule, SortedFrom;
    var ts := Strategies(timeOut, pdbForce, expected);
    if pdbForce + expected >= timeOut {
      SortOfFive(timeOut, pdbForce, expected);
      forall elapsed: Time, valid: Validity
        ensures Verdict(SortedFrom(ts, ts, 1), timeOut, expected, elapsed, valid)
                == Rule(ts, timeOut, expected, elapsed, valid)
      {
        AscendingVerdictIsRule(ts, timeOut, expected, elapsed, valid);
      }
    } else {
      DeleteListing(timeOut, pdbForce, expected);
    }
  }

  /** Between two moments a strategy that had nothing left to act on still has nothing. */
  ghost predicate Shrinks(valid: Validity, valid': Validity) {
    forall t :: valid(t) == Some(false) ==> valid'(t) == Some(false)
  }

  /** A failed node stays failed, as its pods leave, exactly when the budget grace is within the drain timeout (or no
      time is allowed for a drain): otherwise the budget strategies coming due take the verdict back. */
  lemma FailedStaysFailedIff(timeOut: Time, pdbForce: Time, expected: Time)
    ensures (forall e: Time, e': Time, valid: Validity, valid': Validity ::
               e <= e' && Shrinks(valid, valid') && Failing(timeOut, pdbForce, expected, e, valid)
               ==> Failing(timeOut, pdbForce, expected, e', valid'))
            <==> pdbForce <= timeOut || expected == 0
  {
    hide Failing;
    if pdbForce <= timeOut || expected == 0 {
      forall e: Time, e': Time, valid: Validity, valid': Validity
        | e <= e' && Shrinks(valid, valid') && Failing(timeOut, pdbForce, expected, e, valid)
        ensures Failing(timeOut, pdbForce, expected, e', valid')
      {
        StaysFailed(timeOut, pdbForce, expected, e, e', valid, valid');
      }
    } else {
      var idle: Validity := (t: Timed) => Some(false);
      var e, e' := timeOut + expected + 1, pdbForce + expected + 1;
      FailingWhenSorted(timeOut, pdbForce, expected, e, idle);
      FailingWhenSorted(timeOut, pdbForce, expected, e', idle);
      ShouldFailWhen(timeOut, pdbForce, expected, e, idle);
      ShouldFailWhen(timeOut, pdbForce, expected, e', idle);
      assert e <= e' && Shrinks(idle, idle) && Failing(timeOut, pdbForce, expected, e, idle)
             && !Failing(timeOut, pdbForce, expected, e', idle);
    }
  }

  lemma StaysFailed(
    timeOut: Time, pdbForce: Time, expected: Time, e: Time, e': Time, valid: Validity, valid': Validity)
    requires pdbForce <= timeOut || expected == 0
    requires e <= e' && Shrinks(valid, valid') && Failing(timeOut, pdbForce, expected, e, valid)
    ensures Failing(timeOut, pdbForce, expected, e', valid')
  {
    hide Failing, ShouldFail;
    if pdbForce + expected < timeOut {
      FailingWhenUnsorted(timeOut, pdbForce, expected, e, valid);
      FailingWhenUnsorted(timeOut, pdbForce, expected, e', valid');
    } else {
      FailingWhenSorted(timeOut, pdbForce, expected, e, valid);
      FailingWhenSorted(timeOut, pdbForce, expected, e', valid');
      ShouldFailWhen(timeOut, pdbForce, expected, e, valid);
      ShouldFailWhen(timeOut, pdbForce, expected, e', valid');
    }
  }

  /** With a timeout of 45, a grace of 60 and 8 expected minutes, an empty node is failed at 54 and not at 70. */
  lemma VerdictIsTakenBack(valid: Validity)
    requires forall t :: valid(t) == Some(false)
    ensures Failing(45, 60, 8, 54, valid) && !Failing(45, 60, 8, 70, valid)
  {
    FailingWhenSorted(45, 60, 8, 54, valid);
    FailingWhenSorted(45, 60, 8, 70, valid);
    ShouldFailWhen(45, 60, 8, 54, valid);
    ShouldFailWhen(45, 60, 8, 70, valid);
  }
}

/** What drain passes achieve on a node, and what they may not touch. */
module DrainTheorems {
  import opened Kube
  import opened Pods
  import opened Drain

  // ---- A complete pass drains the node -----------------------------------------------------------------------

  /** Pods no pass can remove by itself: a budget's pod that somebody else already started to
      terminate, with grace left or nothing holding it but its kubelet. */
  predicate Lingers(p: Pod) {
    p.terminating.Some? && (p.finalizers == [] || p.terminating.value > 0)
  }

  predicate PastAllWaits(timeOut: Time, pdbForce: Time, expected: Time, elapsed: Time) {
    elapsed > timeOut && elapsed > pdbForce + expected
  }

  /** The five strategies in turn: the first three wait for the timeout, the last two for the budgets' grace. */
  lemma PassOfFive(timeOut: Time, pdbForce: Time, expected: Time, sc: Scope, elapsed: Time, k: Key, op: Option<Pod>)
    ensures var ts := Strategies(timeOut, pdbForce, expected);
            var mid := if elapsed > timeOut
                       then Treated(ts[2], sc, k, Treated(ts[1], sc, k, Treated(ts[0], sc, k, op))) else op;
            Passed(ts, sc, elapsed, k, op)
            == if elapsed > pdbForce + expected then Treated(ts[4], sc, k, Treated(ts[3], sc, k, mid)) else mid
  {
    hide Treated;
    var ts := Strategies(timeOut, pdbForce, expected);
    assert ts[..4][..3] == ts[..3] && ts[..3][..2] == ts[..2] && ts[..2][..1] == ts[..1] && ts[..1][..0] == [];
    PassNext(ts, 1, sc, elapsed, k, op);
    PassNext(ts, 2, sc, elapsed, k, op);
    PassNext(ts, 3, sc, elapsed, k, op);
    PassNext(ts, 4, sc, elapsed, k, op);
  }

  lemma PassNext(ts: seq<Timed>, i: nat, sc: Scope, elapsed: Time, k: Key, op: Option<Pod>)
    requires 0 < i <= |ts|
    ensures var before := Passed(ts[..i - 1], sc, elapsed, k, op);
            Passed(ts[..i], sc, elapsed, k, op)
            == if elapsed > ts[i - 1].wait then Treated(ts[i - 1], sc, k, before) else before
  {
    assert ts[..i][..i - 1] == ts[..i - 1];
  }

  /** The fate of one pod in an error-free pass: each class of drainable pods goes once its own wait is over. */
  lemma PodFate(timeOut: Time, pdbForce: Time, expected: Time, sc: Scope, elapsed: Time, k: Key, p: Pod)
    ensures var r := Passed(Strategies(timeOut, pdbForce, expected), sc, elapsed, k, Some(p));
            if !Drainable(sc, k, p) then r == Some(p)
            else if !IsPdbPod(p.labels, sc.pdbs) then r == if elapsed > timeOut then None else Some(p)
            else if elapsed <= pdbForce + expected then r == Some(p)
            else r == if Lingers(p) then Some(p.(finalizers := [])) else None
  {
    hide Passed;
    PassOfFive(timeOut, pdbForce, expected, sc, elapsed, k, Some(p));
  }

  /** What an error-free pass leaves at any time since the node was cordoned, each pod class on its own clock: drainable
      pods without a budget are gone once the timeout is over, those with one are gone or, if they were lingering,
      stripped once the budgets' grace is over; every pod whose wait is not over and every other pod is exactly
      as it was, and nothing new appears. Within both waits nothing changes. */
  lemma PassDrainsWhatIsDue(
    timeOut: Time, pdbForce: Time, expected: Time, sc: Scope, elapsed: Time, pods: PodMap, pods': PodMap)
    requires forall k :: At(pods', k) == Passed(Strategies(timeOut, pdbForce, expected), sc, elapsed, k, At(pods, k))
    ensures forall k :: k in pods' ==> k in pods
    ensures forall k :: k in pods && !Drainable(sc, k, pods[k]) ==> k in pods' && pods'[k] == pods[k]
    ensures forall k :: k in pods && Drainable(sc, k, pods[k]) && !IsPdbPod(pods[k].labels, sc.pdbs) ==>
              if elapsed > timeOut then k !in pods' else k in pods' && pods'[k] == pods[k]
    ensures forall k :: k in pods && Drainable(sc, k, pods[k]) && IsPdbPod(pods[k].labels, sc.pdbs) ==>
              if elapsed > pdbForce + expected
              then if Lingers(pods[k]) then k in pods' && pods'[k] == pods[k].(finalizers := []) else k !in pods'
              else k in pods' && pods'[k] == pods[k]
    ensures elapsed <= timeOut && elapsed <= pdbForce + expected ==> pods' == pods
  {
    hide Passed, Drainable, IsPdbPod, Lingers;
    forall k
      ensures At(pods, k).None? ==> At(pods', k).None?
      ensures k in pods ==>
        var p, r := pods[k], At(pods', k);
        if !Drainable(sc, k, p) then r == Some(p)
        else if !IsPdbPod(p.labels, sc.pdbs) then r == if elapsed > timeOut then None else Some(p)
        else if elapsed <= pdbForce + expected then r == Some(p)
        else r == if Lingers(p) then Some(p.(finalizers := [])) else None
    {
      if k in pods {
        PodFate(timeOut, pdbForce, expected, sc, elapsed, k, pods[k]);
      } else {
        PassOfFive(timeOut, pdbForce, expected, sc, elapsed, k, None);
      }
    }
    if elapsed <= timeOut && elapsed <= pdbForce + expected {
      assert forall k :: k in pods ==> At(pods', k) == Some(pods[k]);
    }
  }

  /** Between the waits, when the timeout is the shorter: exactly the drainable pods without a budget are gone, and every
      other pod is as it was. */
  lemma TimeoutPassSparesBudgets(
    timeOut: Time, pdbForce: Time, expected: Time, sc: Scope, elapsed: Time, pods: PodMap, pods': PodMap)
    requires timeOut < elapsed <= pdbForce + expected
    requires forall k :: At(pods', k) == Passed(Strategies(timeOut, pdbForce, expected), sc, elapsed, k, At(pods, k))
    ensures pods' == map k | k in pods && !(Drainable(sc, k, pods[k]) && !IsPdbPod(pods[k].labels, sc.pdbs)) :: pods[k]
  {
    hide Passed, Drainable, IsPdbPod, Lingers, Strategies;
    PassDrainsWhatIsDue(timeOut, pdbForce, expected, sc, elapsed, pods, pods');
  }

  /** Between the waits, when the budgets' grace is the shorter: of the drainable pods with a budget those that were
      lingering are left, without finalizers, and every other pod is as it was. */
  lemma GracePassSparesOthers(
    timeOut: Time, pdbForce: Time, expected: Time, sc: Scope, elapsed: Time, pods: PodMap, pods': PodMap)
    requires pdbForce + expected < elapsed <= timeOut
    requires forall k :: At(pods', k) == Passed(Strategies(timeOut, pdbForce, expected), sc, elapsed, k, At(pods, k))
    ensures pods' == map k | && k in pods
                             && (Drainable(sc, k, pods[k]) && IsPdbPod(pods[k].labels, sc.pdbs) ==> Lingers(pods[k]))
                     :: if Drainable(sc, k, pods[k]) && IsPdbPod(pods[k].labels, sc.pdbs)
                        then pods[k].(finalizers := []) else pods[k]
  {
    hide Passed, Drainable, IsPdbPod, Lingers, Strategies;
    PassDrainsWhatIsDue(timeOut, pdbForce, expected, sc, elapsed, pods, pods');
  }

  /** An error-free pass past all waits leaves no drainable unprotected pod; a drainable protected pod is
      gone or terminating without finalizers, and it remains exactly when it was lingering before; every
      other pod is untouched, and nothing new appears. */
  lemma CompletePassDrainsNode(
    timeOut: Time, pdbForce: Time, expected: Time, sc: Scope, elapsed: Time, pods: PodMap, pods': PodMap)
    requires PastAllWaits(timeOut, pdbForce, expected, elapsed)
    requires forall k :: At(pods', k) == Passed(Strategies(timeOut, pdbForce, expected), sc, elapsed, k, At(pods, k))
    ensures forall k :: k in pods' ==> k in pods
    ensures forall k :: k in pods' && Drainable(sc, k, pods'[k]) ==>
              IsPdbPod(pods'[k].labels, sc.pdbs) && pods'[k].terminating.Some? && pods'[k].finalizers == []
    ensures forall k :: k in pods && Drainable(sc, k, pods[k]) ==>
              (k in pods' <==> IsPdbPod(pods[k].labels, sc.pdbs) && Lingers(pods[k]))
    ensures forall k :: k in pods && !Drainable(sc, k, pods[k]) ==> k in pods' && pods'[k] == pods[k]
  {
    hide Passed;
    PassDrainsWhatIsDue(timeOut, pdbForce, expected, sc, elapsed, pods, pods');
  }

  // ---- The grace period of protected pods -------------------------------------------------------------------

  /** A budget with a non-empty selector selects the pod. */
  predicate Protected(labels: map<string, string>, pdbs: seq<Selector>) {
    exists i :: 0 <= i < |pdbs| && pdbs[i] != Some(map[]) && Selects(pdbs[i], labels)
  }

  lemma ProtectedIsRecognised(labels: map<string, string>, pdbs: seq<Selector>)
    requires Protected(labels, pdbs)
    ensures IsPdbPod(labels, pdbs)
  {
    var i :| 0 <= i < |pdbs| && pdbs[i] != Some(map[]) && Selects(pdbs[i], labels);
    RecognisedIffLabelled(pdbs[i]);
    assert IsPdbPod(labels, [pdbs[i]]);
  }

  /** One pass of the engine, complete or cut short by an error at any point. */
  datatype Pass = Pass(sc: Scope, elapsed: Time, before: PodMap, after: PodMap)

  /** Passes of the engine between which anything may happen to the store, save to the pod in question. */
  ghost predicate IsRun(ps: seq<Pass>, ts: seq<Timed>, k: Key) {
    && (forall i :: 0 <= i < |ps| ==> Respects(ps[i].before, ps[i].after, ts, ps[i].sc, ps[i].elapsed))
    && (forall i :: 0 < i < |ps| ==> At(ps[i].before, k) == At(ps[i - 1].after, k))
  }

  /** The operator is still to wait for this pod: some listed budget selects it, or shares a label with it. */
  predicate InGrace(labels: map<string, string>, pass: Pass, grace: Time) {
    pass.elapsed <= grace && (Protected(labels, pass.sc.pdbs) || IsPdbPod(labels, pass.sc.pdbs))
  }

  lemma GraceOfOnePass(pass: Pass, timeOut: Time, pdbForce: Time, expected: Time, k: Key)
    requires Respects(pass.before, pass.after, Strategies(timeOut, pdbForce, expected), pass.sc, pass.elapsed)
    requires k in pass.before && InGrace(pass.before[k].labels, pass, pdbForce + expected)
    ensures At(pass.after, k) == At(pass.before, k)
  {
    var p := pass.before[k];
    if Protected(p.labels, pass.sc.pdbs) {
      ProtectedIsRecognised(p.labels, pass.sc.pdbs);
    }
    assert !MayTouch(Strategies(timeOut, pdbForce, expected), pass.sc, pass.elapsed, k, p);
  }

  /** Whatever fails in between, no sequence of passes within the grace period deletes a protected pod
      or takes its finalizers: it is exactly as it was. */
  lemma {:induction false} PdbGrace(ps: seq<Pass>, timeOut: Time, pdbForce: Time, expected: Time, k: Key, p: Pod)
    requires |ps| > 0 && IsRun(ps, Strategies(timeOut, pdbForce, expected), k) && At(ps[0].before, k) == Some(p)
    requires forall i :: 0 <= i < |ps| ==> InGrace(p.labels, ps[i], pdbForce + expected)
    ensures At(ps[|ps| - 1].after, k) == Some(p)
  {
    var n := |ps| - 1;
    if n > 0 {
      PdbGrace(ps[..n], timeOut, pdbForce, expected, k, p);
      assert At(ps[n].before, k) == At(ps[..n][n - 1].after, k);
    }
    GraceOfOnePass(ps[n], timeOut, pdbForce, expected, k);
  }
}

/** The node drain engine: five timed strategies, each filtering and acting on the pods of a node. */
module Drain {
  import opened Kube
  import opened Pods

  datatype Kind = DeletePod | StripFinalizers | KillStuck

  /** A timed strategy; `pdb` says which of the two pod classes it is for. */
  datatype Timed = Timed(name: string, wait: Time, kind: Kind, pdb: bool)

  /** What one pass works with: the node, the budgets listed for it, and the ignored namespaces. */
  datatype Scope = Scope(node: string, pdbs: seq<Selector>, ignores: string -> bool)

  /** The drain strategy list built from the node drain timeout, the budget's extra grace and the
      expected drain time. */
  function Strategies(timeOut: Time, pdbForce: Time, expected: Time): seq<Timed> {
    [ Timed("DELETE", timeOut, DeletePod, false),
      Timed("DEFAULT-FINALIZER", timeOut, StripFinalizers, false),
      Timed("POD-STUCK-TERMINATING", timeOut, KillStuck, false),
      Timed("PDB-DELETE", pdbForce + expected, DeletePod, true),
      Timed("PDB-FINALIZER", pdbForce + expected, StripFinalizers, true) ]
  }

  // ---- One strategy and one pod ---------------------------------------------------------------------------

  predicate Drainable(sc: Scope, k: Key, p: Pod) {
    p.node == sc.node && !IsDaemonSet(p) && !sc.ignores(k.ns)
  }

  /** The strategy is meant for pods of this kind at all, whatever state they are in. */
  predicate Concerns(t: Timed, sc: Scope, k: Key, p: Pod) {
    Drainable(sc, k, p) && (IsPdbPod(p.labels, sc.pdbs) <==> t.pdb)
  }

  /** The full filter of the strategy, as used by both Execute and IsValid. */
  predicate Targets(t: Timed, sc: Scope, k: Key, p: Pod) {
    && Concerns(t, sc, k, p)
    && match t.kind
       case DeletePod => true
       case StripFinalizers => p.finalizers != []
       case KillStuck => p.finalizers == [] && p.terminating.Some?
  }

  /** What a successful run of the strategy makes of a pod it targets. */
  function Act(t: Timed, p: Pod): Option<Pod> {
    match t.kind
    case DeletePod => if p.terminating.Some? then Some(p) else Deleted(p)
    case StripFinalizers => Stripped(p)
    case KillStuck => Deleted(p)
  }

  /** A run of the strategy makes a request for this pod; the default deletion passes over a terminating one. */
  predicate Requests(t: Timed, p: Pod) {
    t.kind.DeletePod? ==> p.terminating.None?
  }

  function Treated(t: Timed, sc: Scope, k: Key, op: Option<Pod>): Option<Pod> {
    if op.Some? && Targets(t, sc, k, op.value) then Act(t, op.value) else op
  }

  predicate IsDue(t: Timed, elapsed: Time) {
    elapsed > t.wait
  }

  /** A whole error-free pass, for one pod. */
  function Passed(ts: seq<Timed>, sc: Scope, elapsed: Time, k: Key, op: Option<Pod>): Option<Pod> {
    if ts == [] then op
    else
      var before := Passed(ts[..|ts| - 1], sc, elapsed, k, op);
      var t := ts[|ts| - 1];
      if IsDue(t, elapsed) then Treated(t, sc, k, before) else before
  }

  // ---- What every pass respects, failed or not ---------------------------------------------------------------

  /** Some due strategy is for this pod's class. */
  predicate MayTouch(ts: seq<Timed>, sc: Scope, elapsed: Time, k: Key, p: Pod) {
    exists i :: 0 <= i < |ts| && IsDue(ts[i], elapsed) && Concerns(ts[i], sc, k, p)
  }

  predicate SamePod(p: Pod, q: Pod) {
    p.node == q.node && p.labels == q.labels && p.ownerKinds == q.ownerKinds
  }

  /** No pod appears or changes identity, and a pod no due strategy is for stays exactly as it was. */
  ghost predicate Respects(pods: PodMap, pods': PodMap, ts: seq<Timed>, sc: Scope, elapsed: Time) {
    && (forall k :: k in pods' ==> k in pods && SamePod(pods[k], pods'[k]))
    && (forall k :: k in pods && !MayTouch(ts, sc, elapsed, k, pods[k]) ==> k in pods' && pods'[k] == pods[k])
  }

  lemma RespectsTransitive(a: PodMap, b: PodMap, c: PodMap, ts: seq<Timed>, sc: Scope, elapsed: Time)
    requires Respects(a, b, ts, sc, elapsed) && Respects(b, c, ts, sc, elapsed)
    ensures Respects(a, c, ts, sc, elapsed)
  {
  }

  // ---- The engine ------------------------------------------------------------------------------------------

  class Engine {
    var pods: PodMap
    ghost var faults: nat   // requests that failed so far

    constructor (pods: PodMap)
      ensures this.pods == pods
    {
      this.pods, faults := pods, 0;
    }

    /** The names of the pods a strategy targets, in whatever order the API lists them. */
    method TargetPods(t: Timed, sc: Scope) returns (ks: seq<Key>)
      ensures forall k :: k in ks <==> k in pods && Targets(t, sc, k, pods[k])
      ensures Distinct(ks)
    {
      ks := [];
      var rest := pods.Keys;
      while rest != {}
        invariant rest <= pods.Keys
        invariant forall k :: k in ks <==> k in pods && k !in rest && Targets(t, sc, k, pods[k])
        invariant Distinct(ks)
        decreases rest
      {
        var k :| k in rest;
        rest := rest - {k};
        if Targets(t, sc, k, pods[k]) {
          ks := ks + [k];
        }
      }
    }

    /** IsValid: the strategy still has pods to act on. */
    method IsValid(t: Timed, sc: Scope) returns (r: bool)
      ensures r <==> exists k :: k in pods && Targets(t, sc, k, pods[k])
    {
      var ks := TargetPods(t, sc);
      r := |ks| > 0;
      if r {
        assert ks[0] in ks;
      } else {
        assert forall k :: k !in ks;
      }
    }

    /** Delete or update one pod; the default deletion passes over a pod that is already terminating. */
    method ActOnPod(t: Timed, k: Key) returns (err: bool, executed: bool)
      requires k in pods
      modifies this
      ensures executed ==> Requests(t, old(pods)[k])
      ensures !err && !executed ==> !Requests(t, old(pods)[k])
      ensures forall k' :: k' != k ==> At(pods, k') == At(old(pods), k')
      ensures At(pods, k) == Act(t, old(pods)[k]) || (err && At(pods, k) == At(old(pods), k))
      ensures faults >= old(faults) && (err ==> faults > old(faults))
    {
      if t.kind.DeletePod? && pods[k].terminating.Some? {
        return false, false;
      }
      var f: Fault := *;
      if f.Lands() {
        pods := Stored(pods, k, Act(t, pods[k]));
      }
      err, executed := !f.Succeeds(), f.Succeeds();
      if err {
        faults := faults + 1;
      }
    }

    /** Act on each listed pod in turn. A failed call is remembered and the rest still tried. */
    method ActOnPods(t: Timed, ks: seq<Key>) returns (err: bool, executed: bool)
      requires forall i :: 0 <= i < |ks| ==> ks[i] in pods
      requires Distinct(ks)
      modifies this
      ensures executed ==> exists k :: k in ks && Requests(t, old(pods)[k])
      ensures !err && !executed ==> forall k :: k in ks ==> !Requests(t, old(pods)[k])
      ensures forall k :: k !in ks ==> At(pods, k) == At(old(pods), k)
      ensures forall k :: k in ks ==> At(pods, k) == At(old(pods), k) || At(pods, k) == Act(t, old(pods)[k])
      ensures !err ==> forall k :: k in ks ==> At(pods, k) == Act(t, old(pods)[k])
      ensures faults >= old(faults) && (err ==> faults > old(faults))
    {
      hide Act, Stored, Requests;
      err, executed := false, false;
      for i := 0 to |ks|
        invariant executed ==> exists k :: k in ks && Requests(t, old(pods)[k])
        invariant !err && !executed ==> forall k :: k in ks[..i] ==> !Requests(t, old(pods)[k])
        invariant forall k :: k !in ks[..i] ==> At(pods, k) == At(old(pods), k)
        invariant forall k :: k in ks[..i] ==> At(pods, k) == At(old(pods), k) || At(pods, k) == Act(t, old(pods)[k])
        invariant faults >= old(faults) && (err ==> faults > old(faults))
        invariant !err ==> forall k :: k in ks[..i] ==> At(pods, k) == Act(t, old(pods)[k])
      {
        var k := ks[i];
        assert k !in ks[..i] && ks[..i + 1] == ks[..i] + [k];
        assert At(pods, k) == At(old(pods), k);
        var failed, acted := ActOnPod(t, k);
        if failed {
          err := true;
        }
        if acted {
          executed := true;
        }
      }
      assert ks[..|ks|] == ks;
    }

    method ExecuteStrategy(t: Timed, sc: Scope) returns (err: bool, executed: bool)
      modifies this
      ensures !err ==> (executed <==>
                          exists k :: k in old(pods) && Targets(t, sc, k, old(pods)[k]) && Requests(t, old(pods)[k]))
      ensures !err ==> forall k :: At(pods, k) == Treated(t, sc, k, At(old(pods), k))
      ensures forall k :: At(pods, k) == At(old(pods), k) || At(pods, k) == Treated(t, sc, k, At(old(pods), k))
      ensures faults >= old(faults) && (err ==> faults > old(faults))
    {
      var listed: bool := *;
      if !listed {
        faults := faults + 1;
        return true, false;
      }
      var ks := TargetPods(t, sc);
      err, executed := ActOnPods(t, ks);
    }

    /** One pass over the strategies. `addedAt` is when the node was cordoned, if that is known. */
    method Execute(ts: seq<Timed>, sc: Scope, cordoned: bool, addedAt: Option<Time>, now: Time) returns (err: bool)
      requires addedAt.Some? ==> addedAt.value <= now
      modifies this
      ensures !cordoned ==> !err && pods == old(pods)
      ensures cordoned && addedAt.None? ==> err && pods == old(pods)
      ensures cordoned && addedAt.Some? ==> Respects(old(pods), pods, ts, sc, now - addedAt.value)
      ensures cordoned && addedAt.Some? && err ==> faults > old(faults)
      ensures cordoned && !err ==>
                forall k :: At(pods, k) == Passed(ts, sc, now - addedAt.value, k, At(old(pods), k))
    {
      if !cordoned {
        return false;
      }
      if addedAt.None? {
        return true;
      }
      var elapsed: Time := now - addedAt.value;
      for i := 0 to |ts|
        invariant faults >= old(faults) && Respects(old(pods), pods, ts, sc, elapsed)
        invariant forall k :: At(pods, k) == Passed(ts[..i], sc, elapsed, k, At(old(pods), k))
      {
        assert ts[..i + 1][..i] == ts[..i];
        if IsDue(ts[i], elapsed) {
          ghost var before := pods;
          var executed;
          err, executed := ExecuteStrategy(ts[i], sc);
          TreatedRespects(before, pods, ts, i, sc, elapsed);
          RespectsTransitive(old(pods), before, pods, ts, sc, elapsed);
          if err {
            return;
          }
          if executed && ts[i].name == "PDB-DELETE" {
            // Reporting the forced drain may itself fail and end the pass.
            var reported: bool := *;
            if !reported {
              faults := faults + 1;
              return true;
            }
          }
        }
      }
      assert ts[..|ts|] == ts;
      err := false;
    }
  }

  lemma TreatedRespects(pods: PodMap, pods': PodMap, ts: seq<Timed>, i: nat, sc: Scope, elapsed: Time)
    requires i < |ts| && IsDue(ts[i], elapsed)
    requires forall k :: At(pods', k) == At(pods, k) || At(pods', k) == Treated(ts[i], sc, k, At(pods, k))
    ensures Respects(pods, pods', ts, sc, elapsed)
  {
    forall k | k in pods' ensures k in pods && SamePod(pods[k], pods'[k]) {
      assert At(pods', k) == Some(pods'[k]);
    }
    forall k | k in pods && !MayTouch(ts, sc, elapsed, k, pods[k]) ensures k in pods' && pods'[k] == pods[k] {
      assert !Concerns(ts[i], sc, k, pods[k]);
      assert At(pods', k) == Some(pods[k]);
    }
  }
}

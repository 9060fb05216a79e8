/** Pods, the predicates the drain strategies filter them by, and the two ways a pod is acted on. */
module Pods {
  import opened Kube

  datatype Key = Key(ns: string, name: string)

  /** `terminating` is the remaining deletion grace period once a deletion timestamp is set. */
  datatype Pod = Pod(
    node: string, labels: map<string, string>, ownerKinds: seq<string>,
    finalizers: seq<string>, terminating: Option<nat>)

  type PodMap = map<Key, Pod>

  /** A PodDisruptionBudget's selector; None when it has no selector at all. */
  type Selector = Option<map<string, string>>

  function At(pods: PodMap, k: Key): Option<Pod> {
    if k in pods then Some(pods[k]) else None
  }

  predicate IsDaemonSet(p: Pod) {
    "DaemonSet" in p.ownerKinds
  }

  method CheckDaemonSet(p: Pod) returns (r: bool)
    ensures r <==> IsDaemonSet(p)
  {
    r := false;
    if |p.ownerKinds| > 0 {
      for i := 0 to |p.ownerKinds|
        invariant r <==> "DaemonSet" in p.ownerKinds[..i]
      {
        if p.ownerKinds[i] == "DaemonSet" {
          r := true;
        }
      }
    }
  }

  predicate SharesLabel(labels: map<string, string>, wanted: map<string, string>) {
    exists k :: k in wanted && k in labels && labels[k] == wanted[k]
  }

  /** The operator's test for a protected pod: it carries one label of some budget's selector. */
  predicate IsPdbPod(labels: map<string, string>, pdbs: seq<Selector>) {
    exists i :: 0 <= i < |pdbs| && pdbs[i].Some? && SharesLabel(labels, pdbs[i].value)
  }

  method ContainsMatchLabel(labels: map<string, string>, pdbs: seq<Selector>) returns (r: bool)
    ensures r <==> IsPdbPod(labels, pdbs)
  {
    r := false;
    for i := 0 to |pdbs|
      invariant r <==> IsPdbPod(labels, pdbs[..i])
    {
      assert pdbs[..i + 1] == pdbs[..i] + [pdbs[i]];
      var shared := false;
      if pdbs[i].Some? {
        shared := HasMatch(labels, pdbs[i].value);
      }
      if shared {
        r := true;
        assert pdbs[..i + 1][i] == pdbs[i];
      }
      assert IsPdbPod(labels, pdbs[..i]) ==> IsPdbPod(labels, pdbs[..i + 1]) by {
        if IsPdbPod(labels, pdbs[..i]) {
          var j :| 0 <= j < i && pdbs[..i][j].Some? && SharesLabel(labels, pdbs[..i][j].value);
          assert pdbs[..i + 1][j] == pdbs[..i][j];
        }
      }
    }
    assert pdbs[..|pdbs|] == pdbs;
  }

  method HasMatch(labels: map<string, string>, wanted: map<string, string>) returns (r: bool)
    ensures r <==> SharesLabel(labels, wanted)
  {
    r := false;
    var rest := wanted.Keys;
    while rest != {}
      invariant rest <= wanted.Keys && !r
      invariant forall k :: k in wanted && k !in rest ==> !(k in labels && labels[k] == wanted[k])
      decreases rest
    {
      var k :| k in rest;
      rest := rest - {k};
      if k in labels && labels[k] == wanted[k] {
        r := true;
        break;
      }
    }
  }

  /** What a label selector means to the cluster: every listed label must be present. */
  predicate Selects(sel: Selector, labels: map<string, string>) {
    sel.Some? && forall k :: k in sel.value ==> k in labels && labels[k] == sel.value[k]
  }

  /** The operator recognises every pod a budget selects exactly when the budget's selector names at
      least one label (or there is no selector): an empty selector, which selects every pod, protects none. */
  lemma RecognisedIffLabelled(sel: Selector)
    ensures (forall labels :: Selects(sel, labels) ==> IsPdbPod(labels, [sel]))
            <==> sel.None? || sel.value != map[]
  {
    if sel.Some? {
      if sel.value == map[] {
        assert Selects(sel, map[]) && !IsPdbPod(map[], [sel]);
      } else {
        forall labels | Selects(sel, labels) ensures IsPdbPod(labels, [sel]) {
          var k :| k in sel.value;
          assert SharesLabel(labels, sel.value);
          assert [sel][0] == sel;
        }
      }
    }
  }

  /** Deleting with no grace period: gone, unless finalizers hold the pod. */
  function Deleted(p: Pod): Option<Pod> {
    if p.finalizers == [] then None else Some(p.(terminating := Some(0)))
  }

  /** Writing the pod back without finalizers: a pod whose grace period is over disappears. */
  function Stripped(p: Pod): Option<Pod> {
    if p.terminating == Some(0) then None else Some(p.(finalizers := []))
  }

  function Stored(pods: PodMap, k: Key, op: Option<Pod>): PodMap {
    if op.Some? then pods[k := op.value] else pods - {k}
  }
}

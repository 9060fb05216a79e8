/** The capacity scaler: one extra MachineSet per original before the upgrade, removed after it. */
module Scaler {
  import opened Kube

  const UPGRADE := "upgrade.managed.openshift.io"
  const MACHINESET := "machine.openshift.io/cluster-api-machineset"
  const POOL := "hive.openshift.io/machine-pool"
  const SUFFIX := "-upgrade"

  type Labels = map<string, string>

  /** `rest` stands for everything in the specification the scaler copies and never looks at. */
  datatype Spec = Spec(replicas: Option<int>, template: Labels, selector: Labels, rest: string)

  datatype MachineSet = MachineSet(
    labels: Labels, spec: Spec, created: Time, deleting: bool, replicas: nat, readyReplicas: nat)

  datatype Machine = Machine(labels: Labels, phase: Option<string>, nodeRef: Option<string>)

  type Sets = map<string, MachineSet>

  /** A node by the type and status of its conditions. */
  type Nodes = map<string, seq<(string, string)>>

  predicate HasLabel(labels: Labels, key: string, value: string) {
    key in labels && labels[key] == value
  }

  predicate IsUpgrade(ms: MachineSet) {
    HasLabel(ms.labels, UPGRADE, "true")
  }

  predicate IsWorker(ms: MachineSet) {
    HasLabel(ms.labels, POOL, "worker")
  }

  predicate IsPooled(ms: MachineSet) {
    POOL in ms.labels
  }

  // ---- Clones ------------------------------------------------------------------------------------------------

  function CloneName(name: string): string {
    name + SUFFIX
  }

  predicate IsCloneName(name: string) {
    |name| >= |SUFFIX| && name[|name| - |SUFFIX|..] == SUFFIX
  }

  function Base(name: string): string
    requires IsCloneName(name)
  {
    name[..|name| - |SUFFIX|]
  }

  lemma CloneNameBase(name: string)
    ensures IsCloneName(CloneName(name)) && Base(CloneName(name)) == name
    ensures IsCloneName(name) ==> CloneName(Base(name)) == name
  {
  }

  lemma CloneNameIff(name: string, n: string)
    ensures name == CloneName(n) <==> IsCloneName(name) && Base(name) == n
  {
  }

  function CloneSpec(name: string, spec: Spec): Spec {
    Spec(Some(1),
         spec.template[UPGRADE := "true"][MACHINESET := CloneName(name)],
         spec.selector[UPGRADE := "true"][MACHINESET := CloneName(name)],
         spec.rest)
  }

  function Clone(name: string, ms: MachineSet, now: Time): MachineSet {
    MachineSet(map[UPGRADE := "true"], CloneSpec(name, ms.spec), now, false, 0, 0)
  }

  // ---- What holds of the store at all times ------------------------------------------------------------------

  /** Equal but for what the machine controllers report. */
  predicate SameSet(a: MachineSet, b: MachineSet) {
    a.labels == b.labels && a.spec == b.spec && a.created == b.created
  }

  /** Every original is as it was, and everything else is the one-replica clone of an original. */
  ghost predicate Inv(sets: Sets, origins: Sets) {
    && (forall n :: n in origins ==> !IsUpgrade(origins[n]))
    && (forall n :: n in origins ==> n in sets && SameSet(sets[n], origins[n]) && sets[n].deleting == origins[n].deleting)
    && (forall n :: n in sets && n !in origins ==> IsCloneIn(sets, origins, n))
  }

  predicate IsCloneIn(sets: Sets, origins: Sets, n: string)
    requires n in sets
  {
    && IsCloneName(n) && Base(n) in origins
    && sets[n].labels == map[UPGRADE := "true"]
    && sets[n].spec == CloneSpec(Base(n), origins[Base(n)].spec)
  }

  /** One replica of the original, whose machines carry and are selected by the upgrade label and the clone's own name. */
  predicate IsSmallCopy(name: string, spec: Spec, origin: Spec) {
    && spec.replicas == Some(1) && spec.rest == origin.rest
    && Relabelled(name, spec.template, origin.template) && Relabelled(name, spec.selector, origin.selector)
  }

  predicate Relabelled(name: string, labels: Labels, origin: Labels) {
    && HasLabel(labels, UPGRADE, "true") && HasLabel(labels, MACHINESET, name)
    && labels - {UPGRADE, MACHINESET} == origin - {UPGRADE, MACHINESET}
  }

  lemma CloneIsSmallCopy(name: string, spec: Spec)
    ensures IsSmallCopy(CloneName(name), CloneSpec(name, spec), spec)
  {
    LabelsDiffer();
    var t := spec.template[UPGRADE := "true"][MACHINESET := CloneName(name)];
    var l := spec.selector[UPGRADE := "true"][MACHINESET := CloneName(name)];
    assert t - {UPGRADE, MACHINESET} == spec.template - {UPGRADE, MACHINESET};
    assert l - {UPGRADE, MACHINESET} == spec.selector - {UPGRADE, MACHINESET};
  }

  /** The upgrade label marks exactly the clones; each is the one-replica clone of the original it is named
      after, which has no other, and no clone is itself an original a scale-up would clone. */
  lemma ClonesAreSound(sets: Sets, origins: Sets)
    requires Inv(sets, origins)
    ensures forall n :: n in sets ==> (IsUpgrade(sets[n]) <==> n !in origins)
    ensures forall n :: n in sets && IsUpgrade(sets[n]) ==>
              IsCloneName(n) && Base(n) in origins && sets[n].spec == CloneSpec(Base(n), origins[Base(n)].spec)
    ensures forall n :: n in sets && IsUpgrade(sets[n]) ==> IsSmallCopy(n, sets[n].spec, origins[Base(n)].spec)
    ensures forall m, n ::
              (m in sets && n in sets && IsUpgrade(sets[m]) && IsUpgrade(sets[n]) && Base(m) == Base(n)) ==> m == n
    ensures forall n :: n in sets && IsPooled(sets[n]) ==> n in origins
  {
    hide CloneSpec, IsSmallCopy, CloneName;
    LabelsDiffer();
    forall m, n | IsCloneName(m) && IsCloneName(n) && Base(m) == Base(n) ensures m == n {
      CloneNameBase(m);
      CloneNameBase(n);
    }
    forall n | n in sets && n !in origins ensures IsSmallCopy(n, sets[n].spec, origins[Base(n)].spec) {
      assert IsCloneIn(sets, origins, n);
      CloneNameBase(n);
      CloneIsSmallCopy(Base(n), origins[Base(n)].spec);
    }
  }

  lemma LabelsDiffer()
    ensures UPGRADE != POOL && UPGRADE != MACHINESET && POOL != MACHINESET
  {
  }

  /** What other controllers do meanwhile: report status, and complete deletions. */
  ghost predicate Quiet(sets: Sets, sets': Sets) {
    && (forall n :: n in sets' ==> n in sets && SameSet(sets[n], sets'[n]) && sets[n].deleting == sets'[n].deleting)
    && (forall n :: n in sets && n !in sets' ==> sets[n].deleting)
  }

  lemma QuietKeepsInv(sets: Sets, sets': Sets, origins: Sets)
    requires Inv(sets, origins) && Quiet(sets, sets')
    requires forall n :: n in origins ==> !origins[n].deleting
    ensures Inv(sets', origins)
  {
    forall n | n in sets' && n !in origins ensures IsCloneIn(sets', origins, n) {
      assert IsCloneIn(sets, origins, n);
    }
  }

  /** A deletion request either marks the object or removes it. */
  ghost predicate Removal(sets: Sets, sets': Sets, n: string) {
    n in sets && (sets' == sets - {n} || sets' == sets[n := sets[n].(deleting := true)])
  }

  // ---- What a scale-up creates -------------------------------------------------------------------------------

  /** How many originals come before the first whose clone is listed. */
  function Leading(orig: seq<string>, ups: seq<string>): (n: nat)
    ensures n <= |orig|
    ensures forall i :: 0 <= i < n ==> CloneName(orig[i]) !in ups
    ensures n < |orig| ==> CloneName(orig[n]) in ups
  {
    if orig == [] || CloneName(orig[0]) in ups then 0 else 1 + Leading(orig[1..], ups)
  }

  function WithClones(sets: Sets, orig: seq<string>, now: Time): Sets
    requires forall n :: n in orig ==> n in sets
  {
    if orig == [] then sets
    else
      var last := orig[|orig| - 1];
      assert forall n :: n in orig[..|orig| - 1] ==> n in orig;
      WithClones(sets, orig[..|orig| - 1], now)[CloneName(last) := Clone(last, sets[last], now)]
  }

  /** Exactly the originals get a new set under their clone's name, and nothing else changes. */
  lemma {:induction false} WithClonesAt(sets: Sets, orig: seq<string>, now: Time, name: string)
    requires forall n :: n in orig ==> n in sets
    requires forall n :: n in orig ==> CloneName(n) !in sets
    ensures name in WithClones(sets, orig, now) <==> name in sets || (IsCloneName(name) && Base(name) in orig)
    ensures name in sets ==> name in WithClones(sets, orig, now) && WithClones(sets, orig, now)[name] == sets[name]
    ensures IsCloneName(name) && Base(name) in orig ==>
              WithClones(sets, orig, now)[name] == Clone(Base(name), sets[Base(name)], now)
  {
    hide CloneName, IsCloneName, Base, Clone;
    if orig == [] {
      return;
    }
    var n := |orig| - 1;
    assert orig == orig[..n] + [orig[n]];
    assert forall m :: m in orig[..n] ==> m in orig;
    WithClonesAt(sets, orig[..n], now, name);
    CloneNameIff(name, orig[n]);
  }

  /** Cloning keeps the invariant, however many of the originals it gets through. */
  lemma WithClonesKeepsInv(sets: Sets, origins: Sets, orig: seq<string>, now: Time)
    requires Inv(sets, origins)
    requires forall n :: n in orig ==> n in sets && IsPooled(sets[n]) && CloneName(n) !in sets
    ensures Inv(WithClones(sets, orig, now), origins)
  {
    ClonesAreSound(sets, origins);
    var after := WithClones(sets, orig, now);
    forall n ensures n in origins ==>
                       n in after && SameSet(after[n], origins[n]) && after[n].deleting == origins[n].deleting
      ensures n in after && n !in origins ==> IsCloneIn(after, origins, n)
    {
      WithClonesAt(sets, orig, now, n);
      if n in sets && n !in origins {
        assert IsCloneIn(sets, origins, n);
      }
    }
  }

  /** When a creating loop that met no error leaves every original with a clone: exactly when, in the order
      they were listed, no original without a clone came after one with a clone. */
  lemma AllClonedIff(sets: Sets, orig: seq<string>, ups: seq<string>, now: Time)
    requires Distinct(orig)
    requires forall n :: n in orig ==> n in sets && (CloneName(n) in sets <==> CloneName(n) in ups)
    ensures forall n :: n in orig[..Leading(orig, ups)] ==> n in sets && CloneName(n) !in sets
    ensures (forall n :: n in orig ==> CloneName(n) in WithClones(sets, orig[..Leading(orig, ups)], now))
            <==> forall i, j :: 0 <= i < j < |orig| && CloneName(orig[i]) in ups ==> CloneName(orig[j]) in ups
  {
    var k := Leading(orig, ups);
    var lead := orig[..k];
    var after := WithClones(sets, lead, now);
    forall n ensures CloneName(n) in after <==> CloneName(n) in sets || n in lead {
      WithClonesAt(sets, lead, now, CloneName(n));
      CloneNameBase(n);
    }
    if forall i, j :: 0 <= i < j < |orig| && CloneName(orig[i]) in ups ==> CloneName(orig[j]) in ups {
      forall n | n in orig ensures CloneName(n) in after {
        var j :| 0 <= j < |orig| && orig[j] == n;
        if j > k {
          assert CloneName(orig[k]) in ups;
        }
      }
    }
    if forall n :: n in orig ==> CloneName(n) in after {
      forall i, j | 0 <= i < j < |orig| && CloneName(orig[i]) in ups
        ensures CloneName(orig[j]) in ups
      {
        assert CloneName(orig[j]) in after;
        assert orig[j] !in lead;
      }
    }
  }
}

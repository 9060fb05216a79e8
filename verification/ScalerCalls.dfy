/** The calls of the capacity scaler on a store where any request may fail. */
module ScalerCalls {
  import opened Kube
  import opened Scaler

  /** How a scaling call ends: (true, nil), (false, nil), a scale or drain timeout error, another error,
      or a nil pointer that takes the operator down. */
  datatype Outcome = Done | Waiting | TimedOut | Failed | Crashed

  /** A listing: every matching set once, in whatever order the API gives them. */
  ghost predicate Lists(names: seq<string>, sets: Sets, p: MachineSet -> bool) {
    && Distinct(names)
    && forall n :: n in names <==> n in sets && p(sets[n])
  }

  /** The answer of the pattern loop for one pool: a bad pattern met before a match is an error. */
  function MatchAny(patterns: seq<string>, pool: string, glob: (string, string) -> Option<bool>): (r: Option<bool>)
    ensures r == Some(true) <==>
            exists i :: && 0 <= i < |patterns| && glob(patterns[i], pool) == Some(true)
                        && forall j :: 0 <= j < i ==> glob(patterns[j], pool) == Some(false)
    ensures r == Some(false) <==> forall i :: 0 <= i < |patterns| ==> glob(patterns[i], pool) == Some(false)
  {
    if patterns == [] then Some(false)
    else match glob(patterns[0], pool)
      case None => None
      case Some(ok) => if ok then Some(true) else MatchAny(patterns[1..], pool, glob)
  }

  predicate IsExtra(ms: MachineSet, patterns: seq<string>, glob: (string, string) -> Option<bool>) {
    IsPooled(ms) && !IsWorker(ms) && MatchAny(patterns, ms.labels[POOL], glob) == Some(true)
  }

  predicate IsScalable(ms: MachineSet, patterns: seq<string>, glob: (string, string) -> Option<bool>) {
    IsWorker(ms) || IsExtra(ms, patterns, glob)
  }

  function MachinesOf(machines: seq<Machine>, name: string): seq<Machine> {
    if machines == [] then []
    else
      (if HasLabel(machines[0].labels, UPGRADE, "true") && HasLabel(machines[0].labels, MACHINESET, name)
       then [machines[0]] else [])
      + MachinesOf(machines[1..], name)
  }

  predicate NodeReady(conditions: seq<(string, string)>) {
    ("Ready", "True") in conditions
  }

  /** The set has reached its size and has exactly one machine, whose node is Ready. */
  predicate ReadySet(ms: MachineSet, name: string, machines: seq<Machine>, nodes: Nodes) {
    && ms.replicas == ms.readyReplicas
    && |MachinesOf(machines, name)| == 1
    && var ref := MachinesOf(machines, name)[0].nodeRef;
       ref.Some? && ref.value in nodes && NodeReady(nodes[ref.value])
  }

  /** The set has a machine without a node although its status counts no machine as missing. */
  predicate Dangling(ms: MachineSet, name: string, machines: seq<Machine>) {
    && ms.replicas == ms.readyReplicas
    && |MachinesOf(machines, name)| == 1
    && MachinesOf(machines, name)[0].nodeRef.None?
  }

  /** The set's size is not reached, or its only machine's node is not Ready, although its time since creation is over. */
  predicate Late(ms: MachineSet, name: string, machines: seq<Machine>, nodes: Nodes, timeOut: Time, now: Time) {
    && now > ms.created + timeOut
    && (|| ms.replicas != ms.readyReplicas
        || (&& |MachinesOf(machines, name)| == 1
            && var ref := MachinesOf(machines, name)[0].nodeRef;
               ref.Some? && ref.value in nodes && !NodeReady(nodes[ref.value])))
  }

  /** The set has reached its size, but its only machine names a node that does not exist. */
  predicate Lost(ms: MachineSet, name: string, machines: seq<Machine>, nodes: Nodes) {
    ms.replicas == ms.readyReplicas && NodeLost(MachinesOf(machines, name), nodes)
  }

  /** Every listed set is there and ready. */
  predicate AllReady(names: seq<string>, sets: Sets, machines: seq<Machine>, nodes: Nodes) {
    forall n :: n in names ==> n in sets && ReadySet(sets[n], n, machines, nodes)
  }

  /** Some listed set was not ready within the time allowed since its creation. */
  predicate AnyLate(
    names: seq<string>, sets: Sets, machines: seq<Machine>, nodes: Nodes, timeOut: Time, now: Time)
  {
    exists n :: n in names && n in sets && !ReadySet(sets[n], n, machines, nodes) && now > sets[n].created + timeOut
  }

  /** Every upgrade set is as it was, terminating or gone; no other set is touched. */
  ghost predicate ScaledDown(before: Sets, after: Sets) {
    && (forall n :: n in after ==> n in before)
    && (forall n :: n in before && !IsUpgrade(before[n]) ==> n in after && after[n] == before[n])
    && (forall n :: n in after ==> after[n] == before[n] || after[n] == before[n].(deleting := true))
  }

  lemma RemovalScalesDown(before: Sets, mid: Sets, after: Sets, n: string)
    requires ScaledDown(before, mid) && (Removal(mid, after, n) || after == mid)
    requires n in mid && IsUpgrade(mid[n])
    ensures ScaledDown(before, after)
    ensures forall m :: m != n && m in mid ==> m in after && after[m] == mid[m]
    ensures forall m :: m != n && m in after ==> m in mid && after[m] == mid[m]
    ensures Removal(mid, after, n) && n in after ==> after[n].deleting
  {
  }

  lemma ScaledDownKeepsInv(before: Sets, after: Sets, origins: Sets)
    requires ScaledDown(before, after) && Inv(before, origins)
    ensures Inv(after, origins)
  {
    ClonesAreSound(before, origins);
    forall n | n in after && n !in origins ensures IsCloneIn(after, origins, n) {
      assert IsCloneIn(before, origins, n);
    }
  }

  lemma DistinctAppend(a: seq<string>, b: seq<string>)
    requires Distinct(a) && Distinct(b) && forall n :: n in a ==> n !in b
    ensures Distinct(a + b)
  {
    forall i, j | 0 <= i < j < |a + b| ensures (a + b)[i] != (a + b)[j] {
      if i < |a| <= j {
        assert a[i] in a && b[j - |a|] in b;
      }
    }
  }

  predicate HasUpgradeMachine(machines: seq<Machine>) {
    exists i :: 0 <= i < |machines| && HasLabel(machines[i].labels, UPGRADE, "true")
  }

  /** A pool pattern that does not parse is met by some set. */
  predicate BadPattern(sets: Sets, patterns: seq<string>, glob: (string, string) -> Option<bool>) {
    exists n :: n in sets && IsPooled(sets[n]) && MatchAny(patterns, sets[n].labels[POOL], glob) == None
  }

  /** A listed set's machine names a node that does not exist. */
  predicate AnyNodeLost(names: seq<string>, machines: seq<Machine>, nodes: Nodes) {
    exists n :: n in names && NodeLost(MachinesOf(machines, n), nodes)
  }

  predicate NodeLost(ms: seq<Machine>, nodes: Nodes) {
    |ms| == 1 && ms[0].nodeRef.Some? && ms[0].nodeRef.value !in nodes
  }

  /** The name of a clone the loop gets to is taken by something else. */
  predicate NameTaken(orig: seq<string>, ups: seq<string>, sets: Sets) {
    exists i :: 0 <= i < Leading(orig, ups) && CloneName(orig[i]) in sets
  }

  /** Behind ready ones, a listed set has a machine without a node although no machine counts as missing. */
  predicate DanglesFirst(names: seq<string>, sets: Sets, machines: seq<Machine>, nodes: Nodes) {
    exists i :: && 0 <= i < |names| && names[i] in sets && Dangling(sets[names[i]], names[i], machines)
                && AllReady(names[..i], sets, machines, nodes)
  }

  /** Behind ready ones, a listed set is late. */
  predicate LateFirst(names: seq<string>, sets: Sets, machines: seq<Machine>, nodes: Nodes, timeOut: Time, now: Time) {
    exists i :: && 0 <= i < |names| && names[i] in sets && Late(sets[names[i]], names[i], machines, nodes, timeOut, now)
                && AllReady(names[..i], sets, machines, nodes)
  }

  /** Behind ready ones, a listed set's node does not exist. */
  predicate LostFirst(names: seq<string>, sets: Sets, machines: seq<Machine>, nodes: Nodes) {
    exists i :: && 0 <= i < |names| && names[i] in sets && Lost(sets[names[i]], names[i], machines, nodes)
                && AllReady(names[..i], sets, machines, nodes)
  }

  lemma AllReadyNoneStops(
    names: seq<string>, sets: Sets, machines: seq<Machine>, nodes: Nodes, timeOut: Time, now: Time)
    requires AllReady(names, sets, machines, nodes)
    ensures !DanglesFirst(names, sets, machines, nodes) && !LostFirst(names, sets, machines, nodes)
    ensures !LateFirst(names, sets, machines, nodes, timeOut, now)
  {
  }

  /** The first set that is not ready decides. */
  lemma StopsAt(
    names: seq<string>, i: nat, sets: Sets, machines: seq<Machine>, nodes: Nodes, timeOut: Time, now: Time)
    requires i < |names| && names[i] in sets && AllReady(names[..i], sets, machines, nodes)
    requires !ReadySet(sets[names[i]], names[i], machines, nodes)
    ensures !AllReady(names, sets, machines, nodes)
    ensures DanglesFirst(names, sets, machines, nodes) <==> Dangling(sets[names[i]], names[i], machines)
    ensures LostFirst(names, sets, machines, nodes) <==> Lost(sets[names[i]], names[i], machines, nodes)
    ensures LateFirst(names, sets, machines, nodes, timeOut, now) <==>
            Late(sets[names[i]], names[i], machines, nodes, timeOut, now)
  {
    hide MachinesOf, NodeReady;
    assert names[i] in names;
    forall k | 0 <= k < |names| && k != i && names[k] in sets && AllReady(names[..k], sets, machines, nodes)
      ensures !Dangling(sets[names[k]], names[k], machines) && !Lost(sets[names[k]], names[k], machines, nodes)
      ensures !Late(sets[names[k]], names[k], machines, nodes, timeOut, now)
    {
      assert k < i ==> names[k] == names[..i][k];
    }
  }

  /** A clone as it is created, whose machine exists but has no node yet, is such a set. */
  lemma FreshCloneDangles(name: string, ms: MachineSet, now: Time, phase: Option<string>, nodes: Nodes)
    ensures var m := Machine(map[UPGRADE := "true", MACHINESET := CloneName(name)], phase, None);
            && Dangling(Clone(name, ms, now), CloneName(name), [m])
            && DanglesFirst([CloneName(name)], map[CloneName(name) := Clone(name, ms, now)], [m], nodes)
  {
    LabelsDiffer();
    var m := Machine(map[UPGRADE := "true", MACHINESET := CloneName(name)], phase, None);
    assert MachinesOf([m], CloneName(name)) == [m] by {
      assert [m][1..] == [];
      assert MachinesOf([], CloneName(name)) == [];
    }
    assert [CloneName(name)][0] == CloneName(name);
  }

  class Cluster {
    var sets: Sets
    var machines: seq<Machine>
    var nodes: Nodes
    ghost const origins: Sets
    ghost var faults: nat   // requests that failed so far

    ghost predicate Valid()
      reads this
    {
      && Inv(sets, origins)
      && forall n :: n in origins ==> !origins[n].deleting
    }

    /** A cluster as it is before any upgrade: no set carries the upgrade label. */
    constructor (sets: Sets, machines: seq<Machine>, nodes: Nodes)
      requires forall n :: n in sets ==> !IsUpgrade(sets[n]) && !sets[n].deleting
      ensures Valid() && this.sets == sets && origins == sets && this.machines == machines && this.nodes == nodes
    {
      this.sets, this.machines, this.nodes, origins, faults := sets, machines, nodes, sets, 0;
    }

    /** The other controllers' turn, between two calls of the scaler. */
    method OthersAct(sets': Sets, machines': seq<Machine>, nodes': Nodes)
      requires Valid() && Quiet(sets, sets')
      modifies this
      ensures Valid() && sets == sets' && machines == machines' && nodes == nodes'
    {
      QuietKeepsInv(sets, sets', origins);
      sets, machines, nodes := sets', machines', nodes';
    }

    method List(p: MachineSet -> bool) returns (r: Option<seq<string>>)
      modifies this`faults
      ensures r.Some? ==> Lists(r.value, sets, p)
      ensures faults >= old(faults) && (r.None? ==> faults > old(faults))
    {
      var answered: bool := *;
      if !answered {
        faults := faults + 1;
        return None;
      }
      var names: seq<string> := [];
      var rest := sets.Keys;
      while rest != {}
        invariant rest <= sets.Keys && Distinct(names)
        invariant forall n :: n in names <==> n in sets && n !in rest && p(sets[n])
        decreases rest
      {
        var n :| n in rest;
        rest := rest - {n};
        if p(sets[n]) {
          names := names + [n];
        }
      }
      r := Some(names);
    }

    method ListByPoolPatterns(patterns: seq<string>, glob: (string, string) -> Option<bool>)
      returns (r: Option<seq<string>>)
      modifies this`faults
      ensures r.Some? ==> Lists(r.value, sets, ms => IsExtra(ms, patterns, glob))
      ensures faults >= old(faults) && (r.None? ==> faults > old(faults) || BadPattern(sets, patterns, glob))
    {
      var all := List(ms => IsPooled(ms));
      if all.None? {
        return None;
      }
      var matched: seq<string> := [];
      for i := 0 to |all.value|
        invariant Distinct(matched) && faults >= old(faults)
        invariant forall n :: n in matched <==> n in all.value[..i] && IsExtra(sets[n], patterns, glob)
      {
        var n := all.value[i];
        assert n in all.value && all.value[..i + 1] == all.value[..i] + [n];
        assert n !in all.value[..i];
        var pool := sets[n].labels[POOL];
        if pool != "worker" {
          var hit := MatchPool(patterns, pool, glob);
          if hit.None? {
            return None;
          }
          if hit.value {
            matched := matched + [n];
          }
        }
      }
      assert all.value[..|all.value|] == all.value;
      r := Some(matched);
    }

    method MatchPool(patterns: seq<string>, pool: string, glob: (string, string) -> Option<bool>)
      returns (r: Option<bool>)
      ensures r == MatchAny(patterns, pool, glob)
    {
      for i := 0 to |patterns|
        invariant MatchAny(patterns, pool, glob) == MatchAny(patterns[i..], pool, glob)
      {
        var ok := glob(patterns[i], pool);
        if ok.None? {
          return None;
        }
        if ok.value {
          return Some(true);
        }
      }
      r := Some(false);
    }

    /** Create one set; a name already taken is refused. */
    method Create(name: string, ms: MachineSet) returns (err: bool, ghost landed: bool)
      modifies this`sets, this`faults
      ensures landed ==> name !in old(sets) && sets == old(sets)[name := ms]
      ensures !landed ==> sets == old(sets) && err
      ensures faults >= old(faults) && (err ==> faults > old(faults) || name in old(sets))
    {
      var f: Fault := *;
      landed := name !in sets && f.Lands();
      err := name in sets || !f.Succeeds();
      if name !in sets && f.Lands() {
        sets := sets[name := ms];
      }
      if !f.Succeeds() {
        faults := faults + 1;
      }
    }

    method IsListed(name: string, ups: seq<string>) returns (found: bool)
      ensures found <==> name in ups
    {
      found := false;
      for j := 0 to |ups|
        invariant found <==> name in ups[..j]
      {
        assert ups[..j + 1] == ups[..j] + [ups[j]];
        if ups[j] == name {
          found := true;
        }
      }
      assert ups[..|ups|] == ups;
    }

    /** Create the missing clones, up to the first original whose clone is listed. `done` counts the
        clones that came to exist, also when the call ended in an error. */
    method ExtraMachineSetCreated(orig: seq<string>, ups: seq<string>, now: Time)
      returns (created: bool, err: bool, ghost done: nat)
      requires Distinct(orig) && forall n :: n in orig ==> n in sets
      modifies this`sets, this`faults
      ensures faults >= old(faults) && (err ==> faults > old(faults) || NameTaken(orig, ups, old(sets)))
      ensures NameTaken(orig, ups, old(sets)) ==> err
      ensures done <= Leading(orig, ups)
      ensures forall n :: n in orig[..done] ==> n in old(sets) && CloneName(n) !in old(sets)
      ensures sets == WithClones(old(sets), orig[..done], now)
      ensures !err ==> done == Leading(orig, ups) && (created <==> done == |orig|)
      ensures err ==> !created
    {
      hide CloneName, Clone, Base, IsCloneName;
      done := 0;
      for i := 0 to |orig|
        invariant done == i <= Leading(orig, ups) && faults >= old(faults)
        invariant forall n :: n in orig[..i] ==> n in old(sets) && CloneName(n) !in old(sets)
        invariant sets == WithClones(old(sets), orig[..i], now)
      {
        var n := orig[i];
        assert n in orig;
        var found := IsListed(CloneName(n), ups);
        if found {
          return false, false, done;
        }
        WithClonesAt(old(sets), orig[..i], now, n);
        WithClonesAt(old(sets), orig[..i], now, CloneName(n));
        assert orig[..i + 1] == orig[..i] + [n] && orig[..i + 1][..i] == orig[..i];
        ghost var landed;
        CloneNameBase(n);
        assert n !in orig[..i];
        err, landed := Create(CloneName(n), Clone(n, sets[n], now));
        if landed {
          done := done + 1;
        }
        if err {
          return false, true, done;
        }
      }
      assert orig[..|orig|] == orig;
      return true, false, done;
    }

    method ListMachinesOf(name: string) returns (r: Option<seq<Machine>>)
      modifies this`faults
      ensures r.Some? ==> r.value == MachinesOf(machines, name)
      ensures faults >= old(faults) && (r.None? ==> faults > old(faults))
    {
      var answered: bool := *;
      if !answered {
        faults := faults + 1;
        return None;
      }
      r := Some(MachinesOf(machines, name));
    }

    /** One listed clone: its size, its only machine, and that machine's node. */
    method SetIsReady(name: string, timeOut: Time, now: Time) returns (r: Outcome)
      requires name in sets
      modifies this`faults
      ensures faults >= old(faults)
      ensures r.Failed? ==> faults > old(faults) || NodeLost(MachinesOf(machines, name), nodes)
      ensures r.Done? ==> ReadySet(sets[name], name, machines, nodes)
      ensures r.Waiting? ==> !ReadySet(sets[name], name, machines, nodes)
      ensures r.TimedOut? ==> !ReadySet(sets[name], name, machines, nodes) && now > sets[name].created + timeOut
      ensures r.Crashed? ==> Dangling(sets[name], name, machines)
      // Unless a request fails, exactly one of these decides, and the set is waited for otherwise.
      ensures faults == old(faults) ==>
                && (r.Done? <==> ReadySet(sets[name], name, machines, nodes))
                && (r.Crashed? <==> Dangling(sets[name], name, machines))
                && (r.TimedOut? <==> Late(sets[name], name, machines, nodes, timeOut, now))
                && (r.Failed? <==> Lost(sets[name], name, machines, nodes))
    {
      var ms := sets[name];
      if ms.replicas != ms.readyReplicas {
        return if now > ms.created + timeOut then TimedOut else Waiting;
      }
      var list := ListMachinesOf(name);
      if list.None? {
        return Failed;
      }
      if |list.value| != 1 {
        return Waiting;
      }
      var ref := list.value[0].nodeRef;
      if ref.None? {
        return Crashed;
      }
      var answered: bool := *;
      if !answered {
        faults := faults + 1;
        return Failed;
      }
      if ref.value !in nodes {
        return Failed;
      }
      var ready := false;
      var conditions := nodes[ref.value];
      for i := 0 to |conditions|
        invariant ready <==> NodeReady(conditions[..i])
      {
        assert conditions[..i + 1] == conditions[..i] + [conditions[i]];
        if conditions[i].0 == "Ready" && conditions[i].1 == "True" {
          ready := true;
        }
      }
      assert conditions[..|conditions|] == conditions;
      if !ready {
        return if now > ms.created + timeOut then TimedOut else Waiting;
      }
      r := Done;
    }

    method NodesAreReady(ups: seq<string>, timeOut: Time, now: Time) returns (r: Outcome)
      requires forall n :: n in ups ==> n in sets
      modifies this`faults
      ensures faults >= old(faults) && (r.Failed? ==> faults > old(faults) || AnyNodeLost(ups, machines, nodes))
      ensures r.Done? ==> AllReady(ups, sets, machines, nodes)
      ensures r.Waiting? ==> !AllReady(ups, sets, machines, nodes)
      ensures r.TimedOut? ==> AnyLate(ups, sets, machines, nodes, timeOut, now)
      ensures r.Crashed? ==> DanglesFirst(ups, sets, machines, nodes)
      ensures faults == old(faults) ==>
                && (r.Done? <==> AllReady(ups, sets, machines, nodes))
                && (r.Crashed? <==> DanglesFirst(ups, sets, machines, nodes))
                && (r.TimedOut? <==> LateFirst(ups, sets, machines, nodes, timeOut, now))
                && (r.Failed? <==> LostFirst(ups, sets, machines, nodes))
    {
      hide MachinesOf, NodeReady;
      for i := 0 to |ups|
        invariant faults >= old(faults) && AllReady(ups[..i], sets, machines, nodes)
      {
        assert ups[i] in ups && ups[..i + 1] == ups[..i] + [ups[i]];
        r := SetIsReady(ups[i], timeOut, now);
        if !r.Done? {
          if faults == old(faults) {
            StopsAt(ups, i, sets, machines, nodes, timeOut, now);
          }
          return;
        }
      }
      assert ups[..|ups|] == ups;
      r := Done;
      AllReadyNoneStops(ups, sets, machines, nodes, timeOut, now);
    }

    /** The originals to clone. A listing that fails is only logged, which `complete` records. */
    method Originals(patterns: seq<string>, glob: (string, string) -> Option<bool>)
      returns (orig: seq<string>, complete: bool)
      ensures Distinct(orig)
      ensures forall n :: n in orig ==> n in sets && IsScalable(sets[n], patterns, glob)
      modifies this`faults
      ensures faults >= old(faults) && (!complete ==> faults > old(faults) || BadPattern(sets, patterns, glob))
      ensures complete ==> forall n :: n in sets && IsScalable(sets[n], patterns, glob) ==> n in orig
    {
      orig, complete := [], true;
      var workers := List(ms => IsWorker(ms));
      if workers.None? {
        complete := false;
      } else {
        orig := workers.value;
      }
      if |patterns| > 0 {
        var extra := ListByPoolPatterns(patterns, glob);
        if extra.None? {
          complete := false;
        } else {
          DistinctAppend(orig, extra.value);
          orig := orig + extra.value;
        }
      }
    }

    /** What a scale-up did to the store: it got through the first `done` of the originals it listed. */
    ghost predicate ScaledUp(before: Sets, orig: seq<string>, done: nat, now: Time)
      reads this
    {
      && Distinct(orig) && done <= |orig|
      && (forall n :: n in orig ==> n in before)
      && (forall n :: n in orig[..done] ==> CloneName(n) !in before)
      && sets == WithClones(before, orig[..done], now)
    }

    method EnsureScaleUpNodes(
      patterns: seq<string>, glob: (string, string) -> Option<bool>, timeOut: Time, now: Time)
      returns (r: Outcome, ghost complete: bool, ghost orig: seq<string>, ghost ups: seq<string>, ghost done: nat)
      requires Valid()
      modifies this`sets, this`faults
      ensures Valid()
      ensures !complete ==> faults > old(faults) || BadPattern(old(sets), patterns, glob)
      ensures r.Failed? ==>
                || faults > old(faults) || orig == [] || NameTaken(orig, ups, old(sets)) || AnyNodeLost(ups, machines, nodes)
      ensures ScaledUp(old(sets), orig, done, now) && done <= Leading(orig, ups)
      ensures forall n :: n in orig ==> IsScalable(old(sets)[n], patterns, glob)
      ensures complete ==> forall n :: n in old(sets) && IsScalable(old(sets)[n], patterns, glob) ==> n in orig
      ensures !r.Failed? ==> orig != [] && Lists(ups, old(sets), ms => IsUpgrade(ms)) && done == Leading(orig, ups)
      ensures !r.Failed? && done == |orig| ==> r.Waiting?
      ensures r.Waiting? ==> done == |orig| || !AllReady(ups, sets, machines, nodes)
      ensures r.Done? ==> ups != [] && AllReady(ups, sets, machines, nodes)
      ensures r.TimedOut? ==> AnyLate(ups, sets, machines, nodes, timeOut, now)
      ensures r.Crashed? ==> DanglesFirst(ups, sets, machines, nodes)
      // Unless a request fails: with nothing to clone or a clone's name taken the call fails, having created every clone
      // it waits, and having met a listed clone it is as the listed clones are.
      ensures faults == old(faults) ==>
                if orig == [] || NameTaken(orig, ups, old(sets)) then r.Failed?
                else if Leading(orig, ups) == |orig| then r.Waiting? && done == |orig|
                else
                  && (r.Done? <==> AllReady(ups, sets, machines, nodes))
                  && (r.Crashed? <==> DanglesFirst(ups, sets, machines, nodes))
                  && (r.TimedOut? <==> LateFirst(ups, sets, machines, nodes, timeOut, now))
                  && (r.Failed? <==> LostFirst(ups, sets, machines, nodes))
    {
      orig, ups, done, complete := [], [], 0, false;
      var listed := List(ms => IsUpgrade(ms));
      if listed.None? {
        return Failed, complete, orig, ups, done;
      }
      ups := listed.value;
      var originals, all := Originals(patterns, glob);
      orig, complete := originals, all;
      if |originals| == 0 {
        return Failed, complete, orig, ups, done;
      }
      var created, err;
      created, err, done := ExtraMachineSetCreated(originals, listed.value, now);
      ScaledUpKeeps(old(sets), orig, done, now);
      if err {
        return Failed, complete, orig, ups, done;
      }
      if created {
        return Waiting, complete, orig, ups, done;
      }
      r := NodesAreReady(listed.value, timeOut, now);
    }

    lemma ScaledUpKeeps(before: Sets, orig: seq<string>, done: nat, now: Time)
      requires ScaledUp(before, orig, done, now) && Inv(before, origins)
      requires forall n :: n in orig ==> IsPooled(before[n])
      ensures Inv(sets, origins)
      ensures forall n :: n in before ==> n in sets && sets[n] == before[n]
    {
      assert forall n :: n in orig[..done] ==> n in orig;
      WithClonesKeepsInv(before, origins, orig[..done], now);
      forall n | n in before ensures n in sets && sets[n] == before[n] {
        WithClonesAt(before, orig[..done], now, n);
      }
    }

    // ---- Scaling down ----------------------------------------------------------------------------------------

    method Delete(n: string) returns (err: bool)
      requires n in sets
      modifies this`sets, this`faults
      ensures faults >= old(faults) && (err ==> faults > old(faults))
      ensures !err ==> Removal(old(sets), sets, n)
      ensures Removal(old(sets), sets, n) || sets == old(sets)
    {
      var f: Fault := *;
      var held: bool := *;
      err := !f.Succeeds();
      if err {
        faults := faults + 1;
      }
      if f.Lands() {
        sets := if held then sets[n := sets[n].(deleting := true)] else sets - {n};
      }
    }

    method DeleteUpgradeSets(ups: seq<string>) returns (err: bool)
      requires Lists(ups, sets, ms => IsUpgrade(ms))
      modifies this`sets, this`faults
      ensures faults >= old(faults) && (err ==> faults > old(faults))
      ensures ScaledDown(old(sets), sets)
      ensures !err ==> forall n :: n in sets && IsUpgrade(sets[n]) ==> sets[n].deleting
    {
      for i := 0 to |ups|
        invariant faults >= old(faults) && ScaledDown(old(sets), sets)
        invariant forall j :: i <= j < |ups| ==> ups[j] in sets && sets[ups[j]] == old(sets)[ups[j]]
        invariant forall j :: 0 <= j < i && ups[j] in sets ==> sets[ups[j]].deleting
      {
        var n := ups[i];
        assert n in ups;
        if !sets[n].deleting {
          ghost var mid := sets;
          err := Delete(n);
          RemovalScalesDown(old(sets), mid, sets, n);
          if err {
            return;
          }
        }
      }
      err := false;
      forall n | n in sets && IsUpgrade(sets[n]) ensures sets[n].deleting {
        assert n in ups;
      }
    }

    /** The nodes of the upgrade machines that run or are being deleted. */
    method ExtraUpgradeNodes() returns (r: Outcome, names: seq<string>)
      modifies this`faults
      ensures faults >= old(faults) && (r.Failed? ==> faults > old(faults) || NodelessMachine(machines))
      ensures r.Done? || r.Failed? || r.Crashed?
      ensures r.Done? ==> forall n :: n in names <==> n in nodes && HostsUpgradeMachine(machines, n)
      ensures r.Crashed? ==> PhaseMissing(machines, nodes)
      ensures faults == old(faults) ==>
                if PhaseMissing(machines, nodes) then r.Crashed? else (r.Failed? <==> WalkEnds(machines, nodes))
    {
      names := [];
      var listed: bool := *;
      if !listed {
        faults := faults + 1;
        return Failed, names;
      }
      for i := 0 to |machines|
        invariant faults == old(faults)
        invariant forall j :: 0 <= j < i ==>
                    !EndsWalk(machines[j], nodes) && !(IsUpgradeMachine(machines[j]) && machines[j].phase.None?)
        invariant forall n :: n in names <==> n in nodes && HostsUpgradeMachine(machines[..i], n)
      {
        var m := machines[i];
        HostsNext(machines, i);
        if HasLabel(m.labels, UPGRADE, "true") {
          if m.phase.None? {
            return Crashed, names;
          }
          if IsHosted(m) && nodes != map[] {
            if m.nodeRef.None? {
              return Failed, names;
            }
            if m.nodeRef.value in nodes {
              names := names + [m.nodeRef.value];
            }
          }
        }
      }
      assert machines[..|machines|] == machines;
      r := Done;
    }

    /** Run the drain of every such node, then ask for its verdict, which is `hasFailed`. */
    method HandleDrainStrategy(names: seq<string>, hasFailed: string -> bool) returns (r: Outcome)
      modifies this`faults
      ensures faults >= old(faults) && (r.Failed? ==> faults > old(faults))
      ensures r.Done? || r.Failed? || r.TimedOut?
      ensures r.TimedOut? ==> exists n :: n in names && hasFailed(n)
      ensures r.Done? ==> forall n :: n in names ==> !hasFailed(n)
    {
      for i := 0 to |names|
        invariant faults == old(faults)
      {
        var executed: bool := *;
        if !executed {
          faults := faults + 1;
          return Failed;
        }
      }
      for i := 0 to |names|
        invariant faults == old(faults)
        invariant forall j :: 0 <= j < i ==> !hasFailed(names[j])
      {
        var answered: bool := *;
        if !answered {
          faults := faults + 1;
          return Failed;
        }
        if hasFailed(names[i]) {
          return TimedOut;
        }
      }
      r := Done;
    }

    method FindUpgradeMachine() returns (found: bool)
      ensures found <==> HasUpgradeMachine(machines)
    {
      found := false;
      for i := 0 to |machines|
        invariant found <==> HasUpgradeMachine(machines[..i])
      {
        UpgradeMachineNext(machines, i);
        if HasLabel(machines[i].labels, UPGRADE, "true") {
          found := true;
        }
      }
      assert machines[..|machines|] == machines;
    }

    /** Remove the upgrade sets, and report when their machines are gone; `drains` is None without a drain strategy, and
        otherwise says which nodes its verdict fails. */
    method EnsureScaleDownNodes(drains: Option<string -> bool>) returns (r: Outcome)
      requires Valid()
      modifies this`sets, this`faults
      ensures Valid() && ScaledDown(old(sets), sets)
      ensures r.Failed? ==> faults > old(faults) || (drains.Some? && NodelessMachine(machines))
      ensures r.Done? || r.Waiting? ==> forall n :: n in sets && IsUpgrade(sets[n]) ==> sets[n].deleting
      ensures r.Done? ==> !HasUpgradeMachine(machines)
      ensures r.Waiting? ==> HasUpgradeMachine(machines)
      ensures r.TimedOut? ==> drains.Some? && DrainFailed(machines, nodes, drains.value)
      ensures r.Crashed? ==> drains.Some? && PhaseMissing(machines, nodes)
      // Unless a request fails, what decides the outcome.
      ensures faults == old(faults) ==>
                && (forall n :: n in sets && IsUpgrade(sets[n]) ==> sets[n].deleting)
                && (if drains.Some? && PhaseMissing(machines, nodes) then r.Crashed?
                    else if drains.Some? && WalkEnds(machines, nodes) then r.Failed?
                    else if drains.Some? && DrainFailed(machines, nodes, drains.value) then r.TimedOut?
                    else if HasUpgradeMachine(machines) then r.Waiting? else r.Done?)
    {
      var listed := List(ms => IsUpgrade(ms));
      if listed.None? {
        return Failed;
      }
      var err := DeleteUpgradeSets(listed.value);
      ScaledDownKeepsInv(old(sets), sets, origins);
      if err {
        return Failed;
      }
      if drains.Some? {
        var names;
        r, names := ExtraUpgradeNodes();
        if !r.Done? {
          return;
        }
        r := HandleDrainStrategy(names, drains.value);
        if !r.Done? {
          return;
        }
      }
      var answered: bool := *;
      if !answered {
        faults := faults + 1;
        return Failed;
      }
      var found := FindUpgradeMachine();
      r := if found then Waiting else Done;
    }
  }

  predicate IsHosted(m: Machine) {
    m.phase == Some("Running") || m.phase == Some("Deleting")
  }

  predicate IsUpgradeMachine(m: Machine) {
    HasLabel(m.labels, UPGRADE, "true")
  }

  /** The walk over the machines ends with an error at this one. */
  predicate EndsWalk(m: Machine, nodes: Nodes) {
    IsUpgradeMachine(m) && m.phase.Some? && IsHosted(m) && m.nodeRef.None? && nodes != map[]
  }

  /** The walk over the machines comes to an upgrade machine without a phase. */
  predicate PhaseMissing(machines: seq<Machine>, nodes: Nodes) {
    exists i :: && 0 <= i < |machines| && IsUpgradeMachine(machines[i]) && machines[i].phase.None?
                && forall j :: 0 <= j < i ==> !EndsWalk(machines[j], nodes)
  }

  predicate WalkEnds(machines: seq<Machine>, nodes: Nodes) {
    exists i :: 0 <= i < |machines| && EndsWalk(machines[i], nodes)
  }

  /** The drain verdict fails a node that hosts an upgrade machine. */
  predicate DrainFailed(machines: seq<Machine>, nodes: Nodes, hasFailed: string -> bool) {
    exists n :: n in nodes && HostsUpgradeMachine(machines, n) && hasFailed(n)
  }

  /** An upgrade machine that runs or is being deleted has no node. */
  predicate NodelessMachine(machines: seq<Machine>) {
    exists i :: && 0 <= i < |machines| && HasLabel(machines[i].labels, UPGRADE, "true")
                && IsHosted(machines[i]) && machines[i].nodeRef.None?
  }

  predicate HostsUpgradeMachine(machines: seq<Machine>, node: string) {
    exists i :: && 0 <= i < |machines| && HasLabel(machines[i].labels, UPGRADE, "true")
                && IsHosted(machines[i]) && machines[i].nodeRef == Some(node)
  }

  lemma HostsNext(machines: seq<Machine>, i: nat)
    requires i < |machines|
    ensures forall n :: HostsUpgradeMachine(machines[..i + 1], n) <==>
              || HostsUpgradeMachine(machines[..i], n)
              || (HasLabel(machines[i].labels, UPGRADE, "true") && IsHosted(machines[i]) && machines[i].nodeRef == Some(n))
  {
  }

  lemma UpgradeMachineNext(machines: seq<Machine>, i: nat)
    requires i < |machines|
    ensures HasUpgradeMachine(machines[..i + 1]) <==>
            HasUpgradeMachine(machines[..i]) || HasLabel(machines[i].labels, UPGRADE, "true")
  {
  }

  /** From no clones, a creating loop that meets no error gets through all originals; every later scale-up,
      in whatever order it lists them, then creates nothing. */
  lemma SecondScaleUpCreatesNone(
    sets: Sets, orig: seq<string>, ups: seq<string>, now: Time, orig': seq<string>, ups': seq<string>)
    requires forall n :: n in sets ==> !IsUpgrade(sets[n])
    requires forall n :: n in orig ==> n in sets && CloneName(n) !in sets
    requires Lists(ups, sets, ms => IsUpgrade(ms)) && Lists(ups', WithClones(sets, orig, now), ms => IsUpgrade(ms))
    requires orig' != [] && forall n :: n in orig' ==> n in orig
    ensures Leading(orig, ups) == |orig|
    ensures Leading(orig', ups') == 0
  {
    var n := orig'[0];
    assert n in orig';
    CloneNameBase(n);
    WithClonesAt(sets, orig, now, CloneName(n));
    assert CloneName(n) in ups';
    assert forall m :: m !in ups;
  }

  /** One more creating loop, over the same originals in the same order and any listing of the clones. */
  ghost predicate LoopsTo(a: Sets, b: Sets, orig: seq<string>, now: Time) {
    && (forall n :: n in orig ==> n in a)
    && exists ups :: Lists(ups, a, ms => IsUpgrade(ms)) && b == WithClones(a, orig[..Leading(orig, ups)], now)
  }

  ghost predicate IsLooping(ss: seq<Sets>, orig: seq<string>, times: seq<Time>) {
    |times| == |ss| && forall i :: 0 < i < |ss| ==> LoopsTo(ss[i - 1], ss[i], orig, times[i])
  }

  /** A scale-up that failed after creating some but not all clones is never completed while the listing order stays:
      no number of later loops creates anything, and the originals behind have no clone. */
  lemma {:induction false} PartialScaleUpPersists(
    sets: Sets, orig: seq<string>, k: nat, now: Time, ss: seq<Sets>, times: seq<Time>)
    requires Distinct(orig) && 0 < k < |orig| && forall n :: n in orig ==> n in sets && CloneName(n) !in sets
    requires forall n :: n in orig[..k] ==> n in sets
    requires |ss| > 0 && ss[0] == WithClones(sets, orig[..k], now) && IsLooping(ss, orig, times)
    ensures ss[|ss| - 1] == ss[0]
    ensures forall j :: 0 <= j < |orig| ==> (CloneName(orig[j]) in ss[|ss| - 1] <==> j < k)
  {
    if |ss| == 1 {
      forall j | 0 <= j < |orig| ensures CloneName(orig[j]) in ss[0] <==> j < k {
        CloneNameBase(orig[j]);
        WithClonesAt(sets, orig[..k], now, CloneName(orig[j]));
      }
    } else {
      var n := |ss| - 1;
      PartialScaleUpPersists(sets, orig, k, now, ss[..n], times[..n]);
      LoopCreatesNone(sets, orig, k, now, ss[n], times[n]);
    }
  }

  lemma LoopCreatesNone(sets: Sets, orig: seq<string>, k: nat, now: Time, after: Sets, later: Time)
    requires Distinct(orig) && 0 < k < |orig| && forall n :: n in orig ==> n in sets && CloneName(n) !in sets
    requires forall n :: n in orig[..k] ==> n in sets
    requires LoopsTo(WithClones(sets, orig[..k], now), after, orig, later)
    ensures after == WithClones(sets, orig[..k], now)
  {
    hide WithClones;
    var mid := WithClones(sets, orig[..k], now);
    var ups :| Lists(ups, mid, ms => IsUpgrade(ms)) && after == WithClones(mid, orig[..Leading(orig, ups)], later);
    var n := orig[0];
    assert n in orig && n == orig[..k][0];
    CloneNameBase(n);
    WithClonesAt(sets, orig[..k], now, CloneName(n));
    assert CloneName(n) in ups;
    assert orig[..Leading(orig, ups)] == [];
    NoClones(mid, later);
  }

  lemma NoClones(sets: Sets, now: Time)
    ensures WithClones(sets, [], now) == sets
  {
  }

  /** Scaling down is the way back: once a finished scale-down's terminating sets are gone, the sets are the
      originals, as they were, and nothing else. */
  lemma ScaleRoundTrip(sets: Sets, sets': Sets, origins: Sets)
    requires Inv(sets, origins) && forall n :: n in origins ==> !origins[n].deleting
    requires forall n :: n in sets && IsUpgrade(sets[n]) ==> sets[n].deleting
    requires Quiet(sets, sets') && forall n :: n in sets' ==> !sets'[n].deleting
    ensures sets'.Keys == origins.Keys
    ensures forall n :: n in origins ==> SameSet(sets'[n], origins[n])
  {
  }
}

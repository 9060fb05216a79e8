/** Maintenance windows as Alertmanager silences, on a store where any request may fail. */
module Silences {
  import opened Kube
  import opened Substrings
  import opened SilenceText

  const OPERATOR := "managed-upgrade-operator"

  datatype Silence = Silence(id: nat, comment: string, creator: string, active: bool, endsAt: Time)

  predicate UniqueIds(s: seq<Silence>) {
    forall i, j :: 0 <= i < j < |s| ==> s[i].id != s[j].id
  }

  predicate IsActive(x: Silence, w: string) {
    x.active && Contains(x.comment, w)
  }

  predicate OneActive(s: seq<Silence>, w: string) {
    forall i, j :: 0 <= i < j < |s| ==> !(IsActive(s[i], w) && IsActive(s[j], w))
  }

  predicate OneWith(s: seq<Silence>, comment: string) {
    forall i, j :: 0 <= i < j < |s| ==> !(s[i].comment == comment && s[j].comment == comment)
  }

  predicate HasComment(s: seq<Silence>, comment: string) {
    exists i :: 0 <= i < |s| && s[i].comment == comment
  }

  predicate HasActive(s: seq<Silence>, w: string) {
    exists i :: 0 <= i < |s| && IsActive(s[i], w)
  }

  predicate HasActiveComment(s: seq<Silence>, comment: string) {
    exists i :: 0 <= i < |s| && s[i].active && s[i].comment == comment
  }

  /** What holds of the store for one target version: at most one worker silence is active, and each control
      plane comment has at most one silence. */
  ghost predicate Sound(s: seq<Silence>, version: string) {
    && UniqueIds(s)
    && OneActive(s, WorkerComment(version))
    && OneWith(s, DefaultComment(version))
    && OneWith(s, CriticalComment(version))
  }

  /** The same silences, some of them no longer active. */
  ghost predicate Fewer(s: seq<Silence>, s': seq<Silence>) {
    && |s'| == |s|
    && forall i :: 0 <= i < |s| ==> s'[i] == s[i] || s'[i] == s[i].(active := false)
  }

  /** At most one silence was ended, and it was active under this comment. */
  ghost predicate Retired(s: seq<Silence>, s': seq<Silence>, w: string) {
    s' == s || exists k :: 0 <= k < |s| && IsActive(s[k], w) && s' == s[k := s[k].(active := false)]
  }

  lemma FewerKeepsSound(s: seq<Silence>, s': seq<Silence>, version: string)
    requires Sound(s, version) && Fewer(s, s')
    ensures Sound(s', version)
  {
  }

  predicate FreshId(s: seq<Silence>, id: nat) {
    forall i :: 0 <= i < |s| ==> s[i].id != id
  }

  /** One new silence of the operator's, active. */
  predicate Added(s: seq<Silence>, s': seq<Silence>, comment: string, endsAt: Time) {
    && |s'| == |s| + 1 && s'[..|s|] == s
    && var x := s'[|s|];
       FreshId(s, x.id) && x == Silence(x.id, comment, OPERATOR, true, endsAt)
  }

  lemma AddKeepsSound(s: seq<Silence>, x: Silence, version: string)
    requires Sound(s, version) && FreshId(s, x.id)
    requires IsActive(x, WorkerComment(version)) ==> !HasActive(s, WorkerComment(version))
    requires x.comment == DefaultComment(version) ==> !HasComment(s, x.comment)
    requires x.comment == CriticalComment(version) ==> !HasComment(s, x.comment)
    ensures Sound(s + [x], version)
  {
  }

  lemma RemoveKeepsSound(s: seq<Silence>, k: nat, version: string)
    requires Sound(s, version) && k < |s|
    ensures Sound(s[..k] + s[k + 1..], version)
  {
  }

  class Maintenance {
    var silences: seq<Silence>
    ghost const version: string
    ghost var faults: nat   // requests that failed so far

    ghost predicate Valid()
      reads this
    {
      Sound(silences, version)
    }

    constructor (silences: seq<Silence>, ghost version: string)
      requires UniqueIds(silences) && !HasActive(silences, WorkerComment(version))
      requires !HasComment(silences, DefaultComment(version)) && !HasComment(silences, CriticalComment(version))
      ensures Valid() && this.silences == silences && this.version == version
    {
      this.silences, this.version, faults := silences, version, 0;
    }

    // ---- What happens to the store besides -----------------------------------------------------------------

    method Expire(k: nat)
      requires Valid() && k < |silences|
      modifies this
      ensures Valid() && silences == old(silences)[k := old(silences)[k].(active := false)]
    {
      ghost var before := silences;
      silences := silences[k := silences[k].(active := false)];
      FewerKeepsSound(before, silences, version);
    }

    /** Alertmanager forgets an expired silence some time later. */
    method Forget(k: nat)
      requires Valid() && k < |silences| && !silences[k].active
      modifies this
      ensures Valid() && silences == old(silences)[..k] + old(silences)[k + 1..]
    {
      RemoveKeepsSound(silences, k, version);
      silences := silences[..k] + silences[k + 1..];
    }

    /** Somebody else adds a silence that is not a comment of the operator's for this version. */
    method AddForeign(x: Silence)
      requires Valid() && FreshId(silences, x.id) && !Contains(x.comment, WorkerComment(version))
      requires x.comment != DefaultComment(version) && x.comment != CriticalComment(version)
      modifies this
      ensures Valid() && silences == old(silences) + [x]
    {
      AddKeepsSound(silences, x, version);
      silences := silences + [x];
    }

    // ---- The client -----------------------------------------------------------------------------------------

    method Filter(p: Silence -> bool) returns (r: Option<seq<Silence>>)
      modifies this`faults
      ensures r.Some? ==> forall x :: x in r.value <==> x in silences && p(x)
      ensures faults >= old(faults) && (r.None? ==> faults > old(faults))
    {
      var answered: bool := *;
      if !answered {
        faults := faults + 1;
        return None;
      }
      var found: seq<Silence> := [];
      for i := 0 to |silences|
        invariant forall x :: x in found <==> x in silences[..i] && p(x)
      {
        assert silences[..i + 1] == silences[..i] + [silences[i]];
        if p(silences[i]) {
          found := found + [silences[i]];
        }
      }
      assert silences[..|silences|] == silences;
      r := Some(found);
    }

    method Create(comment: string, endsAt: Time) returns (err: bool)
      modifies this
      ensures silences == old(silences) || Added(old(silences), silences, comment, endsAt)
      ensures !err ==> Added(old(silences), silences, comment, endsAt)
      ensures faults >= old(faults) && (err ==> faults > old(faults))
    {
      var f: Fault := *;
      if f.Lands() {
        var id := NewId();
        silences := silences + [Silence(id, comment, OPERATOR, true, endsAt)];
      }
      err := !f.Succeeds();
      if err {
        faults := faults + 1;
      }
    }

    method NewId() returns (id: nat)
      ensures FreshId(silences, id)
    {
      id := 0;
      for i := 0 to |silences|
        invariant forall j :: 0 <= j < i ==> silences[j].id < id
      {
        if silences[i].id >= id {
          id := silences[i].id + 1;
        }
      }
    }

    /** Deleting a silence ends it. */
    method Delete(id: nat) returns (err: bool)
      requires UniqueIds(silences)
      modifies this
      ensures Fewer(old(silences), silences)
      ensures forall i :: 0 <= i < |silences| && silences[i].id != id ==> silences[i] == old(silences)[i]
      ensures !err ==> forall i :: 0 <= i < |silences| && silences[i].id == id ==> !silences[i].active
      ensures faults >= old(faults) && (err ==> faults > old(faults))
    {
      var f: Fault := *;
      if f.Lands() {
        for i := 0 to |silences|
          invariant faults == old(faults)
          invariant Fewer(old(silences), silences)
          invariant forall j :: 0 <= j < |silences| && silences[j].id != id ==> silences[j] == old(silences)[j]
          invariant forall j :: 0 <= j < i && silences[j].id == id ==> !silences[j].active
        {
          if silences[i].id == id {
            silences := silences[i := silences[i].(active := false)];
          }
        }
      }
      err := !f.Succeeds();
      if err {
        faults := faults + 1;
      }
    }

    // ---- Starting and ending maintenance --------------------------------------------------------------------

    /** Create a control plane silence unless its comment is listed. */
    method Ensure(comment: string, listed: bool, endsAt: Time) returns (err: bool)
      requires Valid() && (comment == DefaultComment(version) || comment == CriticalComment(version))
      requires listed <==> HasComment(silences, comment)
      modifies this
      ensures Valid()
      ensures silences == old(silences) || Added(old(silences), silences, comment, endsAt)
      ensures listed ==> silences == old(silences)
      ensures !err ==> HasComment(silences, comment)
      ensures faults >= old(faults) && (err ==> faults > old(faults))
    {
      if listed {
        return false;
      }
      ghost var before := silences;
      err := Create(comment, endsAt);
      if silences != before {
        ghost var x := silences[|before|];
        CommentsApart(version, 0);
        AddKeepsSound(before, x, version);
        assert silences == before + [x];
      }
    }

    method StartControlPlane(endsAt: Time, v: string, ignored: seq<string>) returns (err: bool)
      requires Valid() && v == version
      modifies this
      ensures Valid()
      ensures |silences| >= |old(silences)| && silences[..|old(silences)|] == old(silences)
      ensures forall i :: |old(silences)| <= i < |silences| ==>
                && silences[i] == Silence(silences[i].id, silences[i].comment, OPERATOR, true, endsAt)
                && (silences[i].comment == DefaultComment(v)
                    || (silences[i].comment == CriticalComment(v) && ignored != []))
      ensures !err ==> HasComment(silences, DefaultComment(v))
      ensures !err && ignored != [] ==> HasComment(silences, CriticalComment(v))
      ensures !err ==> (HasActiveComment(silences, DefaultComment(v)) <==>
                          || !HasComment(old(silences), DefaultComment(v))
                          || HasActiveComment(old(silences), DefaultComment(v)))
      ensures !err && ignored != [] ==> (HasActiveComment(silences, CriticalComment(v)) <==>
                                           || !HasComment(old(silences), CriticalComment(v))
                                           || HasActiveComment(old(silences), CriticalComment(v)))
      ensures faults >= old(faults) && (err ==> faults > old(faults))
    {
      var default, critical := DefaultComment(v), CriticalComment(v);
      var r := Exists(default);
      if r.None? {
        return true;
      }
      var defaultExists := r.value;
      r := Exists(critical);
      if r.None? {
        return true;
      }
      var criticalExists := r.value;
      if defaultExists && criticalExists {
        return false;
      }
      ghost var first := silences;
      err := Ensure(default, defaultExists, endsAt);
      OnlyThat(first, silences, default, critical, endsAt);
      if err {
        return;
      }
      if |ignored| > 0 {
        ghost var second := silences;
        err := Ensure(critical, criticalExists, endsAt);
        HasCommentKept(second, silences, default);
      }
    }

    lemma OnlyThat(s: seq<Silence>, s': seq<Silence>, comment: string, other: string, endsAt: Time)
      requires s' == s || Added(s, s', comment, endsAt)
      requires comment == DefaultComment(version) && other == CriticalComment(version)
      ensures HasComment(s', other) <==> HasComment(s, other)
    {
    }

    /** Replace the active worker silence by one for the remaining count, unless one for that count is
        listed: if it is, it stays as it is, active or not. A call for another version keeps what holds for this one
        unless its comment is seen under this one's. */
    method SetWorker(endsAt: Time, v: string, count: nat) returns (err: bool)
      requires Valid()
      modifies this
      ensures v == version || !Contains(FullComment(v, count), WorkerComment(version)) ==> Valid()
      ensures HasComment(old(silences), FullComment(v, count)) ==> silences == old(silences)
      // For this version, a new count leaves no silence for any other count active.
      ensures !err && v == version && !HasComment(old(silences), FullComment(v, count)) ==>
                forall n: nat :: HasActiveComment(silences, FullComment(v, n)) <==> n == count
      // At most one silence is ended, one of this version's worker silences, and at most one is added.
      ensures exists before :: && Retired(old(silences), before, WorkerComment(v))
                               && (silences == before || Added(before, silences, FullComment(v, count), endsAt))
      ensures !err && !HasComment(old(silences), FullComment(v, count)) ==>
                exists before :: && Retired(old(silences), before, WorkerComment(v))
                                 && (OneActive(old(silences), WorkerComment(v)) ==> !HasActive(before, WorkerComment(v)))
                                 && Added(before, silences, FullComment(v, count), endsAt)
      ensures !err ==> (HasActiveComment(silences, FullComment(v, count)) <==>
                          || !HasComment(old(silences), FullComment(v, count))
                          || HasActiveComment(old(silences), FullComment(v, count)))
      ensures faults >= old(faults) && (err ==> faults > old(faults))
    {
      hide FullComment, WorkerComment, DefaultComment, CriticalComment, Contains;
      var full := FullComment(v, count);
      assert Retired(silences, silences, WorkerComment(v));
      var r := Exists(full);
      if r.None? {
        return true;
      }
      if r.value {
        return false;
      }
      err := RetireWorker(WorkerComment(v));
      if err {
        return;
      }
      ghost var before := silences;
      err := Create(full, endsAt);
      if silences != before {
        WorkerSilenceAdded(before, v, count, endsAt);
        if v == version {
          OnlyThisCount(before, v, count, endsAt);
        }
      }
    }

    lemma OnlyThisCount(before: seq<Silence>, v: string, count: nat, endsAt: Time)
      requires Added(before, silences, FullComment(v, count), endsAt) && !HasActive(before, WorkerComment(v))
      ensures forall n: nat :: HasActiveComment(silences, FullComment(v, n)) <==> n == count
    {
      hide FullComment, WorkerComment, Contains;
      var x := silences[|before|];
      assert silences == before + [x];
      forall n: nat ensures HasActiveComment(silences, FullComment(v, n)) <==> n == count {
        FullCommentIsOwn(v, n, v, count);
        FullIsWorker(v, n);
        assert forall i :: 0 <= i < |before| ==> silences[i] == before[i] && !IsActive(before[i], WorkerComment(v));
      }
    }

    lemma WorkerSilenceAdded(before: seq<Silence>, v: string, count: nat, endsAt: Time)
      requires Sound(before, version) && Added(before, silences, FullComment(v, count), endsAt)
      requires v == version ==> !HasActive(before, WorkerComment(version))
      ensures v == version || !Contains(FullComment(v, count), WorkerComment(version)) ==> Valid()
      ensures HasActiveComment(silences, FullComment(v, count))
    {
      var x := silences[|before|];
      assert silences == before + [x];
      WorkerIsNoControlPlane(version, v, count);
      if v == version || !Contains(FullComment(v, count), WorkerComment(version)) {
        AddKeepsSound(before, x, version);
      }
    }

    /** End the first active silence whose comment contains the given one. */
    method RetireWorker(w: string) returns (err: bool)
      requires Valid()
      modifies this
      ensures Valid() && Retired(old(silences), silences, w)
      ensures !err && HasActive(old(silences), w) ==> silences != old(silences)
      ensures !err && OneActive(old(silences), w) ==> !HasActive(silences, w)
      ensures faults >= old(faults) && (err ==> faults > old(faults))
    {
      hide Contains;
      var list := Filter((x: Silence) => x.active && Contains(x.comment, w));
      if list.None? {
        return true;
      }
      if |list.value| > 0 {
        ghost var before := silences;
        ghost var x := list.value[0];
        assert x in list.value;
        ghost var k :| 0 <= k < |silences| && silences[k] == x;
        err := Delete(list.value[0].id);
        FewerKeepsSound(before, silences, version);
        OnlyOneEnded(before, silences, k);
        if OneActive(before, w) {
          RetiredAll(before, silences, w, k);
        }
      } else {
        err := false;
        assert forall i :: 0 <= i < |silences| ==> silences[i] in silences && silences[i] !in list.value;
      }
    }

    lemma OnlyOneEnded(s: seq<Silence>, s': seq<Silence>, k: nat)
      requires UniqueIds(s) && Fewer(s, s') && k < |s|
      requires forall i :: 0 <= i < |s| && s'[i].id != s[k].id ==> s'[i] == s[i]
      ensures s' == s || s' == s[k := s[k].(active := false)]
    {
      assert forall i :: 0 <= i < |s| && i != k ==> s'[i].id == s[i].id != s[k].id;
    }

    lemma RetiredAll(s: seq<Silence>, s': seq<Silence>, w: string, k: nat)
      requires OneActive(s, w) && Fewer(s, s') && k < |s| && IsActive(s[k], w)
      ensures !s'[k].active ==> !HasActive(s', w)
    {
    }

    /** End every active silence of the operator's whose comment contains the phrase. A failed request is
        remembered and the rest still tried. */
    method EndSilences(phrase: string) returns (err: bool)
      requires Valid()
      modifies this
      ensures Valid() && Fewer(old(silences), silences)
      ensures forall i :: 0 <= i < |silences| && !Contains(silences[i].comment, phrase) ==>
                silences[i] == old(silences)[i]
      ensures forall i :: 0 <= i < |silences| && silences[i].creator != OPERATOR ==> silences[i] == old(silences)[i]
      ensures !err ==> forall i :: 0 <= i < |silences| && silences[i].creator == OPERATOR ==>
                         !IsActive(silences[i], phrase)
      ensures faults >= old(faults) && (err ==> faults > old(faults))
    {
      var list := Filter((x: Silence) => x.creator == OPERATOR && x.active && Contains(x.comment, phrase));
      if list.None? {
        return true;
      }
      err := EndAll(list.value, phrase);
      FewerKeepsSound(old(silences), silences, version);
    }

    /** Ending the control plane silences leaves every worker silence as it is, whatever requests fail. */
    method EndControlPlane() returns (err: bool)
      requires Valid()
      modifies this
      ensures Valid() && Fewer(old(silences), silences)
      ensures forall i :: 0 <= i < |silences| && IsWorkerComment(silences[i].comment) ==>
                silences[i] == old(silences)[i]
      ensures !err ==> forall i :: 0 <= i < |silences| && silences[i].creator == OPERATOR ==>
                         !IsActive(silences[i], CONTROL_PLANE)
      ensures faults >= old(faults) && (err ==> faults > old(faults))
    {
      err := EndSilences(CONTROL_PLANE);
      forall i | 0 <= i < |silences| && IsWorkerComment(silences[i].comment)
        ensures silences[i] == old(silences)[i]
      {
        EndingLeavesOtherKind(silences[i].comment);
      }
    }

    /** Ending the worker silences leaves every control plane silence as it is, whatever requests fail. */
    method EndWorker() returns (err: bool)
      requires Valid()
      modifies this
      ensures Valid() && Fewer(old(silences), silences)
      ensures forall i :: 0 <= i < |silences| && IsControlPlaneComment(silences[i].comment) ==>
                silences[i] == old(silences)[i]
      ensures !err ==> forall i :: 0 <= i < |silences| && silences[i].creator == OPERATOR ==>
                         !IsActive(silences[i], WORKER)
      ensures faults >= old(faults) && (err ==> faults > old(faults))
    {
      err := EndSilences(WORKER);
      forall i | 0 <= i < |silences| && IsControlPlaneComment(silences[i].comment)
        ensures silences[i] == old(silences)[i]
      {
        EndingLeavesOtherKind(silences[i].comment);
      }
    }

    ghost predicate Ended(s: seq<Silence>, s': seq<Silence>, xs: seq<Silence>) {
      && Fewer(s, s')
      && forall i :: 0 <= i < |s| && s[i] !in xs ==> s'[i] == s[i]
    }

    method EndAll(xs: seq<Silence>, phrase: string) returns (err: bool)
      requires UniqueIds(silences)
      requires forall x :: x in xs <==>
                 x in silences && x.creator == OPERATOR && x.active && Contains(x.comment, phrase)
      modifies this
      ensures Ended(old(silences), silences, xs)
      ensures !err ==> forall i :: 0 <= i < |silences| && old(silences)[i] in xs ==> !silences[i].active
      ensures faults >= old(faults) && (err ==> faults > old(faults))
    {
      err := false;
      for k := 0 to |xs|
        invariant Ended(old(silences), silences, xs) && UniqueIds(silences)
        invariant faults >= old(faults) && (err ==> faults > old(faults))
        invariant !err ==> forall i :: 0 <= i < |silences| && old(silences)[i] in xs[..k] ==> !silences[i].active
      {
        assert xs[k] in xs && xs[..k + 1] == xs[..k] + [xs[k]];
        ghost var mid := silences;
        var failed := Delete(xs[k].id);
        EndedNext(old(silences), mid, silences, xs, xs[k]);
        if failed {
          err := true;
        }
      }
      assert xs[..|xs|] == xs;
    }

    lemma EndedNext(s: seq<Silence>, mid: seq<Silence>, s': seq<Silence>, xs: seq<Silence>, x: Silence)
      requires UniqueIds(s) && Ended(s, mid, xs) && Fewer(mid, s') && x in xs && x in s
      requires forall i :: 0 <= i < |mid| && mid[i].id != x.id ==> s'[i] == mid[i]
      ensures Ended(s, s', xs) && UniqueIds(s')
    {
    }

    method Exists(comment: string) returns (r: Option<bool>)
      modifies this`faults
      ensures r.Some? ==> (r.value <==> HasComment(silences, comment))
      ensures faults >= old(faults) && (r.None? ==> faults > old(faults))
    {
      var list := Filter((x: Silence) => x.comment == comment);
      if list.None? {
        return None;
      }
      r := Some(|list.value| > 0);
      if |list.value| > 0 {
        assert list.value[0] in list.value;
      } else {
        assert forall i :: 0 <= i < |silences| ==> silences[i] in silences && silences[i] !in list.value;
      }
    }
  }

  lemma HasCommentKept(s: seq<Silence>, s': seq<Silence>, comment: string)
    requires |s'| >= |s| && s'[..|s|] == s
    ensures HasComment(s, comment) ==> HasComment(s', comment)
  {
  }

  lemma WorkerIsNoControlPlane(version: string, other: string, count: nat)
    ensures FullComment(other, count) != DefaultComment(version)
    ensures FullComment(other, count) != CriticalComment(version)
  {
    Heads();
    assert FullComment(other, count)[16] == 'w' && DefaultComment(version)[16] == 'c';
    assert FullComment(other, count)[12] == 'O' && CriticalComment(version)[12] == 'c';
  }

  /** For versions without spaces, a worker silence of another version leaves at most one active under this one exactly
      if none is active yet or this version is not a prefix of the other. */
  lemma OtherVersionKeepsOneActiveIff(s: seq<Silence>, x: Silence, version: string, other: string, count: nat)
    requires OneActive(s, WorkerComment(version)) && x.active && x.comment == FullComment(other, count)
    requires ' ' !in version && ' ' !in other
    ensures OneActive(s + [x], WorkerComment(version)) <==> !HasActive(s, WorkerComment(version)) || !(version <= other)
  {
    hide FullComment, WorkerComment, Contains;
    SeenIffPrefix(version, other, count);
    var w := WorkerComment(version);
    if i :| 0 <= i < |s| && IsActive(s[i], w) {
      assert (s + [x])[i] == s[i] && (s + [x])[|s|] == x;
    }
  }

  /** The comment of a worker silence, and of a control plane one, for a version that does not spell out the phrase
      of the other kind. */
  ghost predicate IsWorkerComment(comment: string) {
    exists v, n: nat :: !Contains(v, CONTROL_PLANE) && comment == FullComment(v, n)
  }

  ghost predicate IsControlPlaneComment(comment: string) {
    exists v :: !Contains(v, WORKER) && (comment == DefaultComment(v) || comment == CriticalComment(v))
  }

  lemma EndingLeavesOtherKind(comment: string)
    ensures IsWorkerComment(comment) ==> !Contains(comment, CONTROL_PLANE)
    ensures IsControlPlaneComment(comment) ==> !Contains(comment, WORKER)
  {
    hide FullComment, DefaultComment, CriticalComment, Contains;
    if IsWorkerComment(comment) {
      var v, n: nat :| !Contains(v, CONTROL_PLANE) && comment == FullComment(v, n);
      KindsApartIff(v, n);
    }
    if IsControlPlaneComment(comment) {
      var v :| !Contains(v, WORKER) && (comment == DefaultComment(v) || comment == CriticalComment(v));
      KindsApartIff(v, 0);
    }
  }
}

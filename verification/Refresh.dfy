/** Keeping the UpgradeConfig on the cluster in step with the spec provider: delete, confirm, recreate. */
module Refresh {
  import opened Kube

  datatype Spec = Spec(
    version: string, channel: string, image: string, upgradeAt: string,
    pdbForceDrainTimeout: int, kind: string, capacityReservation: bool)

  /** The zero value a missing UpgradeConfig is compared as. */
  const ZERO := Spec("", "", "", "", 0, "", false)

  /** The UpgradeConfig object; `uid` tells a recreated object from the one before. */
  datatype Object = Object(spec: Spec, uid: nat, terminating: bool)

  function SpecOf(o: Option<Object>): Spec {
    if o.Some? then o.value.spec else ZERO
  }

  /** Whether a refresh has anything to do. */
  predicate Differs(o: Option<Object>, specs: seq<Spec>) {
    if specs == [] then o.Some? else SpecOf(o) != specs[0]
  }

  /** The cluster is in step with the provider. */
  predicate InStep(o: Option<Object>, specs: seq<Spec>) {
    if specs == [] then o.None? || o.value.terminating else o.Some? && o.value.spec == specs[0]
  }

  /** What deleting can make of the object: it is still there, on its way out, or gone. */
  predicate Remains(before: Option<Object>, after: Option<Object>) {
    after == before || after == None || (before.Some? && after == Some(before.value.(terminating := true)))
  }

  /** The object is there still, its deletion requested. */
  predicate StillHeld(before: Option<Object>, after: Option<Object>) {
    before.Some? && after == Some(before.value.(terminating := true))
  }

  /** After others acted too: nothing, the same object whatever was done to it, or one made since. */
  predicate Left(before: Option<Object>, after: Option<Object>, next: nat) {
    after.None? || (before.Some? && after.value.uid == before.value.uid) || after.value.uid >= next
  }

  class Manager {
    var stored: Option<Object>
    var nextUid: nat
    ghost var faults: nat   // requests that failed so far
    ghost var others: nat   // writes of other actors so far

    predicate Valid()
      reads this
    {
      stored.Some? ==> stored.value.uid < nextUid
    }

    constructor ()
      ensures Valid() && stored == None
    {
      stored, nextUid, faults, others := None, 0, 0, 0;
    }

    /** Between two calls of a refresh others may act, another refresh among them: they edit, delete, mark, create
        and recreate the object. */
    method Others()
      requires Valid()
      modifies this
      ensures Valid() && nextUid >= old(nextUid) && faults == old(faults) && others >= old(others)
      ensures others == old(others) ==> stored == old(stored) && nextUid == old(nextUid)
      ensures Left(old(stored), stored, old(nextUid))
    {
      var turns: nat := *;
      while turns > 0
        invariant Valid() && nextUid >= old(nextUid) && faults == old(faults) && others >= old(others)
        invariant others == old(others) ==> stored == old(stored) && nextUid == old(nextUid)
        invariant Left(old(stored), stored, old(nextUid))
      {
        turns := turns - 1;
        others := others + 1;
        var spec: Spec := *;
        var kind: nat := *;
        if stored.None? {
          stored, nextUid := Some(Object(spec, nextUid, false)), nextUid + 1;
        } else if kind == 0 {
          stored := Some(stored.value.(spec := spec));
        } else if kind == 1 {
          stored := Some(stored.value.(terminating := true));
        } else {
          stored := None;
        }
      }
    }

    method Get() returns (ok: bool, o: Option<Object>)
      modifies this`faults
      ensures ok ==> o == stored
      ensures faults >= old(faults) && (!ok ==> faults > old(faults))
    {
      ok := *;
      o := stored;
      if !ok {
        faults := faults + 1;
      }
    }

    /** Request deletion of whatever is stored: the object goes at once, or is marked and goes later. With nothing
        stored the request fails. */
    method Delete() returns (err: bool)
      requires Valid()
      modifies this
      ensures Valid() && nextUid == old(nextUid) && others == old(others) && Remains(old(stored), stored)
      ensures !err ==> stored.None? || stored.value.terminating
      ensures !err ==> old(stored).Some?
      ensures faults >= old(faults) && (err ==> faults > old(faults) || old(stored).None?)
    {
      if stored.None? {
        return true;
      }
      var f: Fault := *;
      var held: bool := *;
      if f.Lands() {
        stored := if held then Some(stored.value.(terminating := true)) else None;
      }
      err := !f.Succeeds();
      if err {
        faults := faults + 1;
      }
    }

    /** Wait until nothing is stored, for as many polls as the timeout allows. `goes` is the poll by which whatever holds a
        terminating object lets go of it. */
    method ConfirmDeleted(polls: nat, goes: nat) returns (err: bool)
      requires Valid()
      modifies this
      ensures Valid() && nextUid >= old(nextUid) && others >= old(others) && Left(old(stored), stored, old(nextUid))
      ensures others == old(others) ==> nextUid == old(nextUid) && (stored == old(stored) || stored == None)
      ensures others == old(others) && !(old(stored).Some? && old(stored).value.terminating) ==> stored == old(stored)
      ensures !err ==> stored.None?
      // With nobody else acting and no failed request, it fails exactly if the object does not go within the polls.
      ensures others == old(others) && faults == old(faults) && polls > 0 ==>
                && (err <==> old(stored).Some? && stored == old(stored))
                && (err <==> old(stored).Some? && !(old(stored).value.terminating && goes < polls))
      ensures faults >= old(faults) && (err ==> faults > old(faults) || stored.Some? || polls == 0)
    {
      for i := 0 to polls
        invariant if i > 0 then stored.Some? else stored == old(stored)
        invariant others == old(others) && i > goes && old(stored).Some? && old(stored).value.terminating ==> stored.None?
        invariant faults >= old(faults) && Valid() && nextUid >= old(nextUid) && others >= old(others)
        invariant others == old(others) ==> nextUid == old(nextUid) && (stored == old(stored) || stored == None)
        invariant others == old(others) && !(old(stored).Some? && old(stored).value.terminating) ==> stored == old(stored)
        invariant Left(old(stored), stored, old(nextUid))
      {
        Others();
        if stored.Some? && stored.value.terminating && i >= goes {
          stored := None;
        }
        var ok, o := Get();
        if !ok {
          return true;
        }
        if o.None? {
          return false;
        }
      }
      err := true;
    }

    method Create(spec: Spec) returns (err: bool, ghost landed: bool)
      requires Valid()
      modifies this
      ensures Valid() && others == old(others)
      ensures landed ==> old(stored).None? && stored == Some(Object(spec, old(nextUid), false))
      ensures !landed ==> err && stored == old(stored)
      ensures faults >= old(faults) && (err ==> faults > old(faults) || old(stored).Some?)
    {
      var f: Fault := *;
      landed := stored.None? && f.Lands();
      err := stored.Some? || !f.Succeeds();
      if stored.None? && f.Lands() {
        stored := Some(Object(spec, nextUid, false));
        nextUid := nextUid + 1;
      }
      if !f.Succeeds() {
        faults := faults + 1;
      }
    }

    /** Delete, confirm and create. Whatever others do meanwhile, the new object is created only into an empty store;
        failing that, nothing, the old object or somebody else's remains. */
    method RecreateOnChange(found: bool, spec: Spec, polls: nat, goes: nat) returns (err: bool, ghost landed: bool)
      requires Valid() && polls > 0
      modifies this
      ensures Valid() && others >= old(others)
      ensures landed ==> stored.Some? && stored.value == Object(spec, stored.value.uid, false)
                         && stored.value.uid >= old(nextUid)
      ensures !landed ==> err && Left(old(stored), stored, old(nextUid))
      ensures others == old(others) && (found <==> old(stored).Some?) ==>
                && (landed ==> stored.value.uid == old(nextUid))
                && (!landed ==> Remains(old(stored), stored))
      // With nobody else acting and no failed request, it fails exactly if the old object's deletion was requested and
      // something holds it still; otherwise the new object is there.
      ensures others == old(others) && faults == old(faults) && (found <==> old(stored).Some?) ==>
                (err <==> StillHeld(old(stored), stored)) && (landed <==> !err) && (goes < polls ==> !err)
      ensures faults >= old(faults)
      ensures err ==> faults > old(faults) || stored.Some? || others > old(others) || (found && old(stored).None?)
    {
      if found {
        // The request's own not-found error is not the manager's sentinel, so it counts as a failure too.
        err := Delete();
        if err {
          return true, false;
        }
        err := ConfirmDeleted(polls, goes);
        if err {
          return true, false;
        }
      }
      Others();
      err, landed := Create(spec);
    }

    /** One refresh; `provider` is None when the specs cannot be had. `lost` tells that the new object was
        created although its request reported an error. Others may act between any two of its calls. */
    method Sync(provider: Option<seq<Spec>>, polls: nat, goes: nat) returns (changed: bool, err: bool, ghost lost: bool)
      requires Valid() && polls > 0
      modifies this
      ensures Valid() && others >= old(others)
      // Success: the flag says whether there was a difference, and a changed cluster is in step.
      ensures !err ==> provider.Some? && !lost && (changed <==> Differs(old(stored), provider.value))
      ensures !err && changed ==> InStep(stored, provider.value)
      ensures !err && changed ==> stored != old(stored) || (old(stored).Some? && old(stored).value.terminating)
      // With nobody else acting and no failed request, it fails exactly if there are no specs to be had, or if the old
      // object was to be replaced and its deletion was requested but something holds it still; an object that goes in
      // time is always replaced.
      ensures others == old(others) && faults == old(faults) && goes < polls ==> (err <==> provider.None?)
      ensures others == old(others) && faults == old(faults) ==>
                (err <==> provider.None? || (provider.value != [] && Differs(old(stored), provider.value)
                                             && StillHeld(old(stored), stored)))
      // Failure: nothing, the old object or somebody else's is there; the new one only if its reply was lost.
      ensures err ==> !changed
      ensures err ==> provider.None? || faults > old(faults) || stored.Some? || others > old(others)
      ensures err && !lost ==> Left(old(stored), stored, old(nextUid))
      ensures lost ==>
                && provider.Some? && provider.value != []
                && stored.Some? && stored.value == Object(provider.value[0], stored.value.uid, false)
                && stored.value.uid >= old(nextUid)
      // With nobody else acting: an unchanged object is the old one, the cluster is in step save for a zero spec,
      // and what remains after a failure is the old object, on its way out, or nothing.
      ensures others == old(others) && !err && !changed ==> stored == old(stored)
      ensures others == old(others) && !err ==>
                (InStep(stored, provider.value) <==>
                 || provider.value == [] || provider.value[0] != ZERO || old(stored).Some?)
      ensures others == old(others) && err && !lost ==> Remains(old(stored), stored)
    {
      lost := false;
      var ok, current := Get();
      if !ok {
        return false, true, false;
      }
      Others();
      if provider.None? {
        return false, true, false;
      }
      var specs := provider.value;
      if |specs| == 0 {
        if current.Some? {
          err := Delete();
          return !err, err, false;
        }
        return false, false, false;
      }
      changed := specs[0] != SpecOf(current);
      if changed {
        ghost var landed;
        err, landed := RecreateOnChange(current.Some?, specs[0], polls, goes);
        if err {
          return false, true, landed;
        }
      }
      err := false;
    }
  }

  /** A cluster in step has nothing more to do, unless the last object is still on its way out. */
  lemma SecondRefreshIsIdle(o: Option<Object>, specs: seq<Spec>)
    requires InStep(o, specs) || (specs != [] && specs[0] == ZERO && o.None?)
    ensures Differs(o, specs) <==> specs == [] && o.Some?
  {
  }
}

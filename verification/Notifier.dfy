/** The notification protocol: operator states are written to an OCM upgrade policy through a lossy
    encoding, read back by a substring test, and guarded by the transitions the read-back state allows. */
module Notifier {
  import opened Kube
  import opened Substrings

  datatype MuoState =
    | Pending | Started | Completed | Delayed | Failed | Cancelled | Scheduled | ScaleSkipped | Skipped
    | HealthCheckSL | PreHealthCheckSL | ControlPlaneStartedSL | ControlPlaneFinishedSL | WorkerPlaneFinishedSL

  /** A policy state's value; Other is any text the operator has no name for. */
  datatype OcmState =
    | OcmPending | OcmStarted | OcmDelayed | OcmFailed | OcmCompleted | OcmCancelled | OcmScheduled
    | Other(text: string)

  datatype Policy = Policy(value: OcmState, description: string)

  const RETRY := "retry"

  function StateMap(s: MuoState): Option<OcmState> {
    match s
    case Pending => Some(OcmPending)
    case Cancelled => Some(OcmCancelled)
    case Started => Some(OcmStarted)
    case Completed => Some(OcmCompleted)
    case Delayed => Some(OcmDelayed)
    case Failed => Some(OcmFailed)
    case Scheduled => Some(OcmScheduled)
    case Skipped => Some(OcmDelayed)
    case ScaleSkipped => Some(OcmDelayed)
    case _ => None
  }

  /** The value sent for a state: a state missing from the map is sent as the empty text. */
  function Encoded(s: MuoState): OcmState {
    if StateMap(s).Some? then StateMap(s).value else Other("")
  }

  // ---- Reading a policy back ----------------------------------------------------------------------------------

  /** The map is walked in an arbitrary order. */
  ghost predicate IsOrder(order: seq<MuoState>) {
    forall s :: s in order <==> StateMap(s).Some?
  }

  function FirstMapped(os: OcmState, order: seq<MuoState>): Option<MuoState> {
    if order == [] then None
    else if StateMap(order[0]) == Some(os) then Some(order[0])
    else FirstMapped(os, order[1..])
  }

  method MapState(os: OcmState, order: seq<MuoState>) returns (r: Option<MuoState>)
    ensures r == FirstMapped(os, order)
  {
    for i := 0 to |order|
      invariant FirstMapped(os, order) == FirstMapped(os, order[i..])
    {
      if StateMap(order[i]) == Some(os) {
        return Some(order[i]);
      }
    }
    r := None;
  }

  /** The only state each value other than `delayed` stands for. */
  function Decoded(os: OcmState): Option<MuoState> {
    match os
    case OcmPending => Some(Pending)
    case OcmStarted => Some(Started)
    case OcmFailed => Some(Failed)
    case OcmCompleted => Some(Completed)
    case OcmCancelled => Some(Cancelled)
    case OcmScheduled => Some(Scheduled)
    case _ => None
  }

  lemma {:induction false} FirstMappedSound(os: OcmState, order: seq<MuoState>)
    ensures var r := FirstMapped(os, order);
            if r.Some? then r.value in order && StateMap(r.value) == Some(os)
            else forall s :: s in order ==> StateMap(s) != Some(os)
  {
    if order != [] {
      FirstMappedSound(os, order[1..]);
      assert order == [order[0]] + order[1..];
    }
  }

  lemma FirstMappedIsDecoded(os: OcmState, order: seq<MuoState>)
    requires IsOrder(order) && os != OcmDelayed
    ensures FirstMapped(os, order) == Decoded(os)
  {
    FirstMappedSound(os, order);
    if Decoded(os).Some? {
      assert Decoded(os).value in order;
    }
  }

  /** The walk's result does not depend on the order exactly when the value is not `delayed`, the one
      value the operator never looks up. */
  lemma OrderIrrelevantIff(os: OcmState)
    ensures (forall a, b :: IsOrder(a) && IsOrder(b) ==> FirstMapped(os, a) == FirstMapped(os, b))
            <==> os != OcmDelayed
  {
    if os != OcmDelayed {
      forall a, b | IsOrder(a) && IsOrder(b) ensures FirstMapped(os, a) == FirstMapped(os, b) {
        FirstMappedIsDecoded(os, a);
        FirstMappedIsDecoded(os, b);
      }
    } else {
      var rest := [Pending, Started, Completed, Failed, Cancelled, Scheduled, ScaleSkipped];
      var a, b := [Delayed, Skipped] + rest, [Skipped, Delayed] + rest;
      assert forall s :: StateMap(s).Some? <==> s == Delayed || s == Skipped || s in rest;
      assert IsOrder(a) && IsOrder(b);
      assert FirstMapped(os, a) == Some(Delayed) && FirstMapped(os, b) == Some(Skipped);
    }
  }

  function ReadBack(p: Policy): Option<MuoState> {
    if p.value == OcmDelayed then Some(if Contains(p.description, RETRY) then Delayed else Skipped)
    else Decoded(p.value)
  }

  /** A state survives being written and read back exactly if its text tells it apart: a delay's must
      mention a retry, a skip's must not, and a skipped scale-up is never recognised. */
  lemma ReadBackIff(s: MuoState, description: string)
    requires StateMap(s).Some?
    ensures ReadBack(Policy(Encoded(s), description)) == Some(s) <==>
            && s != ScaleSkipped
            && (s == Delayed ==> Contains(description, RETRY))
            && (s == Skipped ==> !Contains(description, RETRY))
  {
  }

  // ---- The guard ----------------------------------------------------------------------------------------------

  predicate ValidTransition(from: MuoState, to: MuoState) {
    match from
    case Scheduled => to == Started
    case Started => to in {ScaleSkipped, Delayed, Completed, Failed}
    case ScaleSkipped => to in {Delayed, Failed, Skipped, Completed}
    case Delayed => to in {Completed, Failed, Skipped}
    case Skipped => to in {Completed, Failed}
    case _ => false
  }

  predicate Allowed(p: Policy, to: MuoState) {
    ReadBack(p).Some? && ValidTransition(ReadBack(p).value, to)
  }

  /** The states reported to a policy, by the value and text it holds: a scheduled upgrade may be started, a started one may
      skip its scale-up, be delayed, complete or fail, a delayed one may complete or fail and, if its text mentions
      a retry, be skipped. Nothing is reported to a policy in any other state. */
  predicate Reportable(p: Policy, to: MuoState) {
    || (p.value == OcmScheduled && to == Started)
    || (p.value == OcmStarted && (to == ScaleSkipped || to == Delayed || to == Completed || to == Failed))
    || (p.value == OcmDelayed && (to == Completed || to == Failed))
    || (p.value == OcmDelayed && Contains(p.description, RETRY) && to == Skipped)
  }

  /** The guard on the read-back state lets exactly these through, and only a value without a name cannot be read. */
  lemma ReportableIff(p: Policy, to: MuoState)
    ensures Allowed(p, to) <==> Reportable(p, to)
    ensures ReadBack(p).None? <==> p.value.Other?
  {
  }

  class OcmNotifier {
    var policy: Policy
    ghost var writes: nat
    ghost var faults: nat   // requests that failed so far

    constructor (policy: Policy)
      ensures this.policy == policy && writes == 0
    {
      this.policy, writes, faults := policy, 0, 0;
    }

    /** Report a state. The cluster, the policy and its state are fetched, then the state is written if the
        guard allows it; any of these requests may fail. */
    method NotifyState(state: MuoState, description: string, order: seq<MuoState>) returns (err: bool)
      requires IsOrder(order)
      modifies this
      ensures writes == old(writes) || writes == old(writes) + 1
      ensures writes == old(writes) ==> policy == old(policy)
      ensures writes > old(writes) ==>
                Allowed(old(policy), state) && policy == Policy(Encoded(state), description)
      ensures policy == Reported(old(policy), Notice(state, description, writes > old(writes)))
      ensures !err ==> ReadBack(old(policy)).Some? && (Allowed(old(policy), state) <==> writes > old(writes))
      ensures err ==> faults > old(faults) || ReadBack(old(policy)).None?
      // In terms of the policy alone: what is written, and when, if no request fails.
      ensures writes > old(writes) ==> Reportable(old(policy), state)
      ensures faults >= old(faults)
      ensures faults == old(faults) ==>
                && (err <==> old(policy).value.Other?)
                && policy == if Reportable(old(policy), state) then Policy(Encoded(state), description) else old(policy)
    {
      ReportableIff(policy, state);
      var fetched: bool := *;
      if !fetched {
        faults := faults + 1;
        return true;
      }
      var current: Option<MuoState>;
      if policy.value == OcmDelayed {
        current := Some(if Contains(policy.description, RETRY) then Delayed else Skipped);
      } else {
        current := MapState(policy.value, order);
        FirstMappedIsDecoded(policy.value, order);
      }
      if current.None? {
        return true;
      }
      if !ValidTransition(current.value, state) {
        return false;
      }
      var f: Fault := *;
      if f.Lands() {
        policy := Policy(Encoded(state), description);
        writes := writes + 1;
      }
      if !f.Succeeds() {
        faults := faults + 1;
        return true;
      }
      err := false;
    }
  }

  // ---- Runs ---------------------------------------------------------------------------------------------------

  /** A notification, and whether the requests it makes get through. */
  datatype Notice = Notice(state: MuoState, description: string, lands: bool)

  predicate Writes(p: Policy, n: Notice) {
    n.lands && Allowed(p, n.state)
  }

  function Reported(p: Policy, n: Notice): Policy {
    if Writes(p, n) then Policy(Encoded(n.state), n.description) else p
  }

  function Final(p: Policy, ns: seq<Notice>): Policy
    decreases |ns|
  {
    if ns == [] then p else Final(Reported(p, ns[0]), ns[1..])
  }

  function Count(p: Policy, ns: seq<Notice>): nat
    decreases |ns|
  {
    if ns == [] then 0 else (if Writes(p, ns[0]) then 1 else 0) + Count(Reported(p, ns[0]), ns[1..])
  }

  /** How far along the protocol a policy is. */
  function Rank(p: Policy): (r: nat)
    ensures r <= 4
  {
    match ReadBack(p)
    case Some(Scheduled) => 0
    case Some(Started) => 1
    case Some(Delayed) => 2
    case Some(Skipped) => 3
    case _ => 4
  }

  /** A write raises the rank, save when a skip is reported with a text that mentions a retry. */
  lemma WriteRaisesRank(p: Policy, n: Notice)
    requires Writes(p, n)
    ensures StateMap(n.state).Some?
    ensures Rank(Reported(p, n)) > Rank(p) <==> !(n.state == Skipped && Contains(n.description, RETRY))
  {
  }

  ghost predicate SkipsLackRetry(ns: seq<Notice>) {
    forall i :: 0 <= i < |ns| && ns[i].state == Skipped ==> !Contains(ns[i].description, RETRY)
  }

  /** No run of notifications, failed or not, writes more often than its policy has ranks left. */
  lemma {:induction false} WritesAreBounded(p: Policy, ns: seq<Notice>)
    requires SkipsLackRetry(ns)
    ensures Count(p, ns) + Rank(p) <= Rank(Final(p, ns)) <= 4
    decreases |ns|
  {
    if ns != [] {
      if Writes(p, ns[0]) {
        WriteRaisesRank(p, ns[0]);
      }
      WritesAreBounded(Reported(p, ns[0]), ns[1..]);
    }
  }

  /** Whatever the texts say, a completed or failed policy is never left. */
  lemma {:induction false} TerminalIsKept(p: Policy, ns: seq<Notice>)
    requires p.value == OcmCompleted || p.value == OcmFailed
    ensures Final(p, ns) == p && Count(p, ns) == 0
  {
    if ns != [] {
      TerminalIsKept(p, ns[1..]);
    }
  }

  predicate Ends(n: Notice) {
    n.lands && (n.state == Completed || n.state == Failed)
  }

  predicate UnderWay(p: Policy) {
    p.value == OcmStarted || p.value == OcmDelayed
  }

  predicate EndsAt(ns: seq<Notice>, k: nat) {
    k < |ns| && Ends(ns[k]) && forall j :: 0 <= j < k ==> !Ends(ns[j])
  }

  /** One notice to an upgrade that is under way: completion and failure always get through, and nothing else ends it. */
  lemma NoticeUnderWay(p: Policy, n: Notice)
    requires UnderWay(p)
    ensures if Ends(n) then Reported(p, n) == Policy(if n.state == Completed then OcmCompleted else OcmFailed, n.description)
            else UnderWay(Reported(p, n))
  {
  }

  /** From a started or delayed upgrade, whatever else is reported, failed or not: the first completion or failure whose
      requests get through is the policy's value at the end of the run, and without one the upgrade stays under
      way. */
  lemma {:induction false} FirstEndIsFinal(p: Policy, ns: seq<Notice>)
    requires UnderWay(p)
    ensures forall k: nat :: EndsAt(ns, k) ==>
              Final(p, ns) == Policy(if ns[k].state == Completed then OcmCompleted else OcmFailed, ns[k].description)
    ensures (forall k :: 0 <= k < |ns| ==> !Ends(ns[k])) ==> UnderWay(Final(p, ns))
    decreases |ns|
  {
    hide Reported, Ends;
    if ns != [] {
      NoticeUnderWay(p, ns[0]);
      if Ends(ns[0]) {
        TerminalIsKept(Reported(p, ns[0]), ns[1..]);
      } else {
        FirstEndIsFinal(Reported(p, ns[0]), ns[1..]);
        forall k: nat | EndsAt(ns, k)
          ensures Final(p, ns) == Policy(if ns[k].state == Completed then OcmCompleted else OcmFailed, ns[k].description)
        {
          assert EndsAt(ns[1..], k - 1);
        }
      }
    }
  }

  lemma {:induction false} NeverScheduledAgain(p: Policy, ns: seq<Notice>)
    requires UnderWay(p)
    ensures Final(p, ns).value != OcmScheduled
    decreases |ns|
  {
    hide Reported, Ends;
    if ns != [] {
      NoticeUnderWay(p, ns[0]);
      if Ends(ns[0]) {
        TerminalIsKept(Reported(p, ns[0]), ns[1..]);
      } else {
        NeverScheduledAgain(Reported(p, ns[0]), ns[1..]);
      }
    }
  }

  predicate Starts(n: Notice) {
    n.lands && n.state == Started
  }

  /** A scheduled upgrade is as it was exactly until a start gets through. */
  lemma {:induction false} ScheduledUntilStarted(p: Policy, ns: seq<Notice>)
    requires p.value == OcmScheduled
    ensures Final(p, ns).value == OcmScheduled <==> forall i :: 0 <= i < |ns| ==> !Starts(ns[i])
    ensures Final(p, ns).value == OcmScheduled ==> Final(p, ns) == p
    decreases |ns|
  {
    if ns != [] {
      if Starts(ns[0]) {
        NeverScheduledAgain(Reported(p, ns[0]), ns[1..]);
      } else {
        ScheduledUntilStarted(p, ns[1..]);
        assert forall i :: 0 < i < |ns| ==> ns[i] == ns[1..][i - 1];
      }
    }
  }

  /** With one text for all skips, four writes are the most any run makes exactly when the text does not
      mention a retry; otherwise skips are written again and again. */
  lemma AtMostFourIff(text: string)
    ensures (forall p, ns :: SkipsSay(ns, text) ==> Count(p, ns) <= 4) <==> !Contains(text, RETRY)
  {
    if !Contains(text, RETRY) {
      forall p, ns | SkipsSay(ns, text) ensures Count(p, ns) <= 4 {
        WritesAreBounded(p, ns);
      }
    } else {
      var ns := seq(5, i => Notice(Skipped, text, true));
      SkipsRepeat(text, ns);
      assert SkipsSay(ns, text) && Count(Policy(OcmDelayed, text), ns) == 5;
    }
  }

  ghost predicate SkipsSay(ns: seq<Notice>, text: string) {
    forall i :: 0 <= i < |ns| && ns[i].state == Skipped ==> ns[i].description == text
  }

  lemma {:induction false} SkipsRepeat(text: string, ns: seq<Notice>)
    requires Contains(text, RETRY) && forall i :: 0 <= i < |ns| ==> ns[i] == Notice(Skipped, text, true)
    ensures Count(Policy(OcmDelayed, text), ns) == |ns|
  {
    if ns != [] {
      SkipsRepeat(text, ns[1..]);
    }
  }

  lemma CountNext(p: Policy, n: Notice, ns: seq<Notice>)
    requires Writes(p, n)
    ensures Count(p, [n] + ns) == 1 + Count(Reported(p, n), ns)
  {
  }

  /** Four writes do occur. */
  lemma FourWritesOccur(p: Policy)
    requires p.value == OcmScheduled
    ensures exists ns :: SkipsLackRetry(ns) && Count(p, ns) == 4
  {
    assert ContainsAt(RETRY, RETRY, 0);
    assert !Contains("", RETRY);
    var n1, n2, n3, n4 :=
      Notice(Started, "", true), Notice(Delayed, RETRY, true), Notice(Skipped, "", true), Notice(Completed, "", true);
    CountNext(Policy(OcmDelayed, ""), n4, []);
    CountNext(Policy(OcmDelayed, RETRY), n3, [n4]);
    CountNext(Policy(OcmStarted, ""), n2, [n3] + [n4]);
    CountNext(p, n1, [n2] + ([n3] + [n4]));
    var ns := [n1] + ([n2] + ([n3] + [n4]));
    assert [n4] + [] == [n4];
    assert SkipsLackRetry(ns) && Count(p, ns) == 4;
  }
}

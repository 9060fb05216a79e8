/** The status of an UpgradeConfig: its history entries and their keyed condition lists. */
module UpgradeStatus {
  import opened Kube

  datatype Status = IsTrue | IsFalse | IsUnknown

  datatype Condition = Condition(
    ctype: string, status: Status, lastProbe: Option<Time>, lastTransition: Option<Time>,
    start: Option<Time>, complete: Option<Time>, reason: string, message: string)

  datatype Phase = New | Pending | Upgrading | Upgraded | Failed

  datatype History = History(
    version: string, preceding: string, phase: Phase, conditions: seq<Condition>,
    start: Option<Time>, complete: Option<Time>, workerStart: Option<Time>, workerComplete: Option<Time>)

  /** Position of the first condition of type `t`, or the length of the list if there is none. */
  function Find(cs: seq<Condition>, t: string): (i: nat)
    ensures i <= |cs|
    ensures i < |cs| ==> cs[i].ctype == t
    ensures forall j :: 0 <= j < i ==> cs[j].ctype != t
  {
    if cs == [] || cs[0].ctype == t then 0 else 1 + Find(cs[1..], t)
  }

  function GetCondition(cs: seq<Condition>, t: string): Option<Condition> {
    var i := Find(cs, t);
    if i < |cs| then Some(cs[i]) else None
  }

  /** SetCondition at instant `now`: replace in place, or prepend. */
  function SetCondition(cs: seq<Condition>, c: Condition, now: Time): seq<Condition> {
    var c' := c.(lastTransition := Some(now), lastProbe := Some(now));
    var i := Find(cs, c.ctype);
    if i == |cs| then [c'] + cs
    else if cs[i].status == c.status then cs[i := c'.(lastTransition := cs[i].lastTransition)]
    else cs[i := c']
  }

  function Types(cs: seq<Condition>): (ts: seq<string>)
    ensures |ts| == |cs|
    ensures forall i :: 0 <= i < |cs| ==> ts[i] == cs[i].ctype
  {
    if cs == [] then [] else [cs[0].ctype] + Types(cs[1..])
  }

  /** A set writes one key: the list of types gains it at the front exactly when it was missing,
      the entry under it carries the new content, and every other entry is left alone. */
  lemma SetConditionIsKeyed(cs: seq<Condition>, c: Condition, now: Time)
    ensures var cs' := SetCondition(cs, c, now);
            var old' := GetCondition(cs, c.ctype);
            && Types(cs') == (if old'.Some? then Types(cs) else [c.ctype] + Types(cs))
            && GetCondition(cs', c.ctype) == Some(c.(lastProbe := Some(now), lastTransition :=
                 if old'.Some? && old'.value.status == c.status then old'.value.lastTransition else Some(now)))
            && (forall t :: t != c.ctype ==> GetCondition(cs', t) == GetCondition(cs, t))
            && (Distinct(Types(cs)) ==> Distinct(Types(cs')))
  {
    var cs' := SetCondition(cs, c, now);
    var i := Find(cs, c.ctype);
    if i == |cs| {
      assert cs'[1..] == cs;
    } else {
      assert Types(cs') == Types(cs);
      forall t | t != c.ctype ensures GetCondition(cs', t) == GetCondition(cs, t) {
        FindUnique(cs', t, Find(cs, t));
      }
      FindUnique(cs', c.ctype, i);
    }
  }

  /** The reading of one key after a set. */
  lemma SetConditionAt(cs: seq<Condition>, c: Condition, now: Time, t: string)
    ensures var was := GetCondition(cs, t);
            GetCondition(SetCondition(cs, c, now), t) ==
            if t != c.ctype then was
            else Some(c.(lastProbe := Some(now), lastTransition :=
                   if was.Some? && was.value.status == c.status then was.value.lastTransition else Some(now)))
  {
    SetConditionIsKeyed(cs, c, now);
  }

  lemma FindUnique(cs: seq<Condition>, t: string, i: nat)
    requires i <= |cs| && (forall j :: 0 <= j < i ==> cs[j].ctype != t)
    requires i < |cs| ==> cs[i].ctype == t
    ensures Find(cs, t) == i
  {
  }

  /** Position of the first entry for `version`, or the length of the list if there is none. */
  function FindHistory(hs: seq<History>, version: string): (i: nat)
    ensures i <= |hs|
    ensures i < |hs| ==> hs[i].version == version
    ensures forall j :: 0 <= j < i ==> hs[j].version != version
  {
    if hs == [] || hs[0].version == version then 0 else 1 + FindHistory(hs[1..], version)
  }

  function GetHistory(hs: seq<History>, version: string): Option<History> {
    var i := FindHistory(hs, version);
    if i < |hs| then Some(hs[i]) else None
  }

  function SetHistory(hs: seq<History>, h: History): seq<History> {
    var i := FindHistory(hs, h.version);
    if i < |hs| then hs[i := h] else [h] + hs
  }

  predicate UniqueVersions(hs: seq<History>) {
    forall i, j :: 0 <= i < j < |hs| ==> hs[i].version != hs[j].version
  }

  /** Writing back an entry stores it under its version, keeps versions unique and leaves every
      other version's entry alone. */
  lemma SetHistoryIsKeyed(hs: seq<History>, h: History)
    ensures var hs' := SetHistory(hs, h);
            && GetHistory(hs', h.version) == Some(h)
            && (forall v :: v != h.version ==> GetHistory(hs', v) == GetHistory(hs, v))
            && (UniqueVersions(hs) ==> UniqueVersions(hs'))
  {
    var hs' := SetHistory(hs, h);
    var i := FindHistory(hs, h.version);
    if i < |hs| {
      HistoryUnique(hs', h.version, i);
      forall v | v != h.version ensures GetHistory(hs', v) == GetHistory(hs, v) {
        HistoryUnique(hs', v, FindHistory(hs, v));
      }
    } else {
      assert hs'[1..] == hs;
    }
  }

  lemma HistoryUnique(hs: seq<History>, version: string, i: nat)
    requires i <= |hs| && (forall j :: 0 <= j < i ==> hs[j].version != version)
    requires i < |hs| ==> hs[i].version == version
    ensures FindHistory(hs, version) == i
  {
  }
}

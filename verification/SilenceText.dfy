/** The comments that identify the operator's silences, and which of them contain which others. */
module SilenceText {
  import opened Substrings

  const CONTROL_PLANE := "OSD control plane"
  const WORKER := "OSD worker node"

  const SILENCE := "Silence for "
  const CRITICAL := "critical alerts during "
  const UPGRADE := " upgrade to version "

  const DEFAULT_HEAD := SILENCE + CONTROL_PLANE + UPGRADE
  const CRITICAL_HEAD := SILENCE + CRITICAL + CONTROL_PLANE + UPGRADE
  const WORKER_HEAD := SILENCE + WORKER + UPGRADE

  function DefaultComment(version: string): string {
    DEFAULT_HEAD + version
  }

  function CriticalComment(version: string): string {
    CRITICAL_HEAD + version
  }

  function WorkerComment(version: string): string {
    WORKER_HEAD + version
  }

  function Digits(n: nat): (s: string)
    ensures |s| > 0 && forall c :: c in s ==> '0' <= c <= '9'
  {
    if n < 10 then ['0' + n as char] else Digits(n / 10) + ['0' + (n % 10) as char]
  }

  const WITH := " with remaining"
  const NODES := " nodes"

  function Remaining(count: nat): string {
    WITH + [' '] + Digits(count) + NODES
  }

  function FullComment(version: string, count: nat): string {
    WorkerComment(version) + Remaining(count)
  }

  // ---- The comments of one version are told apart ---------------------------------------------------------------

  lemma FullIsWorker(version: string, count: nat)
    ensures Contains(FullComment(version, count), WorkerComment(version))
  {
    var w := WorkerComment(version);
    assert FullComment(version, count)[0..|w|] == w;
    assert ContainsAt(FullComment(version, count), w, 0);
  }

  lemma DigitIsOwn(a: nat, b: nat)
    requires a < 10 && b < 10 && '0' + a as char == '0' + b as char
    ensures a == b
  {
    assert ('0' + a as char) as int == 48 + a && ('0' + b as char) as int == 48 + b;
  }

  lemma {:induction false} DigitsAreOwn(m: nat, n: nat)
    requires Digits(m) == Digits(n)
    ensures m == n
  {
    var s, t := Digits(m), Digits(n);
    if m < 10 {
      assert |t| == 1;
      DigitIsOwn(m, n);
    } else {
      assert |s| >= 2 && n >= 10;
      assert s[|s| - 1] == t[|t| - 1];
      DigitIsOwn(m % 10, n % 10);
      assert s[..|s| - 1] == Digits(m / 10) && t[..|t| - 1] == Digits(n / 10);
      DigitsAreOwn(m / 10, n / 10);
    }
  }

  lemma SpaceNotBefore(a: string, s: string, b: string, t: string)
    requires a + [' '] + s == b + [' '] + t && forall c :: c in s ==> '0' <= c <= '9'
    ensures |b| <= |a|
  {
    var x := a + [' '] + s;
    assert x[|b|] == (b + [' '] + t)[|b|] == ' ';
    assert forall i :: |a| < i < |x| ==> x[i] == s[i - |a| - 1] && x[i] in s;
  }

  /** Digits behind a space can be cut off in one way only. */
  lemma CutOffDigits(a: string, s: string, b: string, t: string)
    requires a + [' '] + s == b + [' '] + t
    requires (forall c :: c in s ==> '0' <= c <= '9') && (forall c :: c in t ==> '0' <= c <= '9')
    ensures a == b && s == t
  {
    SpaceNotBefore(a, s, b, t);
    SpaceNotBefore(b, t, a, s);
    var x, y := a + [' '] + s, b + [' '] + t;
    assert a == x[..|a|] && b == y[..|b|] && s == x[|a| + 1..] && t == y[|b| + 1..];
  }

  lemma SameEndCancels(x: string, y: string, end: string)
    requires x + end == y + end
    ensures x == y
  {
    assert x == (x + end)[..|x|] && y == (y + end)[..|y|];
  }

  lemma SameStartCancels(start: string, x: string, y: string)
    requires start + x == start + y
    ensures x == y
  {
    assert x == (start + x)[|start|..] && y == (start + y)[|start|..];
  }

  lemma FullCommentParts(version: string, count: nat)
    ensures FullComment(version, count) == (WORKER_HEAD + version + WITH + [' '] + Digits(count)) + NODES
  {
    hide WORKER_HEAD, WITH, NODES, Digits;
  }

  /** A worker silence's comment belongs to one version and one count of remaining nodes only. */
  lemma FullCommentIsOwn(version: string, m: nat, other: string, n: nat)
    ensures FullComment(version, m) == FullComment(other, n) <==> version == other && m == n
  {
    hide FullComment, WORKER_HEAD, WITH, NODES, Digits;
    FullCommentParts(version, m);
    FullCommentParts(other, n);
    if FullComment(version, m) == FullComment(other, n) {
      var a, b := WORKER_HEAD + version, WORKER_HEAD + other;
      SameEndCancels(a + WITH + [' '] + Digits(m), b + WITH + [' '] + Digits(n), NODES);
      CutOffDigits(a + WITH, Digits(m), b + WITH, Digits(n));
      SameEndCancels(a, b, WITH);
      SameStartCancels(WORKER_HEAD, version, other);
      DigitsAreOwn(m, n);
    }
  }

  /** The first letters of the heads, as far as they tell the comments apart. */
  lemma Heads()
    ensures |DEFAULT_HEAD| == |WORKER_HEAD| + 2 && |CRITICAL_HEAD| == |WORKER_HEAD| + 25 && |WORKER_HEAD| == 47
    ensures WORKER_HEAD[0] == 'S' && WORKER_HEAD[12] == 'O' && WORKER_HEAD[16] == 'w'
    ensures DEFAULT_HEAD[12] == 'O' && DEFAULT_HEAD[16] == 'c' && CRITICAL_HEAD[12] == 'c'
    ensures forall i :: 0 < i < 12 ==> DEFAULT_HEAD[i] != 'S'
    ensures forall i :: 0 < i < 35 ==> CRITICAL_HEAD[i] != 'S'
  {
  }

  /** A worker comment would have to start where a control plane comment has its only S. */
  lemma NotWorker(head: string, version: string, k: nat)
    requires |head| >= |WORKER_HEAD| > k && head[k] != WORKER_HEAD[k]
    requires forall i :: 0 < i <= |head| - |WORKER_HEAD| ==> head[i] != WORKER_HEAD[0]
    ensures !Contains(head + version, WorkerComment(version))
  {
    var c, w := head + version, WorkerComment(version);
    forall i ensures !ContainsAt(c, w, i) {
      if 0 <= i && i + |w| <= |c| {
        Mismatch(c, w, i, if i == 0 then k else 0);
      }
    }
  }

  /** The four comments of a version differ, and of them only the worker's contain the worker's. */
  lemma CommentsApart(version: string, count: nat)
    ensures !Contains(DefaultComment(version), WorkerComment(version))
    ensures !Contains(CriticalComment(version), WorkerComment(version))
    ensures Contains(FullComment(version, count), WorkerComment(version))
    ensures DefaultComment(version) != CriticalComment(version)
  {
    Heads();
    NotWorker(DEFAULT_HEAD, version, 16);
    NotWorker(CRITICAL_HEAD, version, 12);
    FullIsWorker(version, count);
    assert DefaultComment(version)[12] == 'O' && CriticalComment(version)[12] == 'c';
  }

  // ---- Which comments contain the phrase of the other kind ---------------------------------------------------------------

  /** No space of the phrase stands after an n, nor at its ends. */
  predicate IsPhrase(phrase: string) {
    && |phrase| > 0 && phrase[0] != ' ' && phrase[|phrase| - 1] != ' '
    && forall k :: 0 < k < |phrase| && phrase[k] == ' ' ==> phrase[k - 1] != 'n'
  }

  /** The head ends in "n "; the tail is empty, or starts with " w" as nothing in the phrase does. */
  predicate Frames(head: string, tail: string, phrase: string) {
    && |head| >= 2 && head[|head| - 1] == ' ' && head[|head| - 2] == 'n'
    && (tail == "" || (
          && |tail| >= 2 && tail[0] == ' ' && tail[1] == 'w'
          && forall k :: 0 <= k < |phrase| - 1 && phrase[k] == ' ' ==> phrase[k + 1] != 'w'))
  }

  /** A match that is not in the version alone would be in the head or the tail alone. */
  lemma NoMatchAtEdge(head: string, version: string, tail: string, phrase: string, i: int)
    requires IsPhrase(phrase) && Frames(head, tail, phrase) && 0 <= i && i + |phrase| <= |head + version + tail|
    requires i < |head| < i + |phrase| || (|head| <= i && i < |head + version| < i + |phrase|)
    ensures !ContainsAt(head + version + tail, phrase, i)
  {
    var s := head + version + tail;
    if i < |head| {
      var k := |head| - 1 - i;
      assert s[i + k] == ' ';
      if phrase[k] != ' ' {
        Mismatch(s, phrase, i, k);
      } else {
        assert s[i + k - 1] == 'n';
        Mismatch(s, phrase, i, k - 1);
      }
    } else {
      var k := |head + version| - i;
      assert s[i + k] == tail[0];
      if phrase[k] != ' ' {
        Mismatch(s, phrase, i, k);
      } else {
        assert s[i + k + 1] == tail[1];
        Mismatch(s, phrase, i, k + 1);
      }
    }
  }

  lemma MatchInPart(a: string, b: string, c: string, phrase: string, i: int)
    requires |a| <= i && i + |phrase| <= |a + b|
    ensures ContainsAt(a + b + c, phrase, i) <==> ContainsAt(b, phrase, i - |a|)
  {
    assert (a + b + c)[i..i + |phrase|] == b[i - |a|..i - |a| + |phrase|];
  }

  lemma ContainedInVersionIff(head: string, version: string, tail: string, phrase: string)
    requires IsPhrase(phrase) && Frames(head, tail, phrase) && !Contains(head, phrase) && !Contains(tail, phrase)
    ensures Contains(head + version + tail, phrase) <==> Contains(version, phrase)
  {
    var s, v := head + version + tail, |head + version|;
    if Contains(version, phrase) {
      ContainedIn(head, version, tail, phrase);
    }
    forall i | 0 <= i && i + |phrase| <= |s| ensures ContainsAt(s, phrase, i) ==> Contains(version, phrase) {
      if i + |phrase| <= |head| {
        MatchInPart("", head, version + tail, phrase, i);
        assert "" + head + (version + tail) == s;
      } else if i >= v {
        MatchInPart(head + version, tail, "", phrase, i);
        assert head + version + tail + "" == s;
      } else if |head| <= i && i + |phrase| <= v {
        MatchInPart(head, version, tail, phrase, i);
      } else {
        NoMatchAtEdge(head, version, tail, phrase, i);
      }
    }
  }

  predicate NoTr(s: string) {
    forall i :: 0 <= i < |s| - 1 && s[i] == 't' ==> s[i + 1] != 'r'
  }

  lemma NoTrAppend(a: string, b: string)
    requires a != "" && NoTr(a) && a[|a| - 1] != 't' && 't' !in b
    ensures NoTr(a + b)
  {
    forall i | 0 <= i < |a + b| - 1 ensures (a + b)[i] == 't' ==> (a + b)[i + 1] != 'r' {
      if i >= |a| {
        assert (a + b)[i] == b[i - |a|];
      }
    }
  }

  lemma Phrases()
    ensures IsPhrase(CONTROL_PLANE) && IsPhrase(WORKER)
    ensures forall k :: 0 <= k < |CONTROL_PLANE| - 1 && CONTROL_PLANE[k] == ' ' ==> CONTROL_PLANE[k + 1] != 'w'
    ensures |CONTROL_PLANE| == 17 && CONTROL_PLANE[7] == 't' && CONTROL_PLANE[8] == 'r'
    ensures |WORKER| == 15 && WORKER[4] == 'w'
  {
  }

  lemma LacksControlPlane(s: string)
    requires NoTr(s)
    ensures !Contains(s, CONTROL_PLANE)
  {
    hide CONTROL_PLANE;
    Phrases();
    forall i ensures !ContainsAt(s, CONTROL_PLANE, i) {
      if 0 <= i && i + |CONTROL_PLANE| <= |s| {
        Mismatch(s, CONTROL_PLANE, i, if s[i + 7] == 't' then 8 else 7);
      }
    }
  }

  lemma LacksWorker(s: string)
    requires 'w' !in s
    ensures !Contains(s, WORKER)
  {
    hide WORKER;
    Phrases();
    forall i ensures !ContainsAt(s, WORKER, i) {
      if 0 <= i && i + |WORKER| <= |s| {
        Mismatch(s, WORKER, i, 4);
      }
    }
  }

  lemma RemainingText(count: nat)
    ensures NoTr(Remaining(count)) && |Remaining(count)| > 2
    ensures Remaining(count)[0] == ' ' && Remaining(count)[1] == 'w'
  {
    var a, b := " with remaining ", " nodes";
    assert 't' !in b && 't' !in Digits(count) && a[3] == 't' && a[4] == 'h';
    NoTrAppend(a, Digits(count) + b);
    assert Remaining(count) == a + (Digits(count) + b);
  }

  lemma WorkerHeadNoTr()
    ensures NoTr(WORKER_HEAD)
  {
    assert 't' !in SILENCE && 't' !in WORKER;
    NoTrAppend(SILENCE, WORKER);
    assert UPGRADE[9] == 't' && UPGRADE[10] == 'o';
    forall i | 0 <= i < |WORKER_HEAD| - 1 ensures WORKER_HEAD[i] == 't' ==> WORKER_HEAD[i + 1] != 'r' {
      if i >= 27 {
        assert WORKER_HEAD[i] == UPGRADE[i - 27] && WORKER_HEAD[i + 1] == UPGRADE[i - 26];
      }
    }
  }

  lemma HeadEnds()
    ensures 'w' !in DEFAULT_HEAD && 'w' !in CRITICAL_HEAD
    ensures Frames(WORKER_HEAD, "", CONTROL_PLANE) && Frames(DEFAULT_HEAD, "", WORKER) && Frames(CRITICAL_HEAD, "", WORKER)
  {
    assert 'w' !in SILENCE && 'w' !in CONTROL_PLANE && 'w' !in UPGRADE && 'w' !in CRITICAL;
    assert UPGRADE[18] == 'n' && UPGRADE[19] == ' ';
  }

  /** A comment of one kind contains the phrase of the other exactly if the version does: ending the silences of one
      kind leaves those of the other for every version that does not spell the phrase out. */
  lemma KindsApartIff(version: string, count: nat)
    ensures Contains(FullComment(version, count), CONTROL_PLANE) <==> Contains(version, CONTROL_PLANE)
    ensures Contains(DefaultComment(version), WORKER) <==> Contains(version, WORKER)
    ensures Contains(CriticalComment(version), WORKER) <==> Contains(version, WORKER)
  {
    hide WORKER_HEAD, DEFAULT_HEAD, CRITICAL_HEAD, WORKER, CONTROL_PLANE, Remaining, NoTr;
    HeadEnds();
    WorkerHeadNoTr();
    RemainingText(count);
    Phrases();
    LacksControlPlane(WORKER_HEAD);
    LacksControlPlane(Remaining(count));
    LacksWorker(DEFAULT_HEAD);
    LacksWorker(CRITICAL_HEAD);
    LacksWorker("");
    ContainedInVersionIff(WORKER_HEAD, version, Remaining(count), CONTROL_PLANE);
    ContainedInVersionIff(DEFAULT_HEAD, version, "", WORKER);
    ContainedInVersionIff(CRITICAL_HEAD, version, "", WORKER);
    assert DEFAULT_HEAD + version + "" == DefaultComment(version);
    assert CRITICAL_HEAD + version + "" == CriticalComment(version);
  }

  // ---- Which versions' worker silences another version sees -------------------------------------------------------------

  lemma WorkerHeadText()
    ensures |WORKER_HEAD| == 47 && WORKER_HEAD[0] == 'S' && WORKER_HEAD[1] == 'i' && WORKER_HEAD[7] == ' '
    ensures WORKER_HEAD[8] == 'f' && WORKER_HEAD[14] == 'D'
    ensures forall i :: 0 < i < 47 && i != 13 ==> WORKER_HEAD[i] != 'S'
  {
    assert |SILENCE| == 12 && |WORKER| == 15 && |UPGRADE| == 20 && 'S' !in UPGRADE;
    assert SILENCE[0] == 'S' && SILENCE[1] == 'i' && SILENCE[7] == ' ' && SILENCE[8] == 'f' && WORKER[2] == 'D';
    forall i | 0 < i < 47 && i != 13 ensures WORKER_HEAD[i] != 'S' {
      if i >= 27 {
        assert WORKER_HEAD[i] == UPGRADE[i - 27];
      }
    }
  }

  lemma RemainingNoF(count: nat)
    ensures 'f' !in Remaining(count)
  {
    assert 'f' !in " with remaining " && 'f' !in " nodes" && 'f' !in Digits(count);
  }

  /** A worker's comment would have to start where the other one does. */
  lemma StartsOnly(version: string, other: string, count: nat, i: int)
    requires ' ' !in other && i != 0
    ensures !ContainsAt(FullComment(other, count), WorkerComment(version), i)
  {
    hide WORKER_HEAD, Remaining;
    WorkerHeadText();
    RemainingNoF(count);
    var s, w := FullComment(other, count), WorkerComment(version);
    if 0 < i && i + |w| <= |s| {
      if i == 13 {
        Mismatch(s, w, i, 1);
      } else if i < 47 {
        Mismatch(s, w, i, 0);
      } else {
        assert i + 7 < 47 + |other| ==> s[i + 7] == other[i + 7 - 47];
        assert i + 8 >= 47 + |other| ==> s[i + 8] == Remaining(count)[i + 8 - 47 - |other|];
        Mismatch(s, w, i, if s[i + 7] != ' ' then 7 else 8);
      }
    }
  }

  /** For versions without spaces, the comments of another version are seen under this one's exactly if this one is a
      prefix of it, as 4.12.1 is of 4.12.10. */
  lemma SeenIffPrefix(version: string, other: string, count: nat)
    requires ' ' !in version && ' ' !in other
    ensures Contains(FullComment(other, count), WorkerComment(version)) <==> version <= other
  {
    hide WORKER_HEAD, Remaining;
    WorkerHeadText();
    RemainingText(count);
    var s, w := FullComment(other, count), WorkerComment(version);
    forall i | i != 0 ensures !ContainsAt(s, w, i) {
      StartsOnly(version, other, count, i);
    }
    if version <= other {
      assert s[0..|w|] == w;
      assert ContainsAt(s, w, 0);
    } else {
      DiffersSomewhere(version, other, count);
    }
  }

  lemma DiffersSomewhere(version: string, other: string, count: nat)
    requires ' ' !in version && !(version <= other) && |WORKER_HEAD| == 47
    ensures !ContainsAt(FullComment(other, count), WorkerComment(version), 0)
  {
    hide WORKER_HEAD, Remaining;
    RemainingText(count);
    var s, w := FullComment(other, count), WorkerComment(version);
    if |w| <= |s| {
      if |version| > |other| {
        assert s[47 + |other|] == Remaining(count)[0] && w[47 + |other|] == version[|other|];
        Mismatch(s, w, 0, 47 + |other|);
      } else {
        var k :| 0 <= k < |version| && version[k] != other[k];
        assert s[47 + k] == other[k] && w[47 + k] == version[k];
        Mismatch(s, w, 0, 47 + k);
      }
    }
  }
}

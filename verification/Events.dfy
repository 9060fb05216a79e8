/** The texts of the operator's notifications, and how the protocol reads them back. */
module Events {
  import opened Kube
  import opened Substrings
  import opened Notifier

  const HEAD := "Cluster upgrade to version "

  /** Text in which the letter y occurs only where pieces are joined. */
  function JoinY(pieces: seq<string>): string
    requires pieces != []
  {
    if |pieces| == 1 then pieces[0] else JoinY(pieces[..|pieces| - 1]) + ['y'] + pieces[|pieces| - 1]
  }

  const PROVIDER := " cloud service provider"
  const LIMITS := " quota limitations or temporar"
  const ISSUES := " issues to/from the new worker node."
  const CONTINUE := " The upgrade will continue"
  const COMPUTE := " without extra compute."
  const INFORM := " This is an informational notification"
  const NO_ACTION := " and no action is required b"

  const SKIP_PIECES := [
    " has experienced an issue during capacit",
    " reservation efforts. This could be caused b",
    PROVIDER + LIMITS,
    " connectivit",
    ISSUES + CONTINUE + COMPUTE + INFORM + NO_ACTION,
    " ", "ou" ]

  const SCALE := " has skipped Scale-Up additional"
  const STEP := " Worker Node step for compute capacit"
  const RESERVE := " reservation."

  const SCALE_SKIP_PIECES := [SCALE + STEP, RESERVE + INFORM + NO_ACTION, " ", "ou"]

  function ScaleSkipText(version: string): string {
    HEAD + version + JoinY(SCALE_SKIP_PIECES)
  }

  /** Why an upgrade is delayed: for the event manager the first step not complete, as far as it has a text of its
      own; for the drain engine the end of the budgets' grace period. */
  datatype Delay = AtAnyStep | AtHealthCheck | AtDependencies | AtScaleUp | AtDrain

  function DelayReason(d: Delay): string
    requires !d.AtDrain?
  {
    match d
    case AtAnyStep =>
      " is experiencing a delay whilst it performs necessary pre-upgrade procedures."
    case AtHealthCheck =>
      " is experiencing a delay as health alerts are firing in the cluster which could impact the upgrade's operation."
    case AtDependencies =>
      " is experiencing a delay as an external dependency of the upgrade is currently unavailable."
    case AtScaleUp =>
      " is experiencing a delay attempting to scale up an additional worker node."
  }

  function DelayHead(d: Delay, version: string): string
    requires !d.AtDrain?
  {
    HEAD + version + DelayReason(d) + " The upgrade will continue to "
  }

  function DelayTail(d: Delay): string {
    ". This is an informational notification and no action is required" + if d.AtAnyStep? then "" else " by you"
  }

  const GRACE := "Node drain grace period might be "
  const IMPACT := "impacting cluster upgrade. "
  const REFER := "Please refer to the article "
  const DETAILS := "for further details "
  const LINK := "https://access.redhat.com/solutions/7075425"

  function DelayText(d: Delay, version: string): string {
    if d.AtDrain? then GRACE + IMPACT + REFER + DETAILS + LINK
    else DelayHead(d, version) + RETRY + DelayTail(d)
  }

  function SkipText(version: string): string {
    HEAD + version + JoinY(SKIP_PIECES)
  }

  /** No piece holds a y, and none before a join ends like the start of "retry". */
  predicate PieceOk(piece: string) {
    && 'y' !in piece
    && |piece| > 0
    && (piece[|piece| - 1] != 'r' || (|piece| > 1 && piece[|piece| - 2] != 't'))
  }

  lemma {:induction false} JoinLacksRetry(a: string, pieces: seq<string>)
    requires pieces != [] && forall i :: 0 <= i < |pieces| ==> PieceOk(pieces[i])
    requires |a| >= 4
    ensures Contains(a + JoinY(pieces), RETRY) <==> Contains(a, RETRY)
  {
    var n := |pieces| - 1;
    var last := pieces[n];
    if n == 0 {
      NoMatchAdded(a, last, RETRY);
    } else {
      var front := JoinY(pieces[..n]);
      JoinLacksRetry(a, pieces[..n]);
      JoinEnd(pieces[..n]);
      var s := a + front;
      var k := if pieces[n - 1][|pieces[n - 1]| - 1] != 'r' then 2 else 3;
      NoMatchCompleted(s, 'y', RETRY, k);
      NoMatchAdded(s + ['y'], last, RETRY);
      assert a + JoinY(pieces) == s + ['y'] + last;
    }
  }

  lemma JoinEnd(pieces: seq<string>)
    requires pieces != []
    ensures var last := pieces[|pieces| - 1];
            |JoinY(pieces)| >= |last| && JoinY(pieces)[|JoinY(pieces)| - |last|..] == last
  {
  }

  lemma NoY()
    ensures 'y' !in PROVIDER && 'y' !in LIMITS && 'y' !in ISSUES && 'y' !in CONTINUE
  {
  }

  lemma NoYEither()
    ensures 'y' !in COMPUTE && 'y' !in INFORM && 'y' !in NO_ACTION
  {
  }

  lemma NoYInScaleSkip()
    ensures 'y' !in SCALE && 'y' !in RESERVE
  {
  }

  lemma EndsKept(a: string, b: string)
    requires 'y' !in a && PieceOk(b) && |b| > 1
    ensures PieceOk(a + b)
  {
  }

  lemma SkipPiecesOk()
    ensures forall i :: 0 <= i < |SKIP_PIECES| ==> PieceOk(SKIP_PIECES[i])
  {
    NoY();
    NoYEither();
    EndsKept(PROVIDER, LIMITS);
    EndsKept(ISSUES + CONTINUE + COMPUTE + INFORM, NO_ACTION);
    assert PieceOk(" has experienced an issue during capacit");
    assert PieceOk(" reservation efforts. This could be caused b");
    assert PieceOk(" connectivit");
  }

  lemma ScaleSkipPiecesOk()
    ensures forall i :: 0 <= i < |SCALE_SKIP_PIECES| ==> PieceOk(SCALE_SKIP_PIECES[i])
  {
    NoYEither();
    NoYInScaleSkip();
    EndsKept(SCALE, STEP);
    EndsKept(RESERVE + INFORM, NO_ACTION);
  }

  lemma HeadLacksRetry(version: string)
    ensures Contains(HEAD + version, RETRY) <==> Contains(version, RETRY)
  {
    var head := "Cluster upgrade to version";
    assert HEAD == head + [' '];
    SeparatedBy(head, ' ', version, RETRY);
    NoMatchAdded("", head, RETRY);
    assert head == "" + head;
  }

  /** The text of a skip mentions a retry exactly if the version does, and so for a skipped scale-up. */
  lemma SkipTextIff(version: string)
    ensures Contains(SkipText(version), RETRY) <==> Contains(version, RETRY)
    ensures Contains(ScaleSkipText(version), RETRY) <==> Contains(version, RETRY)
  {
    HeadLacksRetry(version);
    SkipPiecesOk();
    JoinLacksRetry(HEAD + version, SKIP_PIECES);
    ScaleSkipPiecesOk();
    JoinLacksRetry(HEAD + version, SCALE_SKIP_PIECES);
  }

  lemma ReadsAsDelay(a: string, b: string)
    ensures ReadBack(Policy(Encoded(Delayed), a + RETRY + b)) == Some(Delayed)
  {
    assert ContainsAt(RETRY, RETRY, 0);
    ContainedIn(a, RETRY, b, RETRY);
  }

  lemma NoYInDrain()
    ensures 'y' !in GRACE && 'y' !in IMPACT && 'y' !in REFER
  {
  }

  lemma NoYInLink()
    ensures 'y' !in DETAILS && 'y' !in LINK
  {
  }

  lemma DrainTextLacksRetry(version: string)
    ensures !Contains(DelayText(AtDrain, version), RETRY)
  {
    hide GRACE, IMPACT, REFER, DETAILS, LINK;
    NoYInDrain();
    NoYInLink();
    var text := GRACE + IMPACT + REFER + DETAILS + LINK;
    NoMatchAdded("", text, RETRY);
    assert "" + text == text;
  }

  /** A reported delay is read back as a delay exactly if it is one of the event manager's four. The drain engine's
      is read back as a skip, after which neither a delay nor a skip is reported any more. */
  lemma DelayReadBackIff(d: Delay, version: string)
    ensures var p := Policy(Encoded(Delayed), DelayText(d, version));
            && (ReadBack(p) == Some(Delayed) <==> !d.AtDrain?)
            && (d.AtDrain? ==> ReadBack(p) == Some(Skipped)
                               && forall to :: Allowed(p, to) <==> to == Completed || to == Failed)
            && (!d.AtDrain? ==> forall to :: Allowed(p, to) <==> to == Completed || to == Failed || to == Skipped)
  {
    hide DelayHead, DelayTail;
    if d.AtDrain? {
      DrainTextLacksRetry(version);
    } else {
      ReadsAsDelay(DelayHead(d, version), DelayTail(d));
    }
  }

  /** With the operator's own text, no run on any policy makes more than four writes exactly when the
      version does not contain "retry". */
  lemma AtMostFourWritesIff(version: string)
    ensures (forall p, ns :: SkipsSay(ns, SkipText(version)) ==> Count(p, ns) <= 4) <==> !Contains(version, RETRY)
  {
    AtMostFourIff(SkipText(version));
    SkipTextIff(version);
  }

  /** A reported skipped scale-up is read back as a skip, or as a delay if the version mentions a retry: a later delay,
      which the guard allows after a skipped scale-up, is never reported, and a later skip only in the second case. */
  lemma ScaleSkipHidesDelays(version: string)
    ensures var p := Policy(Encoded(ScaleSkipped), ScaleSkipText(version));
            && ReadBack(p) == Some(if Contains(version, RETRY) then Delayed else Skipped)
            && ValidTransition(ScaleSkipped, Delayed) && !Allowed(p, Delayed)
            && ValidTransition(ScaleSkipped, Skipped) && (Allowed(p, Skipped) <==> Contains(version, RETRY))
            && Allowed(p, Completed) && Allowed(p, Failed)
  {
    SkipTextIff(version);
  }
}

/** Vocabulary shared by every part of the model: optional values, instants, and
    what can happen to a call that writes to a remote store. */
module Kube {

  datatype Option<+T> = None | Some(value: T)

  /** An instant or a duration on the operator's clock, in whole seconds. */
  type Time = nat

  predicate Distinct<T(==)>(s: seq<T>) {
    forall i, j :: 0 <= i < j < |s| ==> s[i] != s[j]
  }

  /** A write either takes effect and reports success, is refused without effect, or takes
      effect while its caller only sees an error (the reply is lost). */
  datatype Fault = Applied | Refused | ReplyLost {
    predicate Lands() { !Refused? }
    predicate Succeeds() { Applied? }
  }
}

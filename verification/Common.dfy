/** Values shared by the modules: an optional value and the outcome of a call that may be
    refused. */
module Common {
  datatype Option<+T> = None | Some(value: T)

  datatype Result<+T> = Ok(value: T) | Refused

  /** A set with at most one more member. */
  lemma {:induction false} OneMoreIn(before: set<nat>, after: set<nat>, n: nat, more: bool)
    requires n !in before && forall i :: i in after <==> i in before || (i == n && more)
    ensures |after| == |before| + if more then 1 else 0
  {
    assert after == if more then before + {n} else before;
  }
}

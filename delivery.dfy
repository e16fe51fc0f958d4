/**
 * Which of the signals pending at a dispatch reach the handler's callback:
 * those registered to it, in the order they are pending.
 */
module Delivery {

  /** The pending signals, in order, that have the handler registered. */
  function Deliverable(pending: seq<int>, registered: set<int>): (delivered: seq<int>)
    ensures |delivered| <= |pending|
    ensures forall s :: s in delivered <==> s in pending && s in registered
    decreases |pending|
  {
    if pending == [] then []
    else if pending[0] in registered then [pending[0]] + Deliverable(pending[1..], registered)
    else Deliverable(pending[1..], registered)
  }

  /** With nothing registered, nothing is delivered. */
  lemma {:induction false} NothingRegistered(pending: seq<int>)
    ensures Deliverable(pending, {}) == []
    decreases |pending|
  {
    if pending != [] {
      NothingRegistered(pending[1..]);
    }
  }

  /** Whether one more pending signal is delivered depends on that signal alone. */
  lemma {:induction false} DeliverableSnoc(pending: seq<int>, signo: int, registered: set<int>)
    ensures Deliverable(pending + [signo], registered)
         == Deliverable(pending, registered) + (if signo in registered then [signo] else [])
    decreases |pending|
  {
    if pending != [] {
      assert (pending + [signo])[1..] == pending[1..] + [signo];
      DeliverableSnoc(pending[1..], signo, registered);
    }
  }

  /** The last signal delivered is the last pending one that is registered. */
  lemma {:induction false} LastDelivered(pending: seq<int>, registered: set<int>, k: nat)
    requires k < |pending| && pending[k] in registered
    requires forall j :: k < j < |pending| ==> pending[j] !in registered
    ensures Deliverable(pending, registered) != []
    ensures Deliverable(pending, registered)[|Deliverable(pending, registered)| - 1] == pending[k]
    decreases |pending|
  {
    var n := |pending|;
    var init := pending[..n - 1];
    assert pending == init + [pending[n - 1]];
    DeliverableSnoc(init, pending[n - 1], registered);
    if k < n - 1 {
      LastDelivered(init, registered, k);
    }
  }
}

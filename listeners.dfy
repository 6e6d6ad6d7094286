/** The listener sets of the two module-level stores. A callback is known by
    an identity; calling it is recorded as a notice carrying what it was
    passed, so "who heard what, in which order" is part of the state. */
module Listeners {

  /** The identity of a subscribed callback. */
  type ListenerId = nat

  datatype Notice<T> = Notice(listener: ListenerId, payload: T)

  /** A JavaScript `Set` holds each member once. */
  predicate NoDup(ls: seq<ListenerId>)
  {
    forall i, j :: 0 <= i < j < |ls| ==> ls[i] != ls[j]
  }

  /** `set.add(l)`: appended when new, otherwise the order is kept. */
  function Added(ls: seq<ListenerId>, l: ListenerId): (r: seq<ListenerId>)
    requires NoDup(ls)
    ensures NoDup(r)
    ensures l in r
    ensures forall x :: x in r <==> x in ls || x == l
  {
    if l in ls then ls else ls + [l]
  }

  /** `set.delete(l)`. */
  function Without(ls: seq<ListenerId>, l: ListenerId): (r: seq<ListenerId>)
    ensures l !in r
    ensures forall x :: x in r <==> x in ls && x != l
    ensures NoDup(ls) ==> NoDup(r)
  {
    if ls == [] then []
    else if ls[0] == l then Without(ls[1..], l)
    else
      var rest := Without(ls[1..], l);
      assert NoDup(ls) ==> ls[0] !in ls[1..] && NoDup(ls[1..]);
      [ls[0]] + rest
  }

  /** What one emit delivers: one notice per listener, in set order. */
  function Broadcast<T>(ls: seq<ListenerId>, payload: T): seq<Notice<T>>
  {
    seq(|ls|, i requires 0 <= i < |ls| => Notice(ls[i], payload))
  }

  /** The emit loop: `for (const fn of listeners) fn(payload)`. */
  method Emit<T>(ls: seq<ListenerId>, payload: T) returns (out: seq<Notice<T>>)
    ensures |out| == |ls|
    ensures forall i :: 0 <= i < |ls| ==> out[i] == Notice(ls[i], payload)
    ensures out == Broadcast(ls, payload)
  {
    out := [];
    var i := 0;
    while i < |ls|
      invariant 0 <= i <= |ls|
      invariant |out| == i
      invariant forall k :: 0 <= k < i ==> out[k] == Notice(ls[k], payload)
    {
      out := out + [Notice(ls[i], payload)];
      i := i + 1;
    }
  }

  /** After an emit each subscribed listener has heard the payload exactly
      once and nobody else has heard anything. */
  lemma {:induction false} BroadcastReachesExactlyListeners<T>(ls: seq<ListenerId>, payload: T, l: ListenerId)
    requires NoDup(ls)
    ensures l in ls ==> |set i | 0 <= i < |ls| && Broadcast(ls, payload)[i].listener == l| == 1
    ensures l !in ls ==> forall n :: n in Broadcast(ls, payload) ==> n.listener != l
  {
    var b := Broadcast(ls, payload);
    if l in ls {
      var k :| 0 <= k < |ls| && ls[k] == l;
      assert (set i | 0 <= i < |ls| && b[i].listener == l) == {k};
    }
  }
}

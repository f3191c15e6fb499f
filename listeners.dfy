/**
 * The listener lists both device channels keep. A callback is known only by
 * its identity, so a listener is an opaque id; calling it with a message is
 * recorded as a `Delivery`.
 */
module Listeners {
  import opened Utils

  /** The identity of a subscribed callback (`===` in the program). */
  type ListenerId = nat

  /** One call of a listener with a decoded message. */
  datatype Delivery = Delivery(listener: ListenerId, message: Message)

  /** `listeners.forEach(cb => cb(m))`: one delivery per listener, in list order. */
  function FanOut(m: Message, listeners: seq<ListenerId>): (r: seq<Delivery>)
    ensures |r| == |listeners|
    ensures forall k | 0 <= k < |r| :: r[k] == Delivery(listeners[k], m)
  {
    if |listeners| == 0 then []
    else FanOut(m, listeners[..|listeners| - 1]) + [Delivery(listeners[|listeners| - 1], m)]
  }

  /** `listeners.filter(l => l !== cb)`: every entry of `cb` dropped, the rest in order. */
  function Without(listeners: seq<ListenerId>, cb: ListenerId): (r: seq<ListenerId>)
    ensures cb !in r
    ensures forall x :: x in r <==> x in listeners && x != cb
    ensures |r| <= |listeners|
  {
    if |listeners| == 0 then []
    else if listeners[0] == cb then Without(listeners[1..], cb)
    else [listeners[0]] + Without(listeners[1..], cb)
  }

  /** Removing from a concatenation removes from each part. */
  lemma {:induction false} WithoutAppend(a: seq<ListenerId>, b: seq<ListenerId>, cb: ListenerId)
    ensures Without(a + b, cb) == Without(a, cb) + Without(b, cb)
  {
    if |a| == 0 {
      assert a + b == b;
    } else {
      var ab := a + b;
      assert ab[0] == a[0] && ab[1..] == a[1..] + b;
      WithoutAppend(a[1..], b, cb);
      var tail := Without(a[1..], cb);
      if a[0] != cb {
        assert [a[0]] + (tail + Without(b, cb)) == ([a[0]] + tail) + Without(b, cb);
      }
    }
  }

  /** A list without `cb` is left as it is. */
  lemma {:induction false} WithoutAbsent(listeners: seq<ListenerId>, cb: ListenerId)
    requires cb !in listeners
    ensures Without(listeners, cb) == listeners
  {
    if |listeners| > 0 {
      WithoutAbsent(listeners[1..], cb);
      assert [listeners[0]] + listeners[1..] == listeners;
    }
  }

  /**
   * Subscribing a new callback and then calling the unsubscribe it returned
   * gives back the original list, in its order.
   */
  lemma SubscribeThenUnsubscribe(listeners: seq<ListenerId>, cb: ListenerId)
    requires cb !in listeners
    ensures Without(listeners + [cb], cb) == listeners
  {
    WithoutAppend(listeners, [cb], cb);
    WithoutAbsent(listeners, cb);
    assert Without([cb], cb) == [];
  }

  /** Unsubscribing twice is the same as unsubscribing once. */
  lemma WithoutIdempotent(listeners: seq<ListenerId>, cb: ListenerId)
    ensures Without(Without(listeners, cb), cb) == Without(listeners, cb)
  {
    WithoutAbsent(Without(listeners, cb), cb);
  }

  /** Unsubscribing keeps the other callbacks in their relative order: the result is a subsequence. */
  lemma {:induction false} WithoutKeepsOrder(listeners: seq<ListenerId>, cb: ListenerId, i: nat, j: nat)
    requires i < j < |Without(listeners, cb)|
    ensures exists p, q ::
              && 0 <= p < q < |listeners|
              && listeners[p] == Without(listeners, cb)[i]
              && listeners[q] == Without(listeners, cb)[j]
  {
    var r := Without(listeners, cb);
    var rest := Without(listeners[1..], cb);
    if listeners[0] == cb {
      WithoutKeepsOrder(listeners[1..], cb, i, j);
      var p, q :| 0 <= p < q < |listeners[1..]| && listeners[1..][p] == rest[i] && listeners[1..][q] == rest[j];
      assert listeners[p + 1] == r[i] && listeners[q + 1] == r[j];
    } else if i == 0 {
      assert r[j] == rest[j - 1];
      assert r[j] in listeners[1..];
      var q :| 0 <= q < |listeners[1..]| && listeners[1..][q] == r[j];
      assert listeners[0] == r[0] && listeners[q + 1] == r[j];
    } else {
      WithoutKeepsOrder(listeners[1..], cb, i - 1, j - 1);
      var p, q :| 0 <= p < q < |listeners[1..]| && listeners[1..][p] == rest[i - 1] && listeners[1..][q] == rest[j - 1];
      assert listeners[p + 1] == r[i] && listeners[q + 1] == r[j];
    }
  }
}

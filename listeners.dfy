/**
 * The ellipsize-listener registry and the notifications it receives
 * (EllipsizingTextViewSharp.cs:23, 63-75, 188-195).  A listener object is
 * represented by an identifier; C# reference equality becomes equality of
 * identifiers, assuming listeners keep the default reference `Equals` that
 * `List<T>.Remove` consults.
 */
module Listeners {

  type ListenerId = nat

  /** One call listener.EllipsizeStateChanged(value): the listener, the
      value it is passed, and the state IsEllipsized() reports while the
      call runs. */
  datatype Notification = Notification(listener: ListenerId, value: bool, stateSeen: bool)

  /** Index of the first occurrence of `x`, or |s| when there is none. */
  function IndexOf(s: seq<ListenerId>, x: ListenerId): (i: nat)
    ensures i <= |s|
    ensures i < |s| ==> s[i] == x
    ensures x !in s[..i]
  {
    if |s| == 0 then 0
    else if s[0] == x then 0
    else
      var i := 1 + IndexOf(s[1..], x);
      assert s[..i] == [s[0]] + s[1..][..i - 1];
      i
  }

  /** List<T>.Remove(x): drop the first occurrence of `x`, if any. */
  function RemoveFirst(s: seq<ListenerId>, x: ListenerId): (r: seq<ListenerId>)
    ensures x !in s ==> r == s
    ensures x in s ==> |r| == |s| - 1
    ensures multiset(r) == multiset(s) - multiset{x}
  {
    if |s| == 0 then s
    else
      assert s == [s[0]] + s[1..];
      if s[0] == x then s[1..]
      else [s[0]] + RemoveFirst(s[1..], x)
  }

  /** The entry removed is the first one equal to `x`; the others keep
      their order. */
  lemma {:induction false} RemoveFirstShape(s: seq<ListenerId>, x: ListenerId)
    requires x in s
    ensures IndexOf(s, x) < |s|
    ensures RemoveFirst(s, x) == s[..IndexOf(s, x)] + s[IndexOf(s, x) + 1..]
  {
    var t := s[1..];
    assert s == [s[0]] + t;
    if s[0] != x {
      assert x in t;
      RemoveFirstShape(t, x);
      ConsSplit(s[0], t, IndexOf(t, x));
    }
  }

  /** Cutting one entry out of a sequence commutes with putting an entry in
      front of it. */
  lemma ConsSplit(a: ListenerId, t: seq<ListenerId>, i: nat)
    requires i < |t|
    ensures [a] + (t[..i] + t[i + 1..]) == ([a] + t)[..i + 1] + ([a] + t)[i + 2..]
  {
    assert ([a] + t)[..i + 1] == [a] + t[..i];
    assert ([a] + t)[i + 2..] == t[i + 1..];
  }

  /** Adding a listener that is not registered and removing it again
      restores the registry. */
  lemma {:induction false} AddThenRemove(s: seq<ListenerId>, x: ListenerId)
    requires x !in s
    ensures RemoveFirst(s + [x], x) == s
  {
    if s != [] {
      assert (s + [x])[1..] == s[1..] + [x];
      AddThenRemove(s[1..], x);
    }
  }

  /** The calls of one foreach over the registry: one per registry entry,
      in registration order, each passed the value and made after the state
      was set to it. */
  function Notifications(listeners: seq<ListenerId>, ellipsized: bool): (r: seq<Notification>)
    ensures |r| == |listeners|
    ensures forall k :: 0 <= k < |r| ==> r[k] == Notification(listeners[k], ellipsized, ellipsized)
  {
    if |listeners| == 0 then []
    else Notifications(listeners[..|listeners| - 1], ellipsized) + [Notification(listeners[|listeners| - 1], ellipsized, ellipsized)]
  }

  /** The calls one ResetText makes: none unless the ellipsized state changes. */
  function OnChange(listeners: seq<ListenerId>, previous: bool, next: bool): seq<Notification> {
    if previous != next then Notifications(listeners, next) else []
  }

  /** The calls made by a run of ResetText passes that compute the given
      ellipsized values in turn, starting from state `start`. */
  function PassLog(listeners: seq<ListenerId>, start: bool, results: seq<bool>): seq<Notification>
    decreases |results|
  {
    if |results| == 0 then []
    else OnChange(listeners, start, results[0]) + PassLog(listeners, results[0], results[1..])
  }

  /** The number of passes whose result differs from the state before it. */
  function Toggles(start: bool, results: seq<bool>): nat
    decreases |results|
  {
    if |results| == 0 then 0
    else (if results[0] != start then 1 else 0) + Toggles(results[0], results[1..])
  }

  /** Over a run of passes every registry entry is called once per change
      of state. */
  lemma {:induction false} PassLogLength(listeners: seq<ListenerId>, start: bool, results: seq<bool>)
    ensures |PassLog(listeners, start, results)| == |listeners| * Toggles(start, results)
    decreases |results|
  {
    if |results| > 0 {
      var rest := results[1..];
      PassLogLength(listeners, results[0], rest);
      var first := if results[0] != start then 1 else 0;
      assert |OnChange(listeners, start, results[0])| == |listeners| * first;
      Distribute(|listeners|, first, Toggles(results[0], rest));
    }
  }

  /** Multiplication distributes over addition. */
  lemma Distribute(n: nat, a: nat, b: nat)
    ensures n * (a + b) == n * a + n * b
  {
  }

  /** A pass that changes nothing notifies nobody, and consecutive equal
      results notify only once. */
  lemma {:induction false} RepeatedResultNotifiesOnce(listeners: seq<ListenerId>, start: bool, b: bool, n: nat)
    requires n >= 1
    ensures PassLog(listeners, start, seq(n, _ => b)) == OnChange(listeners, start, b)
    decreases n
  {
    var results := seq(n, _ => b);
    if n > 1 {
      assert results[1..] == seq(n - 1, _ => b);
      RepeatedResultNotifiesOnce(listeners, b, b, n - 1);
    } else {
      assert results[1..] == [];
    }
  }

  /** Ellipsized state false, then true, then false over three passes: each
      registry entry is called with true and then with false, in
      registration order. */
  lemma ToggleTwice(listeners: seq<ListenerId>)
    ensures PassLog(listeners, false, [false, true, false])
         == Notifications(listeners, true) + Notifications(listeners, false)
    ensures |PassLog(listeners, false, [false, true, false])| == 2 * |listeners|
  {
    var results := [false, true, false];
    assert results[1..] == [true, false];
    assert results[1..][1..] == [false];
    assert results[1..][1..][1..] == [];
  }
}

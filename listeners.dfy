/**
 * GenericListener: an ordered list of registered listeners that a subject
 * notifies one after another. Listeners are registered by reference, so the
 * list never holds a null entry; a listener is identified by its value here.
 */
module Listeners {
  import opened Common

  /** The position of the first occurrence of x in s, or |s| when there is none. */
  function FirstIndex<T(==)>(s: seq<T>, x: T): (i: nat)
    ensures i <= |s|
    ensures i < |s| ==> s[i] == x
    ensures forall j :: 0 <= j < i ==> s[j] != x
  {
    if s == [] then 0
    else if s[0] == x then 0
    else 1 + FirstIndex(s[1..], x)
  }

  /** std::find followed by erase: the first occurrence of x goes, the rest keep their order. */
  function RemoveFirst<T(==)>(s: seq<T>, x: T): (r: seq<T>)
    ensures x !in s ==> r == s
    ensures x in s ==> |r| == |s| - 1 && multiset(r) == multiset(s) - multiset{x}
  {
    var i := FirstIndex(s, x);
    if i == |s| then s
    else
      assert s == s[..i] + [x] + s[i + 1..];
      s[..i] + s[i + 1..]
  }

  /** Registering a listener and removing it again leaves the same listeners registered. */
  lemma AddThenRemove<T>(s: seq<T>, x: T)
    ensures multiset(RemoveFirst(s + [x], x)) == multiset(s)
    ensures x !in s ==> RemoveFirst(s + [x], x) == s
  {
    assert x in s + [x];
    if x !in s {
      assert FirstIndex(s + [x], x) == |s|;
      assert (s + [x])[..|s|] == s;
    }
  }

  /** The registered pointers that are not null, in registration order. */
  function NonNull<T(==)>(ls: seq<Option<T>>): (r: seq<T>)
    ensures |r| <= |ls|
    ensures forall i :: 0 <= i < |r| ==> Some(r[i]) in ls
    ensures forall i :: 0 <= i < |ls| && ls[i].Some? ==> ls[i].value in r
  {
    if ls == [] then []
    else
      var tail := NonNull(ls[1..]);
      assert forall i :: 1 <= i < |ls| ==> ls[i] == ls[1..][i - 1];
      if ls[0].Some? then [ls[0].value] + tail else tail
  }

  /** Registering one more pointer: a non-null one is notified last, a null one never. */
  lemma NonNullAppend<T>(ls: seq<Option<T>>, l: Option<T>)
    ensures NonNull(ls + [l]) == NonNull(ls) + (if l.Some? then [l.value] else [])
    decreases |ls|
  {
    if ls != [] {
      assert (ls + [l])[1..] == ls[1..] + [l];
      NonNullAppend(ls[1..], l);
    }
  }

  /**
   * The notify loop of a subject whose list may hold null pointers: every
   * non-null listener receives n, in registration order.
   */
  method Deliver<T(==), N>(ls: seq<Option<T>>, n: N) returns (deliveries: seq<(T, N)>)
    ensures |deliveries| == |NonNull(ls)|
    ensures forall i :: 0 <= i < |deliveries| ==> deliveries[i] == (NonNull(ls)[i], n)
  {
    deliveries := [];
    var i := 0;
    while i < |ls|
      invariant 0 <= i <= |ls|
      invariant |deliveries| == |NonNull(ls[..i])|
      invariant forall j :: 0 <= j < |deliveries| ==> deliveries[j] == (NonNull(ls[..i])[j], n)
    {
      assert ls[..i + 1] == ls[..i] + [ls[i]];
      NonNullAppend(ls[..i], ls[i]);
      if ls[i].Some? {
        deliveries := deliveries + [(ls[i].value, n)];
      }
      i := i + 1;
    }
    assert ls[..i] == ls;
  }

  class ListenerList<T(==)> {
    var listeners: seq<T>

    constructor()
      ensures listeners == []
    {
      listeners := [];
    }

    /** addListener: appended at the end; the same listener may be registered twice. */
    method AddListener(l: T)
      modifies this
      ensures listeners == old(listeners) + [l]
    {
      listeners := listeners + [l];
    }

    /** removeListener: only the first registration of l is dropped. */
    method RemoveListener(l: T)
      modifies this
      ensures listeners == RemoveFirst(old(listeners), l)
    {
      var i := 0;
      while i < |listeners| && listeners[i] != l
        invariant 0 <= i <= |listeners|
        invariant forall j :: 0 <= j < i ==> listeners[j] != l
      {
        i := i + 1;
      }
      if i < |listeners| {
        assert i == FirstIndex(listeners, l);
        listeners := listeners[..i] + listeners[i + 1..];
      } else {
        assert l !in listeners;
      }
    }

    /** notifyChange: f is applied to each listener in registration order. */
    method NotifyChange<R>(f: T -> R) returns (results: seq<R>)
      ensures |results| == |listeners|
      ensures forall i :: 0 <= i < |listeners| ==> results[i] == f(listeners[i])
    {
      results := [];
      var i := 0;
      while i < |listeners|
        invariant 0 <= i <= |listeners|
        invariant |results| == i
        invariant forall j :: 0 <= j < i ==> results[j] == f(listeners[j])
      {
        results := results + [f(listeners[i])];
        i := i + 1;
      }
    }
  }
}

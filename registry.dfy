/**
 * The subscriber registry: an ordered list that `subscribe` appends to and whose
 * unsubscribe handle removes the subscriber as `List.remove(Object)` does, that
 * is, its first occurrence.
 */
module Registry {

  /** Position of the first occurrence of `x` in `s`, or `|s|` when there is none. */
  function IndexOf<T(==)>(s: seq<T>, x: T): (i: nat)
    ensures i <= |s|
    ensures i < |s| ==> s[i] == x
    ensures x !in s[..i]
  {
    if s == [] then 0
    else if s[0] == x then 0
    else
      var i := 1 + IndexOf(s[1..], x);
      assert s[..i] == [s[0]] + s[1..][..i - 1];
      i
  }

  /** The registry after running the handle of `x`: its first occurrence goes, the rest keep their order. */
  function RemoveFirst<T(==)>(s: seq<T>, x: T): (t: seq<T>)
    ensures x !in s ==> t == s
    ensures x in s ==> |t| == |s| - 1
    ensures multiset(t) == multiset(s) - multiset{x}
    ensures x in s ==> var i := IndexOf(s, x);
      i < |s| && s[i] == x && x !in s[..i] &&
      (forall k :: 0 <= k < i ==> t[k] == s[k]) &&
      (forall k :: i <= k < |t| ==> t[k] == s[k + 1])
  {
    var i := IndexOf(s, x);
    if i == |s| then
      assert s[..i] == s;
      s
    else
      assert s == s[..i] + [s[i]] + s[i + 1..];
      s[..i] + s[i + 1..]
  }

  /** Subscribing a new subscriber and running the handle at once leaves the registry as it was. */
  lemma SubscribeThenUnsubscribe<T>(s: seq<T>, x: T)
    requires x !in s
    ensures RemoveFirst(s + [x], x) == s
  {
    var i := IndexOf(s + [x], x);
    assert (s + [x])[|s|] == x;
    assert (s + [x])[..|s|] == s;
  }

  /**
   * Running a handle twice is the same as running it once when the subscriber was
   * registered at most once; then it is no longer registered at all.
   */
  lemma UnsubscribeTwice<T>(s: seq<T>, x: T)
    requires multiset(s)[x] <= 1
    ensures x !in RemoveFirst(s, x)
    ensures RemoveFirst(RemoveFirst(s, x), x) == RemoveFirst(s, x)
  {
    var t := RemoveFirst(s, x);
    assert multiset(t)[x] == 0;
    assert x !in t;
  }

  /**
   * A subscriber registered twice is not gone after its handle runs once: the
   * second run of the same handle removes the other registration.
   */
  lemma UnsubscribeDuplicate<T>(s: seq<T>, x: T)
    requires multiset(s)[x] == 2
    ensures x in RemoveFirst(s, x)
    ensures x !in RemoveFirst(RemoveFirst(s, x), x)
  {
    var t := RemoveFirst(s, x);
    assert multiset(t)[x] == 1;
    assert multiset(RemoveFirst(t, x))[x] == 0;
  }
}

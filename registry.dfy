/**
 * Ordered registries with Java's list semantics: `add` appends (duplicates allowed) and
 * `remove(Object)` drops the first equal element, keeping the rest in order. The same
 * operations describe an Android container's child list.
 */
module Registry {

  /** No element occurs twice: the head is not repeated in the tail, and neither is anything else. */
  predicate Distinct<T(==)>(s: seq<T>) {
    s == [] || (s[0] !in s[1..] && Distinct(s[1..]))
  }

  /** `Distinct` says exactly that no two positions hold the same element. */
  lemma {:induction false} DistinctIndices<T>(s: seq<T>)
    ensures Distinct(s) <==> forall i, j :: 0 <= i < j < |s| ==> s[i] != s[j]
  {
    if s != [] {
      var tail := s[1..];
      DistinctIndices(tail);
      if Distinct(s) {
        forall i, j | 0 <= i < j < |s|
          ensures s[i] != s[j]
        {
          assert s[j] == tail[j - 1];
          if i > 0 {
            assert s[i] == tail[i - 1];
          }
        }
      } else if s[0] in tail {
        var k :| 0 <= k < |tail| && tail[k] == s[0];
        assert s[k + 1] == s[0];
      } else {
        var i, j :| 0 <= i < j < |tail| && tail[i] == tail[j];
        assert s[i + 1] == s[j + 1];
      }
    }
  }

  /** Appending an element not yet present keeps a list free of repetitions. */
  lemma {:induction false} DistinctAppend<T>(s: seq<T>, x: T)
    requires Distinct(s) && x !in s
    ensures Distinct(s + [x])
  {
    if s != [] {
      assert (s + [x])[1..] == s[1..] + [x];
      DistinctAppend(s[1..], x);
    }
  }

  /** The position of the first occurrence of `x`. */
  function FirstIndex<T(==)>(s: seq<T>, x: T): (i: nat)
    requires x in s
    ensures i < |s| && s[i] == x && x !in s[..i]
  {
    if s[0] == x then 0 else 1 + FirstIndex(s[1..], x)
  }

  /** `List.remove(Object)`: the first occurrence of `x` is dropped; the list is unchanged when `x` is absent. */
  function RemoveFirst<T(==)>(s: seq<T>, x: T): (r: seq<T>)
    ensures x !in s ==> r == s
    ensures x in s ==> |r| == |s| - 1
  {
    if s == [] then []
    else if s[0] == x then s[1..]
    else
      assert x in s <==> x in s[1..];
      assert x !in s ==> s == [s[0]] + s[1..];
      [s[0]] + RemoveFirst(s[1..], x)
  }

  /** Removal splices out exactly the first occurrence: what precedes it and what follows it stay in order. */
  lemma {:induction false} RemoveFirstSplices<T>(s: seq<T>, x: T)
    requires x in s
    ensures RemoveFirst(s, x) == s[..FirstIndex(s, x)] + s[FirstIndex(s, x) + 1..]
  {
    if s[0] != x {
      var k := FirstIndex(s[1..], x);
      RemoveFirstSplices(s[1..], x);
      assert s[..k + 1] == [s[0]] + s[1..][..k];
      assert s[k + 2..] == s[1..][k + 1..];
    }
  }

  /** Removing what was just added restores the registry, provided it was not registered already. */
  lemma {:induction false} RemoveAfterAdd<T>(s: seq<T>, x: T)
    requires x !in s
    ensures RemoveFirst(s + [x], x) == s
  {
    if s != [] {
      assert (s + [x])[1..] == s[1..] + [x];
      RemoveAfterAdd(s[1..], x);
    }
  }

  /** In a list without repetitions, removal deletes exactly `x` and keeps the list free of repetitions. */
  lemma {:induction false} RemoveFirstDistinct<T>(s: seq<T>, x: T)
    requires Distinct(s)
    ensures Distinct(RemoveFirst(s, x))
    ensures forall y :: y in RemoveFirst(s, x) <==> y in s && y != x
  {
    if s == [] {
    } else if s[0] == x {
      assert forall y :: y in s <==> y == s[0] || y in s[1..];
    } else {
      var tail := s[1..];
      RemoveFirstDistinct(tail, x);
      var r := RemoveFirst(tail, x);
      var t := [s[0]] + r;
      assert RemoveFirst(s, x) == t;
      assert t[0] == s[0] && t[1..] == r;
      assert forall y :: y in s <==> y == s[0] || y in tail;
    }
  }
}

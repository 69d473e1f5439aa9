/**
 * The two slice idioms the event and scene-graph code share: a linear search
 * for the first entry equal to a value (indexOfListener, indexOfChild), and
 * Go's `append(s[:i], s[i+1:]...)` that deletes the entry found.
 */
module Slices {

  /** The first position of x in list, or -1 when it does not occur. */
  function IndexOf<T(==)>(list: seq<T>, x: T): (i: int)
    ensures -1 <= i < |list|
    ensures i == -1 <==> x !in list
    ensures 0 <= i ==> list[i] == x && x !in list[..i]
  {
    if list == [] then -1
    else if list[0] == x then 0
    else
      var k := IndexOf(list[1..], x);
      assert list[1..][..k + 1] == list[..k + 2][1..] by {
        if 0 <= k { assert list[1..][..k + 1] == list[1..k + 2]; }
      }
      if k == -1 then -1 else k + 1
  }

  /** The list with its first x deleted; unchanged when x does not occur. */
  function Deleted<T(==)>(list: seq<T>, x: T): (r: seq<T>)
  {
    var i := IndexOf(list, x);
    if i == -1 then list else list[..i] + list[i + 1..]
  }

  /**
   * Deleting takes out one x and nothing else: the list is the result with x
   * put back at a position before which the result holds no x, so the
   * other entries keep their order.
   */
  lemma DeletedSplice<T>(list: seq<T>, x: T)
    requires x in list
    ensures var r := Deleted(list, x);
      |r| == |list| - 1
      && multiset(r) == multiset(list) - multiset{x}
      && exists i | 0 <= i <= |r| :: list == r[..i] + [x] + r[i..] && x !in r[..i]
  {
    var i, r := IndexOf(list, x), Deleted(list, x);
    assert r[..i] == list[..i];
    assert r[i..] == list[i + 1..];
    assert list == r[..i] + [x] + r[i..];
    calc {
      multiset(list);
      multiset(r[..i] + [x] + r[i..]);
      multiset(r[..i]) + multiset{x} + multiset(r[i..]);
      { assert r == r[..i] + r[i..]; }
      multiset(r) + multiset{x};
    }
  }

  /** Deleting a value that does not occur changes nothing. */
  lemma DeletedAbsent<T>(list: seq<T>, x: T)
    requires x !in list
    ensures Deleted(list, x) == list
  {
  }

  /** Deleting a value just appended to a list that did not hold it gives the list back. */
  lemma DeletedAppended<T>(list: seq<T>, x: T)
    requires x !in list
    ensures Deleted(list + [x], x) == list
  {
    var grown := list + [x];
    assert grown[..|list|] == list;
    assert IndexOf(grown, x) == |list|;
    assert grown[|list| + 1..] == [];
  }

  /** No entry occurs twice. */
  predicate Unique<T(==)>(list: seq<T>) {
    forall i, j | 0 <= i < j < |list| :: list[i] != list[j]
  }

  /** Entry k of the list with entry i cut out is entry k or k + 1 of the list. */
  lemma CutAt<T>(list: seq<T>, i: nat, k: nat)
    requires i < |list| && k < |list| - 1
    ensures (list[..i] + list[i + 1..])[k] == if k < i then list[k] else list[k + 1]
  {
  }

  /** Deleting from a list without repeats keeps it without repeats, and x no longer occurs. */
  lemma DeletedUnique<T>(list: seq<T>, x: T)
    requires Unique(list)
    ensures Unique(Deleted(list, x)) && x !in Deleted(list, x)
  {
    var index := IndexOf(list, x);
    if index != -1 {
      var cut := list[..index] + list[index + 1..];
      forall i, j | 0 <= i < j < |cut|
        ensures cut[i] != cut[j]
      {
        CutAt(list, index, i);
        CutAt(list, index, j);
      }
      forall k | 0 <= k < |cut|
        ensures cut[k] != x
      {
        CutAt(list, index, k);
      }
    }
  }

  /** Appending a value the list does not hold keeps it without repeats. */
  lemma AppendedUnique<T>(list: seq<T>, x: T)
    requires Unique(list) && x !in list
    ensures Unique(list + [x])
  {
    var grown := list + [x];
    forall i, j | 0 <= i < j < |grown|
      ensures grown[i] != grown[j]
    {
      if j == |list| {
        assert grown[i] == list[i];
      }
    }
  }
}

/**
 * The .NET SortedList<string, string> that WeatherController collects city
 * names into, reduced to what the controller uses: Add and the key sequence.
 * Its comparer (the culture-sensitive default string comparer) is abstracted
 * as any strict total order on strings.
 */
module SortedLists {

  /** The comparer: irreflexive, transitive, and any two distinct strings are ordered. */
  ghost predicate StrictTotalOrder(less: (string, string) -> bool) {
    && (forall x :: !less(x, x))
    && (forall x, y, z :: less(x, y) && less(y, z) ==> less(x, z))
    && (forall x, y :: x != y ==> less(x, y) || less(y, x))
  }

  ghost predicate StrictlyAscending(s: seq<string>, less: (string, string) -> bool) {
    forall i, j :: 0 <= i < j < |s| ==> less(s[i], s[j])
  }

  /** No string occurs twice. */
  predicate Distinct(s: seq<string>) {
    forall i, j :: 0 <= i < j < |s| ==> s[i] != s[j]
  }

  lemma AscendingIsDistinct(s: seq<string>, less: (string, string) -> bool)
    requires StrictTotalOrder(less) && StrictlyAscending(s, less)
    ensures Distinct(s)
  {
  }

  /** A sequence with no member is empty. */
  lemma NoMembersIsEmpty(s: seq<string>)
    requires forall x :: x !in s
    ensures s == []
  {
    forall x ensures multiset(s)[x] == 0 { assert x !in s; }
    assert multiset(s) == multiset{};
  }

  /** The head of a strictly ascending sequence is its least element. */
  lemma HeadIsLeast(s: seq<string>, x: string, less: (string, string) -> bool)
    requires StrictlyAscending(s, less) && x in s
    ensures x == s[0] || less(s[0], x)
  {
  }

  /** The tail of a strictly ascending sequence holds every element but the head. */
  lemma TailMembers(s: seq<string>, x: string, less: (string, string) -> bool)
    requires StrictTotalOrder(less) && StrictlyAscending(s, less) && s != []
    ensures x in s[1..] <==> x in s && x != s[0]
  {
  }

  /**
   * A strictly ascending sequence is determined by its elements: two of them
   * holding the same strings are equal. Hence the key sequence of a SortedList
   * depends only on which keys were added, not on the order they came in.
   */
  lemma {:induction false} AscendingUnique(a: seq<string>, b: seq<string>, less: (string, string) -> bool)
    requires StrictTotalOrder(less)
    requires StrictlyAscending(a, less) && StrictlyAscending(b, less)
    requires forall x :: x in a <==> x in b
    ensures a == b
    decreases |a|
  {
    if a == [] {
      NoMembersIsEmpty(b);
    } else if b == [] {
      NoMembersIsEmpty(a);
    } else {
      HeadIsLeast(b, a[0], less);
      HeadIsLeast(a, b[0], less);
      assert a[0] == b[0];
      forall x ensures x in a[1..] <==> x in b[1..] {
        TailMembers(a, x, less);
        TailMembers(b, x, less);
      }
      AscendingUnique(a[1..], b[1..], less);
      assert a == [a[0]] + a[1..] && b == [b[0]] + b[1..];
    }
  }

  /**
   * Ordinal comparison (code point by code point, a proper prefix first):
   * one comparer that meets StrictTotalOrder.
   */
  function OrdinalLess(a: string, b: string): bool {
    if a == [] then b != []
    else if b == [] then false
    else if a[0] != b[0] then a[0] < b[0]
    else OrdinalLess(a[1..], b[1..])
  }

  lemma {:induction false} OrdinalIrreflexive(a: string)
    ensures !OrdinalLess(a, a)
  {
    if a != [] { OrdinalIrreflexive(a[1..]); }
  }

  lemma {:induction false} OrdinalTransitive(a: string, b: string, c: string)
    requires OrdinalLess(a, b) && OrdinalLess(b, c)
    ensures OrdinalLess(a, c)
  {
    if a != [] && b != [] && c != [] && a[0] == b[0] && b[0] == c[0] {
      OrdinalTransitive(a[1..], b[1..], c[1..]);
    }
  }

  lemma {:induction false} OrdinalConnected(a: string, b: string)
    requires a != b
    ensures OrdinalLess(a, b) || OrdinalLess(b, a)
  {
    if a != [] && b != [] && a[0] == b[0] {
      assert a == [a[0]] + a[1..] && b == [b[0]] + b[1..];
      OrdinalConnected(a[1..], b[1..]);
    }
  }

  lemma OrdinalIsStrictTotalOrder()
    ensures StrictTotalOrder(OrdinalLess)
  {
    forall x ensures !OrdinalLess(x, x) { OrdinalIrreflexive(x); }
    forall x, y, z | OrdinalLess(x, y) && OrdinalLess(y, z) ensures OrdinalLess(x, z) {
      OrdinalTransitive(x, y, z);
    }
    forall x, y | x != y ensures OrdinalLess(x, y) || OrdinalLess(y, x) {
      OrdinalConnected(x, y);
    }
  }

  /**
   * Inserting a key between the keys below it and the keys above it keeps the
   * sequence strictly ascending and adds exactly that key.
   */
  lemma InsertAscending(s: seq<string>, i: int, key: string, less: (string, string) -> bool)
    requires StrictTotalOrder(less) && StrictlyAscending(s, less) && 0 <= i <= |s|
    requires forall k :: 0 <= k < i ==> less(s[k], key)
    requires forall k :: i <= k < |s| ==> less(key, s[k])
    ensures key !in s
    ensures StrictlyAscending(s[..i] + [key] + s[i..], less)
    ensures multiset(s[..i] + [key] + s[i..]) == multiset(s) + multiset{key}
  {
    assert s == s[..i] + s[i..];
    var t := s[..i] + [key] + s[i..];
    forall a, b | 0 <= a < b < |t| ensures less(t[a], t[b]) {
      if b < i || a > i {
      } else if a == i {
        assert t[b] == s[b - 1];
      } else if b == i {
        assert t[a] == s[a];
      } else {
        assert t[a] == s[a] && t[b] == s[b - 1];
      }
    }
  }

  /** The keys of a SortedList<string, string> whose values equal their keys. */
  class SortedList {
    const less: (string, string) -> bool
    var keys: seq<string>

    ghost predicate Valid()
      reads this
    {
      StrictTotalOrder(less) && StrictlyAscending(keys, less)
    }

    constructor (less: (string, string) -> bool)
      requires StrictTotalOrder(less)
      ensures Valid() && this.less == less && keys == []
    {
      this.less := less;
      keys := [];
    }

    /**
     * Add(key, key). A key already present makes SortedList.Add throw an
     * ArgumentException and leaves the list as it was; here that is ok == false.
     * Otherwise the key is inserted at its place in the order.
     */
    method Add(key: string) returns (ok: bool)
      requires Valid()
      modifies this
      ensures Valid()
      ensures ok <==> key !in old(keys)
      ensures ok ==> multiset(keys) == multiset(old(keys)) + multiset{key}
      ensures !ok ==> keys == old(keys)
    {
      var i := 0;
      while i < |keys| && less(keys[i], key)
        invariant 0 <= i <= |keys|
        invariant forall k :: 0 <= k < i ==> less(keys[k], key)
      {
        i := i + 1;
      }
      if i < |keys| && keys[i] == key {
        return false;
      }
      forall k | i <= k < |keys| ensures less(key, keys[k]) {
        assert less(key, keys[i]);
      }
      ok := true;
      InsertAscending(keys, i, key, less);
      keys := keys[..i] + [key] + keys[i..];
    }
  }
}

/** Sorting by an integer key, as `Array.prototype.sort` does with a
    comparator of the form `key(a) - key(b)` (ascending) or
    `key(b) - key(a)` (descending). */
module Sorting {

  /** A value with key `a` may stand before one with key `b`. */
  predicate InOrder(a: int, b: int, descending: bool) {
    if descending then a >= b else a <= b
  }

  predicate SortedBy<T>(s: seq<T>, key: T -> int, descending: bool) {
    forall i, j :: 0 <= i < j < |s| ==> InOrder(key(s[i]), key(s[j]), descending)
  }

  /** Inserts `x` before the first element it may precede, which keeps the
      input order among equal keys. */
  function Insert<T>(x: T, s: seq<T>, key: T -> int, descending: bool): (r: seq<T>)
    requires SortedBy(s, key, descending)
    ensures SortedBy(r, key, descending)
    ensures multiset(r) == multiset(s) + multiset{x}
    decreases |s|, 1
  {
    if s == [] || InOrder(key(x), key(s[0]), descending) then [x] + s
    else
      var rest := Insert(x, s[1..], key, descending);
      assert s == [s[0]] + s[1..];
      HeadBoundsInsert(x, s, key, descending);
      [s[0]] + rest
  }

  /** When `x` goes after the head of `s`, the head may precede everything
      the insertion into the tail produces. */
  lemma HeadBoundsInsert<T>(x: T, s: seq<T>, key: T -> int, descending: bool)
    requires SortedBy(s, key, descending) && s != []
    requires !InOrder(key(x), key(s[0]), descending)
    ensures forall k :: 0 <= k < |Insert(x, s[1..], key, descending)| ==>
      InOrder(key(s[0]), key(Insert(x, s[1..], key, descending)[k]), descending)
    decreases |s|, 0
  {
    var rest := Insert(x, s[1..], key, descending);
    forall k | 0 <= k < |rest| ensures InOrder(key(s[0]), key(rest[k]), descending) {
      assert rest[k] in multiset(rest);
      if rest[k] != x {
        assert rest[k] in multiset(s[1..]);
        var j :| 0 <= j < |s[1..]| && s[1..][j] == rest[k];
        assert s[j + 1] == rest[k];
      }
    }
  }

  /** Insertion sort: an ordered permutation of the input. */
  function SortBy<T>(s: seq<T>, key: T -> int, descending: bool): (r: seq<T>)
    ensures SortedBy(r, key, descending)
    ensures multiset(r) == multiset(s)
  {
    if s == [] then []
    else
      assert s == [s[0]] + s[1..];
      Insert(s[0], SortBy(s[1..], key, descending), key, descending)
  }

  /** A permutation keeps exactly the same elements. */
  lemma PermutationKeepsMembers<T>(a: seq<T>, b: seq<T>, x: T)
    requires multiset(a) == multiset(b)
    ensures x in a <==> x in b
  {
    assert x in a <==> x in multiset(a);
    assert x in b <==> x in multiset(b);
  }
}

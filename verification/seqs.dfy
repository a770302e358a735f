/** The array operations the connector and the adapter use: `indexOf`,
    push-if-absent and `filter` by membership. */
module Seqs {

  /** No element occurs twice. */
  ghost predicate NoDup<T(!new)>(s: seq<T>) {
    forall x :: multiset(s)[x] <= 1
  }

  /** The set of elements of a sequence. */
  function Elems<T(!new)>(s: seq<T>): (r: set<T>)
    ensures forall x :: x in r <==> x in s
  {
    if |s| == 0 then {} else {s[0]} + Elems(s[1..])
  }

  /** `Array.prototype.indexOf`: the first position of `x` in `s`, or -1. */
  function IndexOf<T(==)>(s: seq<T>, x: T): (r: int)
    ensures -1 <= r < |s|
    ensures r < 0 <==> x !in s
    ensures 0 <= r ==> s[r] == x && x !in s[..r]
  {
    if |s| == 0 then -1
    else if s[0] == x then 0
    else
      var k := IndexOf(s[1..], x);
      if k < 0 then -1 else k + 1
  }

  /** `if (list.indexOf(x) < 0) list.push(x)`: appends `x` unless it is already there. */
  function PushUnique<T(==)>(s: seq<T>, x: T): (r: seq<T>)
    ensures x in r && s <= r
    ensures x in s ==> r == s
    ensures x !in s ==> r == s + [x]
  {
    if IndexOf(s, x) < 0 then s + [x] else s
  }

  /** Pushing keeps a duplicate-free list duplicate-free, with `x` in it once. */
  lemma PushUniqueNoDup<T(!new)>(s: seq<T>, x: T)
    requires NoDup(s)
    ensures NoDup(PushUnique(s, x))
    ensures multiset(PushUnique(s, x))[x] == 1
  {
    if x !in s {
      assert multiset(s + [x]) == multiset(s) + multiset{x};
    }
  }

  /** `s.filter(y => keep.indexOf(y) >= 0)`: the elements of `s` that occur in
      `keep`, in their order in `s`, duplicates included. */
  function Filter<T(==,!new)>(s: seq<T>, keep: seq<T>): (r: seq<T>)
    ensures forall x :: multiset(r)[x] == if x in keep then multiset(s)[x] else 0
  {
    if |s| == 0 then []
    else
      assert s == [s[0]] + s[1..];
      (if IndexOf(keep, s[0]) >= 0 then [s[0]] else []) + Filter(s[1..], keep)
  }
}

/** Generic sequence helpers standing for the JavaScript array methods the
    application uses: `reduce` with `+`, `filter`, `findIndex`, insertion into
    a `Set`, and `sort` with a comparator. */
module Seqs {

  /** `s.reduce((acc, x) => acc + f(x), 0)`: folded left to right, so the last
      element is added last. */
  function SumOf<T>(s: seq<T>, f: T -> real): real
    decreases |s|
  {
    if s == [] then 0.0 else SumOf(s[..|s| - 1], f) + f(s[|s| - 1])
  }

  lemma {:induction false} SumOfConcat<T>(a: seq<T>, b: seq<T>, f: T -> real)
    ensures SumOf(a + b, f) == SumOf(a, f) + SumOf(b, f)
    decreases |b|
  {
    if b == [] {
      assert a + b == a;
    } else {
      assert (a + b)[..|a + b| - 1] == a + b[..|b| - 1];
      SumOfConcat(a, b[..|b| - 1], f);
    }
  }

  /** An element in the middle adds its value to the sum of the rest. */
  lemma SumOfMiddle<T>(left: seq<T>, x: T, right: seq<T>, f: T -> real)
    ensures SumOf(left + [x] + right, f) == SumOf(left + right, f) + f(x)
  {
    SumOfConcat(left + [x], right, f);
    assert (left + [x])[..|left|] == left;
    SumOfConcat(left, right, f);
  }

  /** Taking out the element at `i` takes its value out of the sum. */
  lemma SumOfRemove<T>(b: seq<T>, i: nat, f: T -> real)
    requires i < |b|
    ensures SumOf(b, f) == SumOf(b[..i] + b[i + 1..], f) + f(b[i])
  {
    assert b[..i + 1] == b[..i] + [b[i]];
    assert b == b[..i + 1] + b[i + 1..];
    SumOfMiddle(b[..i], b[i], b[i + 1..], f);
  }

  /** Taking out the element at `i` takes one copy of it out of the
      multiset. */
  lemma MultisetRemove<T>(b: seq<T>, i: nat)
    requires i < |b|
    ensures multiset(b[..i] + b[i + 1..]) == multiset(b) - multiset{b[i]}
  {
    assert b[..i + 1] == b[..i] + [b[i]];
    assert b == b[..i + 1] + b[i + 1..];
  }

  /** Reordering a sequence does not change its sum. */
  lemma {:induction false} SumOfPermutation<T>(a: seq<T>, b: seq<T>, f: T -> real)
    requires multiset(a) == multiset(b)
    ensures SumOf(a, f) == SumOf(b, f)
    decreases |a|
  {
    if a == [] {
      assert |b| == |multiset(b)| == 0;
    } else {
      var init, x := a[..|a| - 1], a[|a| - 1];
      assert multiset(init) == multiset(a) - multiset{x} by {
        assert a == init + [x];
      }
      assert x in multiset(b);
      var i :| 0 <= i < |b| && b[i] == x;
      MultisetRemove(b, i);
      SumOfRemove(b, i, f);
      SumOfPermutation(init, b[..i] + b[i + 1..], f);
    }
  }

  /** `s.filter(keep)`: the kept elements, in their original order. */
  function Filter<T>(s: seq<T>, keep: T -> bool): (r: seq<T>)
    ensures |r| <= |s|
    decreases |s|
  {
    if s == [] then []
    else Filter(s[..|s| - 1], keep) + (if keep(s[|s| - 1]) then [s[|s| - 1]] else [])
  }

  lemma {:induction false} FilterMembership<T>(s: seq<T>, keep: T -> bool, x: T)
    ensures x in Filter(s, keep) <==> x in s && keep(x)
    decreases |s|
  {
    if s != [] {
      assert s == s[..|s| - 1] + [s[|s| - 1]];
      FilterMembership(s[..|s| - 1], keep, x);
    }
  }

  /** Filtering distributes over concatenation, so the kept elements keep
      their relative order. */
  lemma {:induction false} FilterConcat<T>(a: seq<T>, b: seq<T>, keep: T -> bool)
    ensures Filter(a + b, keep) == Filter(a, keep) + Filter(b, keep)
    decreases |b|
  {
    if b == [] {
      assert a + b == a;
    } else {
      assert (a + b)[..|a + b| - 1] == a + b[..|b| - 1];
      FilterConcat(a, b[..|b| - 1], keep);
    }
  }

  lemma {:induction false} FilterKeepsAll<T>(s: seq<T>, keep: T -> bool)
    requires forall i :: 0 <= i < |s| ==> keep(s[i])
    ensures Filter(s, keep) == s
    decreases |s|
  {
    if s != [] {
      FilterKeepsAll(s[..|s| - 1], keep);
    }
  }

  /** `s.findIndex(p)`: the first index whose element satisfies `p`, or -1. */
  function IndexWhere<T>(s: seq<T>, p: T -> bool): (i: int)
    ensures -1 <= i < |s|
    ensures i == -1 <==> forall k :: 0 <= k < |s| ==> !p(s[k])
    ensures 0 <= i ==> p(s[i]) && forall k :: 0 <= k < i ==> !p(s[k])
    decreases |s|
  {
    if s == [] then -1
    else if p(s[0]) then 0
    else
      var j := IndexWhere(s[1..], p);
      if j == -1 then -1 else j + 1
  }

  predicate NoDup<T(==)>(s: seq<T>) {
    forall i, j :: 0 <= i < j < |s| ==> s[i] != s[j]
  }

  /** `set.add(x)` on a JavaScript `Set`, whose iteration order is insertion
      order: a new element goes at the end, a present one changes nothing. */
  function AppendNew<T(==)>(seen: seq<T>, x: T): seq<T> {
    if x in seen then seen else seen + [x]
  }

  /** After `add`, the set holds `x` and what it held before, nothing else,
      and still no element twice. */
  lemma AppendNewMembers<T>(seen: seq<T>, x: T)
    ensures NoDup(seen) ==> NoDup(AppendNew(seen, x))
    ensures x in AppendNew(seen, x)
    ensures forall y :: y in AppendNew(seen, x) <==> y in seen || y == x
  {
  }

  ghost predicate TotalPreorder<T(!new)>(before: (T, T) -> bool) {
    && (forall x, y :: before(x, y) || before(y, x))
    && (forall x, y, z :: before(x, y) && before(y, z) ==> before(x, z))
  }

  ghost predicate SortedBy<T>(s: seq<T>, before: (T, T) -> bool) {
    forall i, j :: 0 <= i < j < |s| ==> before(s[i], s[j])
  }

  /** The comparator `(a, b) => key(b) - key(a)`: larger keys first. */
  function DescendingBy<T>(key: T -> real): (T, T) -> bool {
    (a: T, b: T) => key(a) >= key(b)
  }

  lemma DescendingByIsTotalPreorder<T(!new)>(key: T -> real)
    ensures TotalPreorder(DescendingBy(key))
  {
  }

  /** Inside the insertion pass for `s[i]`: the elements up to `i` other
      than the one at `j` are in order, and the one at `j` comes before all
      to its right. */
  ghost predicate Inserting<T>(s: seq<T>, i: nat, j: nat, before: (T, T) -> bool)
    requires j <= i < |s|
  {
    && (forall k, l :: 0 <= k < l <= i && k != j && l != j ==> before(s[k], s[l]))
    && (forall l :: j < l <= i ==> before(s[j], s[l]))
  }

  /** Swapping the moving element with its left neighbour, which must come
      after it, keeps the pass's invariant one place further left. */
  lemma InsertionSwap<T(!new)>(s: seq<T>, i: nat, j: nat, before: (T, T) -> bool)
    requires TotalPreorder(before)
    requires 0 < j <= i < |s| && Inserting(s, i, j, before) && !before(s[j - 1], s[j])
    ensures Inserting(s[j - 1 := s[j]][j := s[j - 1]], i, j - 1, before)
    ensures multiset(s[j - 1 := s[j]][j := s[j - 1]]) == multiset(s)
  {
    var t := s[j - 1 := s[j]][j := s[j - 1]];
    assert before(s[j], s[j - 1]);
    forall l | j - 1 < l <= i
      ensures before(t[j - 1], t[l])
    {
      if l > j {
        assert before(s[j - 1], s[l]);
      }
    }
  }

  /** The pass stops when the moving element reaches the front or a
      neighbour that may precede it: the prefix up to `i` is then sorted. */
  lemma InsertionDone<T(!new)>(s: seq<T>, i: nat, j: nat, before: (T, T) -> bool)
    requires TotalPreorder(before)
    requires j <= i < |s| && Inserting(s, i, j, before)
    requires j == 0 || before(s[j - 1], s[j])
    ensures SortedBy(s[..i + 1], before)
  {
    forall k, l | 0 <= k < l <= i
      ensures before(s[k], s[l])
    {
      if l == j && k < j - 1 {
        assert before(s[k], s[j - 1]);
      }
    }
  }

  /** `Array.prototype.sort` on an array: an element moves left past every
      neighbour that must come after it (a stable insertion sort). */
  method SortInPlace<T(!new)>(a: array<T>, before: (T, T) -> bool)
    requires TotalPreorder(before)
    modifies a
    ensures SortedBy(a[..], before)
    ensures multiset(a[..]) == old(multiset(a[..]))
  {
    var i := 0;
    while i < a.Length
      invariant 0 <= i <= a.Length
      invariant SortedBy(a[..i], before)
      invariant multiset(a[..]) == old(multiset(a[..]))
    {
      var j := i;
      while j > 0 && !before(a[j - 1], a[j])
        invariant 0 <= j <= i
        invariant Inserting(a[..], i, j, before)
        invariant multiset(a[..]) == old(multiset(a[..]))
      {
        ghost var s := a[..];
        InsertionSwap(s, i, j, before);
        a[j - 1], a[j] := a[j], a[j - 1];
        assert a[..] == s[j - 1 := s[j]][j := s[j - 1]];
        j := j - 1;
      }
      InsertionDone(a[..], i, j, before);
      assert a[..][..i + 1] == a[..i + 1];
      i := i + 1;
    }
    assert a[..a.Length] == a[..];
  }

  /** Sorting a fresh copy of `s`, as `.sort` does on the array that `map` or
      `filter` just returned. */
  method SortedCopy<T(!new)>(s: seq<T>, before: (T, T) -> bool) returns (r: seq<T>)
    requires TotalPreorder(before)
    ensures SortedBy(r, before)
    ensures multiset(r) == multiset(s)
  {
    var a := new T[|s|](i requires 0 <= i < |s| => s[i]);
    assert a[..] == s;
    SortInPlace(a, before);
    r := a[..];
  }
}

/** The group-by-and-sum step the analytics cards share: a `forEach` loop
    adds each counted position's `currentValue` to a `Record<string, number>`
    under its key and to a running total; `Object.entries` then lists the
    buckets in the order their keys were first seen. */
module Aggregation {
  import opened Seqs
  import opened Portfolio

  /** One `[name, value]` pair of `Object.entries(counts)`. */
  datatype Bucket = Bucket(name: string, value: real)

  function BucketValue(b: Bucket): real {
    b.value
  }

  function BucketName(b: Bucket): string {
    b.name
  }

  /** Where key `k` sits in the record's entries, or -1. */
  function FindBucket(bs: seq<Bucket>, k: string): (i: int)
    ensures -1 <= i < |bs|
    ensures i == -1 <==> k !in Names(bs)
    ensures 0 <= i ==> bs[i].name == k
  {
    IndexWhere(bs, (b: Bucket) => b.name == k)
  }

  /** `counts[k] = (counts[k] || 0) + v`: an existing key grows in place, a
      new one is appended after the others. */
  function AddTo(bs: seq<Bucket>, k: string, v: real): (r: seq<Bucket>)
    ensures |bs| <= |r| <= |bs| + 1
  {
    var i := FindBucket(bs, k);
    if i == -1 then bs + [Bucket(k, v)] else bs[i := Bucket(k, bs[i].value + v)]
  }

  /** The entries of the record after folding `key`/`val` over `s`. */
  function GroupSum<T>(s: seq<T>, key: T -> string, val: T -> real): seq<Bucket>
    decreases |s|
  {
    if s == [] then []
    else AddTo(GroupSum(s[..|s| - 1], key, val), key(s[|s| - 1]), val(s[|s| - 1]))
  }

  /** The fold's last step. */
  lemma GroupSumStep<T>(s: seq<T>, key: T -> string, val: T -> real)
    requires s != []
    ensures GroupSum(s, key, val) == AddTo(GroupSum(s[..|s| - 1], key, val), key(s[|s| - 1]), val(s[|s| - 1]))
  {
  }

  /** A new key is appended, a known one grows in place. */
  lemma AddToShape(bs: seq<Bucket>, k: string, v: real)
    ensures var i := FindBucket(bs, k);
      && (i == -1 ==> AddTo(bs, k, v) == bs + [Bucket(k, v)])
      && (i != -1 ==> AddTo(bs, k, v) == bs[i := Bucket(k, bs[i].value + v)])
  {
  }

  /** Whatever holds of the appended list holds of `AddTo` on a new key. */
  lemma AddToNewKey(bs: seq<Bucket>, k: string, v: real, P: seq<Bucket> -> bool)
    requires k !in Names(bs)
    requires P(bs + [Bucket(k, v)])
    ensures P(AddTo(bs, k, v))
  {
    AddToShape(bs, k, v);
  }

  function Names(bs: seq<Bucket>): (r: seq<string>)
    ensures |r| == |bs| && forall k :: 0 <= k < |bs| ==> r[k] == bs[k].name
  {
    seq(|bs|, k requires 0 <= k < |bs| => bs[k].name)
  }

  /** The elements of `s` filed under `name`. */
  function HasKey<T>(key: T -> string, name: string): T -> bool {
    (x: T) => key(x) == name
  }

  /** Every bucket holds the sum over exactly the elements filed under it. */
  ghost predicate BucketsAreSums<T>(bs: seq<Bucket>, s: seq<T>, key: T -> string, val: T -> real) {
    forall j :: 0 <= j < |bs| ==> bs[j].value == SumOf(Filter(s, HasKey(key, bs[j].name)), val)
  }

  /** The bucket names are exactly the keys that occur in `s`. */
  ghost predicate NamesAreKeys<T>(bs: seq<Bucket>, s: seq<T>, key: T -> string) {
    && (forall x :: x in s ==> key(x) in Names(bs))
    && (forall n :: n in Names(bs) ==> exists x :: x in s && key(x) == n)
  }

  /** Replacing one element changes a sum by the difference. */
  lemma SumOfUpdate<T>(s: seq<T>, i: nat, x: T, f: T -> real)
    requires i < |s|
    ensures SumOf(s[i := x], f) == SumOf(s, f) - f(s[i]) + f(x)
  {
    SumOfRemove(s, i, f);
    SumOfRemove(s[i := x], i, f);
    assert s[i := x][..i] == s[..i];
    assert s[i := x][i + 1..] == s[i + 1..];
  }

  /** Filtering out every element leaves nothing to add up. */
  lemma {:induction false} FilterNone<T>(s: seq<T>, keep: T -> bool)
    requires forall x :: x in s ==> !keep(x)
    ensures Filter(s, keep) == []
    decreases |s|
  {
    if s != [] {
      FilterNone(s[..|s| - 1], keep);
    }
  }

  /** Adding `v` under `k` keeps the names distinct and covers `k`. */
  lemma AddToNames(bs: seq<Bucket>, k: string, v: real)
    requires NoDup(Names(bs))
    ensures NoDup(Names(AddTo(bs, k, v)))
    ensures k in Names(AddTo(bs, k, v))
    ensures forall n :: n in Names(AddTo(bs, k, v)) <==> n in Names(bs) || n == k
  {
    var r := AddTo(bs, k, v);
    var i := FindBucket(bs, k);
    if i == -1 {
      assert Names(r) == Names(bs) + [k];
    } else {
      assert Names(r) == Names(bs);
    }
  }

  /** No key is listed twice. */
  lemma {:induction false} GroupSumNamesDistinct<T>(s: seq<T>, key: T -> string, val: T -> real)
    ensures NoDup(Names(GroupSum(s, key, val)))
    decreases |s|
  {
    if s != [] {
      GroupSumNamesDistinct(s[..|s| - 1], key, val);
      AddToNames(GroupSum(s[..|s| - 1], key, val), key(s[|s| - 1]), val(s[|s| - 1]));
    }
  }

  /** Adding the next element under its key keeps the names and the keys
      in step. */
  lemma AddToNamesAreKeys<T>(bs: seq<Bucket>, s: seq<T>, key: T -> string, v: real)
    requires s != []
    requires NamesAreKeys(bs, s[..|s| - 1], key) && NoDup(Names(bs))
    ensures NamesAreKeys(AddTo(bs, key(s[|s| - 1]), v), s, key)
  {
    var init, x := s[..|s| - 1], s[|s| - 1];
    var r := AddTo(bs, key(x), v);
    AddToNames(bs, key(x), v);
    assert s == init + [x];
    forall y | y in s
      ensures key(y) in Names(r)
    {
      if y != x {
        assert y in init;
      }
    }
    forall n | n in Names(r)
      ensures exists y :: y in s && key(y) == n
    {
      if n != key(x) {
        var y :| y in init && key(y) == n;
        assert y in s;
      }
    }
  }

  /** One bucket per distinct key, and no other. */
  lemma {:induction false} GroupSumNamesAreKeys<T>(s: seq<T>, key: T -> string, val: T -> real)
    ensures NamesAreKeys(GroupSum(s, key, val), s, key)
    decreases |s|
  {
    if s != [] {
      var init, last := s[..|s| - 1], s[|s| - 1];
      GroupSumNamesAreKeys(init, key, val);
      GroupSumNamesDistinct(init, key, val);
      AddToNamesAreKeys(GroupSum(init, key, val), s, key, val(last));
    }
  }

  /** `AddTo` adds `v` to the buckets' total, whether the key is new or not. */
  lemma AddToTotal(bs: seq<Bucket>, k: string, v: real)
    ensures SumOf(AddTo(bs, k, v), BucketValue) == SumOf(bs, BucketValue) + v
  {
    var i := FindBucket(bs, k);
    AddToShape(bs, k, v);
    if i == -1 {
      SumOfConcat(bs, [Bucket(k, v)], BucketValue);
      assert [Bucket(k, v)][..0] == [];
    } else {
      SumOfUpdate(bs, i, Bucket(k, bs[i].value + v), BucketValue);
    }
  }

  /** The bucket values add up to the sum over all of `s`. */
  lemma {:induction false} GroupSumTotal<T>(s: seq<T>, key: T -> string, val: T -> real)
    ensures SumOf(GroupSum(s, key, val), BucketValue) == SumOf(s, val)
    decreases |s|
  {
    if s != [] {
      var init := s[..|s| - 1];
      GroupSumTotal(init, key, val);
      GroupSumStep(s, key, val);
      AddToTotal(GroupSum(init, key, val), key(s[|s| - 1]), val(s[|s| - 1]));
    }
  }

  /** One more element changes only the sum filed under its own key. */
  lemma FilterStep<T>(s: seq<T>, key: T -> string, val: T -> real, n: string)
    requires s != []
    ensures SumOf(Filter(s, HasKey(key, n)), val)
      == SumOf(Filter(s[..|s| - 1], HasKey(key, n)), val) + (if key(s[|s| - 1]) == n then val(s[|s| - 1]) else 0.0)
  {
    var init := s[..|s| - 1];
    var last := s[|s| - 1];
    var keep := HasKey(key, n);
    var f := Filter(init, keep);
    assert Filter(s, keep) == f + (if keep(last) then [last] else []);
    if key(last) == n {
      assert (f + [last])[..|f|] == f;
      assert SumOf(f + [last], val) == SumOf(f, val) + val(last);
    } else {
      assert f + [] == f;
    }
  }

  /** A key seen for the first time gets a bucket holding just its value. */
  lemma NewKeySum<T>(s: seq<T>, key: T -> string, val: T -> real)
    requires s != []
    requires forall x :: x in s[..|s| - 1] ==> key(x) != key(s[|s| - 1])
    ensures SumOf(Filter(s, HasKey(key, key(s[|s| - 1]))), val) == val(s[|s| - 1])
  {
    var n := key(s[|s| - 1]);
    FilterStep(s, key, val, n);
    FilterNone(s[..|s| - 1], HasKey(key, n));
  }

  /** The step of `GroupSumBucketsAreSums` when the last key is new. */
  lemma AppendKeepsSums<T>(s: seq<T>, bs: seq<Bucket>, key: T -> string, val: T -> real)
    requires s != []
    requires BucketsAreSums(bs, s[..|s| - 1], key, val)
    requires forall x :: x in s[..|s| - 1] ==> key(x) in Names(bs)
    requires key(s[|s| - 1]) !in Names(bs)
    ensures BucketsAreSums(bs + [Bucket(key(s[|s| - 1]), val(s[|s| - 1]))], s, key, val)
  {
    var init, last := s[..|s| - 1], s[|s| - 1];
    forall x | x in init
      ensures key(x) != key(last)
    {
      assert key(x) in Names(bs);
    }
    NewKeySum(s, key, val);
    var r := bs + [Bucket(key(last), val(last))];
    forall j | 0 <= j < |r|
      ensures r[j].value == SumOf(Filter(s, HasKey(key, r[j].name)), val)
    {
      if j < |bs| {
        assert r[j] == bs[j] && Names(bs)[j] == bs[j].name;
        FilterStep(s, key, val, bs[j].name);
      }
    }
  }

  /** `AddTo` on a key not yet seen keeps every bucket a filtered sum. */
  lemma NewKeyKeepsSums<T>(s: seq<T>, bs: seq<Bucket>, key: T -> string, val: T -> real)
    requires s != []
    requires BucketsAreSums(bs, s[..|s| - 1], key, val)
    requires forall x :: x in s[..|s| - 1] ==> key(x) in Names(bs)
    requires key(s[|s| - 1]) !in Names(bs)
    ensures BucketsAreSums(AddTo(bs, key(s[|s| - 1]), val(s[|s| - 1])), s, key, val)
  {
    AppendKeepsSums(s, bs, key, val);
    AddToNewKey(bs, key(s[|s| - 1]), val(s[|s| - 1]), r => BucketsAreSums(r, s, key, val));
  }

  /** On a key already present `AddTo` grows that bucket and leaves the
      others as they were. */
  lemma AddToKnownAt(bs: seq<Bucket>, k: string, v: real)
    requires NoDup(Names(bs)) && k in Names(bs)
    ensures |AddTo(bs, k, v)| == |bs|
    ensures forall j :: 0 <= j < |bs| ==> AddTo(bs, k, v)[j] == if bs[j].name == k then Bucket(k, bs[j].value + v) else bs[j]
  {
    var i := FindBucket(bs, k);
    AddToShape(bs, k, v);
    forall j | 0 <= j < |bs| && j != i
      ensures bs[j].name != k
    {
      assert Names(bs)[j] != Names(bs)[i];
    }
  }

  /** `AddTo` on a key already seen keeps every bucket a filtered sum. */
  lemma KnownKeyKeepsSums<T>(s: seq<T>, bs: seq<Bucket>, key: T -> string, val: T -> real)
    requires s != []
    requires BucketsAreSums(bs, s[..|s| - 1], key, val)
    requires NoDup(Names(bs))
    requires key(s[|s| - 1]) in Names(bs)
    ensures BucketsAreSums(AddTo(bs, key(s[|s| - 1]), val(s[|s| - 1])), s, key, val)
  {
    var r := AddTo(bs, key(s[|s| - 1]), val(s[|s| - 1]));
    AddToKnownAt(bs, key(s[|s| - 1]), val(s[|s| - 1]));
    forall j | 0 <= j < |r|
      ensures r[j].value == SumOf(Filter(s, HasKey(key, r[j].name)), val)
    {
      FilterStep(s, key, val, bs[j].name);
    }
  }

  /** The step of `GroupSumBucketsAreSums`. */
  lemma GroupSumStepKeepsSums<T>(s: seq<T>, key: T -> string, val: T -> real)
    requires s != []
    requires BucketsAreSums(GroupSum(s[..|s| - 1], key, val), s[..|s| - 1], key, val)
    requires NamesAreKeys(GroupSum(s[..|s| - 1], key, val), s[..|s| - 1], key)
    requires NoDup(Names(GroupSum(s[..|s| - 1], key, val)))
    ensures BucketsAreSums(GroupSum(s, key, val), s, key, val)
  {
    var bs := GroupSum(s[..|s| - 1], key, val);
    GroupSumStep(s, key, val);
    if key(s[|s| - 1]) in Names(bs) {
      KnownKeyKeepsSums(s, bs, key, val);
    } else {
      NewKeyKeepsSums(s, bs, key, val);
    }
  }

  /** Each bucket's value is the sum of `val` over the elements with its key. */
  lemma {:induction false} GroupSumBucketsAreSums<T>(s: seq<T>, key: T -> string, val: T -> real)
    ensures BucketsAreSums(GroupSum(s, key, val), s, key, val)
    decreases |s|
  {
    if s != [] {
      var init := s[..|s| - 1];
      GroupSumBucketsAreSums(init, key, val);
      GroupSumNamesAreKeys(init, key, val);
      GroupSumNamesDistinct(init, key, val);
      GroupSumStepKeepsSums(s, key, val);
    }
  }

  /** The accumulation loop: for each position `counted` admits, add its
      `currentValue` under `key(p)` and to the total. */
  method Accumulate(ps: seq<Position>, counted: Position -> bool, key: Position -> string)
    returns (counts: seq<Bucket>, total: real)
    ensures counts == GroupSum(Filter(ps, counted), key, CurrentValueOf)
    ensures total == SumOf(Filter(ps, counted), CurrentValueOf)
  {
    counts := [];
    total := 0.0;
    for i := 0 to |ps|
      invariant counts == GroupSum(Filter(ps[..i], counted), key, CurrentValueOf)
      invariant total == SumOf(Filter(ps[..i], counted), CurrentValueOf)
    {
      var p := ps[i];
      assert ps[..i + 1][..i] == ps[..i];
      if counted(p) {
        var f := Filter(ps[..i], counted);
        assert Filter(ps[..i + 1], counted) == f + [p];
        assert (f + [p])[..|f + [p]| - 1] == f;
        assert GroupSum(f + [p], key, CurrentValueOf) == AddTo(GroupSum(f, key, CurrentValueOf), key(p), CurrentValueOf(p));
        counts := AddTo(counts, key(p), p.currentValue);
        total := total + p.currentValue;
        assert counts == GroupSum(Filter(ps[..i + 1], counted), key, CurrentValueOf);
      } else {
        assert Filter(ps[..i + 1], counted) == Filter(ps[..i], counted) + [];
        assert Filter(ps[..i + 1], counted) == Filter(ps[..i], counted);
      }
    }
    assert ps[..|ps|] == ps;
  }

  /** One row of a card's data: name, summed value and percentage. */
  datatype Slice = Slice(name: string, value: real, percent: real)

  function SliceValue(s: Slice): real {
    s.value
  }

  function SlicePercent(s: Slice): real {
    s.percent
  }

  /** `total > 0 ? (value / total) * 100 : 0`. */
  function PercentOf(value: real, total: real): (r: real)
    ensures total <= 0.0 ==> r == 0.0
    ensures total > 0.0 ==> r * total == value * 100.0
  {
    if total > 0.0 then value / total * 100.0 else 0.0
  }

  /** The percentage the asset and sector cards show. */
  function Guarded(total: real): real -> real {
    v => PercentOf(v, total)
  }

  /** `(value / total) * 100` with no guard, as the state card computes it
      once it knows the total is not zero. */
  function Unguarded(total: real): real -> real
    requires total != 0.0
  {
    v => v / total * 100.0
  }

  /** The relabelling of cards that show bucket names as they are. */
  function SameName(name: string): string {
    name
  }

  /** `.map(([name, value]) => ({ name: relabel(name), value, percent: pct(value) }))`. */
  function ToSlices(bs: seq<Bucket>, relabel: string -> string, pct: real -> real): (r: seq<Slice>)
    ensures |r| == |bs|
    ensures forall k :: 0 <= k < |bs| ==> r[k] == Slice(relabel(bs[k].name), bs[k].value, pct(bs[k].value))
  {
    seq(|bs|, k requires 0 <= k < |bs| => Slice(relabel(bs[k].name), bs[k].value, pct(bs[k].value)))
  }

  /** Relabelling and adding percentages keeps each bucket's value. */
  lemma {:induction false} ToSlicesTotal(bs: seq<Bucket>, relabel: string -> string, pct: real -> real)
    ensures SumOf(ToSlices(bs, relabel, pct), SliceValue) == SumOf(bs, BucketValue)
    decreases |bs|
  {
    if bs != [] {
      assert ToSlices(bs, relabel, pct)[..|bs| - 1] == ToSlices(bs[..|bs| - 1], relabel, pct);
      ToSlicesTotal(bs[..|bs| - 1], relabel, pct);
    }
  }

  /** `a/t*100 + b/t*100 == (a+b)/t*100`. */
  lemma PercentAdd(a: real, b: real, t: real)
    requires t > 0.0
    ensures PercentOf(a, t) + PercentOf(b, t) == PercentOf(a + b, t)
  {
    assert a / t + b / t == (a + b) / t;
  }

  /** When the total is positive the percentages add up to the buckets'
      share of it. */
  lemma {:induction false} ToSlicesPercentTotal(bs: seq<Bucket>, relabel: string -> string, total: real)
    requires total > 0.0
    ensures SumOf(ToSlices(bs, relabel, Guarded(total)), SlicePercent)
      == PercentOf(SumOf(bs, BucketValue), total)
    decreases |bs|
  {
    var pct := Guarded(total);
    if bs == [] {
      assert PercentOf(0.0, total) == 0.0;
    } else {
      var init := bs[..|bs| - 1];
      assert ToSlices(bs, relabel, pct)[..|bs| - 1] == ToSlices(init, relabel, pct);
      ToSlicesPercentTotal(init, relabel, total);
      PercentAdd(SumOf(init, BucketValue), bs[|bs| - 1].value, total);
    }
  }

  /** `.slice(0, n)`. */
  function Take<T>(s: seq<T>, n: nat): (r: seq<T>)
    ensures |r| == if |s| < n then |s| else n
    ensures IsPrefixOf(r, s)
  {
    if |s| <= n then s else s[..n]
  }

  ghost predicate IsPrefixOf<T>(p: seq<T>, s: seq<T>) {
    |p| <= |s| && p == s[..|p|]
  }

  /** The first `n` rows after a descending sort: every row left out has a
      value no larger than any row kept. */
  lemma TopRowsAreLargest(sorted: seq<Slice>, n: nat)
    requires SortedBy(sorted, DescendingBy(SliceValue))
    ensures multiset(sorted) == multiset(Take(sorted, n)) + multiset(sorted[|Take(sorted, n)|..])
    ensures forall x, k :: x in sorted[|Take(sorted, n)|..] && 0 <= k < |Take(sorted, n)| ==>
      Take(sorted, n)[k].value >= x.value
  {
    var m := |Take(sorted, n)|;
    assert sorted == sorted[..m] + sorted[m..];
    forall x, k | x in sorted[m..] && 0 <= k < m
      ensures Take(sorted, n)[k].value >= x.value
    {
      var j :| 0 <= j < |sorted[m..]| && sorted[m..][j] == x;
      assert Take(sorted, n)[k] == sorted[k] && sorted[m + j] == x;
      assert DescendingBy(SliceValue)(sorted[k], sorted[m + j]);
      assert SliceValue(sorted[k]) >= SliceValue(x);
    }
  }

  /** Sorts the rows by value, largest first, and keeps the first `n`: the
      kept rows are sorted, come from `rows`, and none left out is larger
      than a kept one. */
  method TopByValue(rows: seq<Slice>, n: nat) returns (r: seq<Slice>)
    ensures |r| == if |rows| < n then |rows| else n
    ensures SortedBy(r, DescendingBy(SliceValue))
    ensures multiset(r) <= multiset(rows)
    ensures forall x, k :: x in multiset(rows) - multiset(r) && 0 <= k < |r| ==> r[k].value >= x.value
  {
    DescendingByIsTotalPreorder(SliceValue);
    var sorted := SortedCopy(rows, DescendingBy(SliceValue));
    TopRowsAreLargest(sorted, n);
    r := Take(sorted, n);
    assert multiset(rows) - multiset(r) == multiset(sorted[|r|..]);
  }
}

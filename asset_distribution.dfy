/** `AssetDistributionCard`: the value held in each asset class, its share
    of the total, largest first. */
module AssetDistribution {
  import opened Seqs
  import opened Text
  import opened Portfolio
  import opened Aggregation

  /** `p.assetClass || 'OTHER'`: a position without a class is filed with
      the `OTHER` class. */
  function ClassKey(p: Position): (k: string)
    ensures p.assetClass.None? ==> k == "OTHER"
    ensures p.assetClass.Some? ==> k == AssetClassName(p.assetClass.value)
  {
    if p.assetClass.Some? then AssetClassName(p.assetClass.value) else "OTHER"
  }

  /** Every position is counted. */
  predicate Everything(p: Position) {
    true
  }

  /** `name.replace('_', ' ')`. */
  function Label(name: string): (r: string)
    ensures |r| == |name|
  {
    ReplaceFirst(name, '_', ' ')
  }

  /** Only the first underscore becomes a space. */
  lemma LabelKeepsLaterUnderscores()
    ensures Label("NON_US_EQUITY") == "NON US_EQUITY"
  {
    assert "NON_US_EQUITY" == "NON" + ['_'] + "US_EQUITY";
    ReplaceFirstAt("NON", '_', ' ', "US_EQUITY");
    assert "NON" + [' '] + "US_EQUITY" == "NON US_EQUITY";
  }

  /** A single underscore becomes a space; a name without one is shown as
      it is. */
  lemma LabelOfSimpleNames()
    ensures Label("US_EQUITY") == "US EQUITY"
    ensures Label("CASH") == "CASH"
  {
    assert "US_EQUITY" == "US" + ['_'] + "EQUITY";
    ReplaceFirstAt("US", '_', ' ', "EQUITY");
    assert "US" + [' '] + "EQUITY" == "US EQUITY";
    ReplaceFirstAbsent("CASH", '_', ' ');
  }

  function Total(ps: seq<Position>): real {
    SumOf(ps, CurrentValueOf)
  }

  /** The entries of `counts`, in the order their classes first appear. */
  function Buckets(ps: seq<Position>): seq<Bucket> {
    GroupSum(ps, ClassKey, CurrentValueOf)
  }

  /** The rows before sorting. */
  function Rows(ps: seq<Position>): seq<Slice> {
    ToSlices(Buckets(ps), Label, Guarded(Total(ps)))
  }

  /** The `useMemo` body: accumulate, map to rows, sort by value descending. */
  method Distribution(ps: seq<Position>) returns (r: seq<Slice>)
    ensures SortedBy(r, DescendingBy(SliceValue))
    ensures multiset(r) == multiset(Rows(ps))
  {
    var counts, total := Accumulate(ps, Everything, ClassKey);
    FilterKeepsAll(ps, Everything);
    var rows := ToSlices(counts, Label, Guarded(total));
    DescendingByIsTotalPreorder(SliceValue);
    r := SortedCopy(rows, DescendingBy(SliceValue));
  }

  /** One bucket per distinct class key, each holding the sum of
      `currentValue` over the positions filed under it; together they hold
      the total. */
  lemma BucketsPartitionTotal(ps: seq<Position>)
    ensures NoDup(Names(Buckets(ps)))
    ensures NamesAreKeys(Buckets(ps), ps, ClassKey)
    ensures BucketsAreSums(Buckets(ps), ps, ClassKey, CurrentValueOf)
    ensures SumOf(Buckets(ps), BucketValue) == Total(ps)
  {
    GroupSumNamesDistinct(ps, ClassKey, CurrentValueOf);
    GroupSumNamesAreKeys(ps, ClassKey, CurrentValueOf);
    GroupSumBucketsAreSums(ps, ClassKey, CurrentValueOf);
    GroupSumTotal(ps, ClassKey, CurrentValueOf);
  }

  /** Each row carries its bucket's value, and its percentage of the total
      or 0 when the total is not positive. */
  lemma RowsShowBuckets(ps: seq<Position>)
    ensures |Rows(ps)| == |Buckets(ps)|
    ensures forall k :: 0 <= k < |Rows(ps)| ==>
      && Rows(ps)[k].name == Label(Buckets(ps)[k].name)
      && Rows(ps)[k].value == Buckets(ps)[k].value
      && (Total(ps) > 0.0 ==> Rows(ps)[k].percent * Total(ps) == Rows(ps)[k].value * 100.0)
      && (Total(ps) <= 0.0 ==> Rows(ps)[k].percent == 0.0)
  {
  }

  /** The sorted rows still add up to the total, and when it is positive
      their percentages add up to 100. */
  lemma RowsAddUp(ps: seq<Position>, r: seq<Slice>)
    requires multiset(r) == multiset(Rows(ps))
    ensures SumOf(r, SliceValue) == Total(ps)
    ensures Total(ps) > 0.0 ==> SumOf(r, SlicePercent) == 100.0
  {
    SumOfPermutation(r, Rows(ps), SliceValue);
    SumOfPermutation(r, Rows(ps), SlicePercent);
    ToSlicesTotal(Buckets(ps), Label, Guarded(Total(ps)));
    GroupSumTotal(ps, ClassKey, CurrentValueOf);
    if Total(ps) > 0.0 {
      ToSlicesPercentTotal(Buckets(ps), Label, Total(ps));
    }
  }
}

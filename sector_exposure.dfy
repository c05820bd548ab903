/** `SectorExposureCard`: the value held in each sector outside cash, its
    share of the non-cash total, the six largest first. */
module SectorExposure {
  import opened Wrappers
  import opened Seqs
  import opened Portfolio
  import opened Aggregation

  /** `p.assetClass !== 'CASH'`: a position without a class is counted. */
  predicate NotCash(p: Position) {
    p.assetClass != Some(Cash)
  }

  /** `p.sector || 'Unclassified'`. */
  function SectorKey(p: Position): (k: string)
    ensures !Truthy(p.sector) ==> k == "Unclassified"
    ensures Truthy(p.sector) ==> k == p.sector.value
  {
    if Truthy(p.sector) then p.sector.value else "Unclassified"
  }

  /** The number of rows the card keeps. */
  const TopSectors: nat := 6

  function Counted(ps: seq<Position>): seq<Position> {
    Filter(ps, NotCash)
  }

  function Total(ps: seq<Position>): real {
    SumOf(Counted(ps), CurrentValueOf)
  }

  function Buckets(ps: seq<Position>): seq<Bucket> {
    GroupSum(Counted(ps), SectorKey, CurrentValueOf)
  }

  /** The rows before sorting and cutting. */
  function Rows(ps: seq<Position>): seq<Slice> {
    ToSlices(Buckets(ps), SameName, Guarded(Total(ps)))
  }

  /** The `useMemo` body: accumulate non-cash positions, map to rows, sort by
      value descending, keep the first six. */
  method Exposure(ps: seq<Position>) returns (r: seq<Slice>)
    ensures |r| == if |Rows(ps)| < TopSectors then |Rows(ps)| else TopSectors
    ensures SortedBy(r, DescendingBy(SliceValue))
    ensures multiset(r) <= multiset(Rows(ps))
    ensures forall x, k :: x in multiset(Rows(ps)) - multiset(r) && 0 <= k < |r| ==> r[k].value >= x.value
  {
    var counts, total := Accumulate(ps, NotCash, SectorKey);
    var rows := ToSlices(counts, SameName, Guarded(total));
    r := TopByValue(rows, TopSectors);
  }

  /** A cash position adds nothing to any bucket or to the total. */
  lemma CashIsExcluded(ps: seq<Position>, c: Position)
    requires c.assetClass == Some(Cash)
    ensures Counted(ps + [c]) == Counted(ps)
    ensures Total(ps + [c]) == Total(ps) && Rows(ps + [c]) == Rows(ps)
  {
    assert (ps + [c])[..|ps|] == ps;
    assert Counted(ps + [c]) == Counted(ps) + [];
  }

  /** A non-cash position adds its value to the total, under its sector. */
  lemma NonCashIsCounted(ps: seq<Position>, p: Position)
    requires NotCash(p)
    ensures Total(ps + [p]) == Total(ps) + p.currentValue
    ensures SectorKey(p) in Names(Buckets(ps + [p]))
  {
    assert (ps + [p])[..|ps|] == ps;
    assert Counted(ps + [p]) == Counted(ps) + [p];
    assert (Counted(ps) + [p])[..|Counted(ps)|] == Counted(ps);
    GroupSumNamesAreKeys(Counted(ps + [p]), SectorKey, CurrentValueOf);
  }

  /** One bucket per sector, each holding the sum over the non-cash
      positions of that sector; together they hold the non-cash total. */
  lemma BucketsPartitionTotal(ps: seq<Position>)
    ensures NoDup(Names(Buckets(ps)))
    ensures NamesAreKeys(Buckets(ps), Counted(ps), SectorKey)
    ensures BucketsAreSums(Buckets(ps), Counted(ps), SectorKey, CurrentValueOf)
    ensures SumOf(Rows(ps), SliceValue) == Total(ps)
  {
    GroupSumNamesDistinct(Counted(ps), SectorKey, CurrentValueOf);
    GroupSumNamesAreKeys(Counted(ps), SectorKey, CurrentValueOf);
    GroupSumBucketsAreSums(Counted(ps), SectorKey, CurrentValueOf);
    GroupSumTotal(Counted(ps), SectorKey, CurrentValueOf);
    ToSlicesTotal(Buckets(ps), SameName, Guarded(Total(ps)));
  }
}

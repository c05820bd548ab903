/** `GeoConcentrationCard`: the value of municipal bonds held per state, its
    share of all such bonds, the five largest first. */
module GeoConcentration {
  import opened Wrappers
  import opened Seqs
  import opened Portfolio
  import opened Aggregation

  /** `p.assetClass === 'MUNI_BOND' && p.stateCode`. */
  predicate StateMuni(p: Position) {
    p.assetClass == Some(MuniBond) && Truthy(p.stateCode)
  }

  /** The state a counted position is filed under. */
  function StateKey(p: Position): (k: string)
    ensures StateMuni(p) ==> k == p.stateCode.value && k != ""
  {
    if p.stateCode.Some? then p.stateCode.value else ""
  }

  /** The number of rows the card keeps. */
  const TopStates: nat := 5

  function Counted(ps: seq<Position>): seq<Position> {
    Filter(ps, StateMuni)
  }

  function MuniTotal(ps: seq<Position>): real {
    SumOf(Counted(ps), CurrentValueOf)
  }

  function Buckets(ps: seq<Position>): seq<Bucket> {
    GroupSum(Counted(ps), StateKey, CurrentValueOf)
  }

  /** The rows before sorting and cutting; the percentage divides by the muni
      total without a sign check. */
  function Rows(ps: seq<Position>): seq<Slice>
    requires MuniTotal(ps) != 0.0
  {
    ToSlices(Buckets(ps), SameName, Unguarded(MuniTotal(ps)))
  }

  /** The `useMemo` body: accumulate, return nothing when the muni total is
      0, otherwise map to rows, sort by value descending, keep five. */
  method Concentration(ps: seq<Position>) returns (r: seq<Slice>)
    ensures MuniTotal(ps) == 0.0 ==> r == []
    ensures MuniTotal(ps) != 0.0 ==>
      && |r| == (if |Rows(ps)| < TopStates then |Rows(ps)| else TopStates)
      && SortedBy(r, DescendingBy(SliceValue))
      && multiset(r) <= multiset(Rows(ps))
      && (forall x, k :: x in multiset(Rows(ps)) - multiset(r) && 0 <= k < |r| ==> r[k].value >= x.value)
  {
    var counts, muniTotal := Accumulate(ps, StateMuni, StateKey);
    if muniTotal == 0.0 {
      return [];
    }
    var rows := ToSlices(counts, SameName, Unguarded(muniTotal));
    r := TopByValue(rows, TopStates);
  }

  /** Each row's percentage is its value over the muni total. */
  lemma RowPercent(ps: seq<Position>)
    requires MuniTotal(ps) != 0.0
    ensures forall k :: 0 <= k < |Rows(ps)| ==> Rows(ps)[k].percent * MuniTotal(ps) == Rows(ps)[k].value * 100.0
  {
    forall k | 0 <= k < |Rows(ps)|
      ensures Rows(ps)[k].percent * MuniTotal(ps) == Rows(ps)[k].value * 100.0
    {
      DivTimes(Rows(ps)[k].value, MuniTotal(ps));
    }
  }

  lemma DivTimes(v: real, t: real)
    requires t != 0.0
    ensures v / t * 100.0 * t == v * 100.0
  {
  }

  /** Only municipal bonds with a state code count. */
  lemma OthersAreIgnored(ps: seq<Position>, p: Position)
    requires !StateMuni(p)
    ensures Counted(ps + [p]) == Counted(ps)
    ensures MuniTotal(ps + [p]) == MuniTotal(ps) && Buckets(ps + [p]) == Buckets(ps)
  {
    assert (ps + [p])[..|ps|] == ps;
    assert Counted(ps + [p]) == Counted(ps) + [];
  }

  /** One bucket per state, each holding the sum over that state's bonds;
      the buckets add up to the muni total. */
  lemma BucketsPartitionTotal(ps: seq<Position>)
    ensures NoDup(Names(Buckets(ps)))
    ensures NamesAreKeys(Buckets(ps), Counted(ps), StateKey)
    ensures BucketsAreSums(Buckets(ps), Counted(ps), StateKey, CurrentValueOf)
    ensures SumOf(Buckets(ps), BucketValue) == MuniTotal(ps)
  {
    GroupSumNamesDistinct(Counted(ps), StateKey, CurrentValueOf);
    GroupSumNamesAreKeys(Counted(ps), StateKey, CurrentValueOf);
    GroupSumBucketsAreSums(Counted(ps), StateKey, CurrentValueOf);
    GroupSumTotal(Counted(ps), StateKey, CurrentValueOf);
  }
}

/** `PortfolioHealthCard`: the share of the positions' value held in
    equities, fixed income, cash and options. */
module PortfolioHealth {
  import opened Wrappers
  import opened Seqs
  import opened Text
  import opened Portfolio

  /** `positions.reduce((sum, p) => sum + p.currentValue, 0)`. */
  function TotalValue(ps: seq<Position>): real {
    SumOf(ps, CurrentValueOf)
  }

  /** `getWeight(filter)`: 0 for a zero total, else the filtered sum as a
      percentage of the total. */
  function GetWeight(ps: seq<Position>, filter: Position -> bool): (w: real)
    ensures TotalValue(ps) == 0.0 ==> w == 0.0
    ensures TotalValue(ps) != 0.0 ==> w * TotalValue(ps) == SumOf(Filter(ps, filter), CurrentValueOf) * 100.0
  {
    if TotalValue(ps) == 0.0 then 0.0
    else SumOf(Filter(ps, filter), CurrentValueOf) / TotalValue(ps) * 100.0
  }

  predicate IsEquity(p: Position) {
    p.assetClass == Some(UsEquity) || p.assetClass == Some(NonUsEquity)
  }

  predicate IsFixedIncome(p: Position) {
    p.assetClass == Some(FixedIncome) || p.assetClass == Some(MuniBond)
  }

  predicate IsCash(p: Position) {
    p.assetClass == Some(Cash)
  }

  /** `description.includes('CALL') || description.includes('PUT')`, case
      sensitive, whatever the asset class. */
  predicate IsOption(p: Position) {
    Contains(p.description, "CALL") || Contains(p.description, "PUT")
  }

  /** The four gauges of the card. */
  datatype Composition = Composition(equity: real, fixedIncome: real, cash: real, options: real)

  function Weights(ps: seq<Position>): Composition {
    Composition(GetWeight(ps, IsEquity), GetWeight(ps, IsFixedIncome), GetWeight(ps, IsCash), GetWeight(ps, IsOption))
  }

  predicate NonNegative(ps: seq<Position>) {
    forall i :: 0 <= i < |ps| ==> ps[i].currentValue >= 0.0
  }

  /** Three filters that never hold together pick out parts of the whole. */
  lemma {:induction false} DisjointSums(s: seq<Position>, a: Position -> bool, b: Position -> bool, c: Position -> bool)
    requires NonNegative(s)
    requires forall x :: !(a(x) && b(x)) && !(a(x) && c(x)) && !(b(x) && c(x))
    ensures 0.0 <= SumOf(Filter(s, a), CurrentValueOf)
    ensures 0.0 <= SumOf(Filter(s, b), CurrentValueOf)
    ensures 0.0 <= SumOf(Filter(s, c), CurrentValueOf)
    ensures SumOf(Filter(s, a), CurrentValueOf) + SumOf(Filter(s, b), CurrentValueOf)
      + SumOf(Filter(s, c), CurrentValueOf) <= SumOf(s, CurrentValueOf)
    decreases |s|
  {
    if s != [] {
      var init, last := s[..|s| - 1], s[|s| - 1];
      DisjointSums(init, a, b, c);
      LastStep(s, a);
      LastStep(s, b);
      LastStep(s, c);
    }
  }

  /** The last position adds its value to a filtered sum exactly when the
      filter keeps it. */
  lemma LastStep(s: seq<Position>, keep: Position -> bool)
    requires s != []
    ensures SumOf(Filter(s, keep), CurrentValueOf)
      == SumOf(Filter(s[..|s| - 1], keep), CurrentValueOf) + (if keep(s[|s| - 1]) then s[|s| - 1].currentValue else 0.0)
  {
    var f := Filter(s[..|s| - 1], keep);
    if keep(s[|s| - 1]) {
      assert (f + [s[|s| - 1]])[..|f|] == f;
    } else {
      assert f + [] == f;
    }
  }

  /** Parts of a positive whole, as percentages, add up to at most 100. */
  lemma SharesWithinHundred(x: real, y: real, z: real, t: real)
    requires t > 0.0 && 0.0 <= x && 0.0 <= y && 0.0 <= z && x + y + z <= t
    ensures 0.0 <= x / t * 100.0 && 0.0 <= y / t * 100.0 && 0.0 <= z / t * 100.0
    ensures x / t * 100.0 + y / t * 100.0 + z / t * 100.0 <= 100.0
  {
    assert x / t + y / t + z / t == (x + y + z) / t;
    assert (x + y + z) / t <= t / t;
  }

  /** With no negative values the equity, fixed-income and cash gauges each
      lie in [0, 100] and together do not exceed 100. */
  lemma ClassWeightsWithinHundred(ps: seq<Position>)
    requires NonNegative(ps)
    ensures var w := Weights(ps);
      && 0.0 <= w.equity && 0.0 <= w.fixedIncome && 0.0 <= w.cash
      && w.equity + w.fixedIncome + w.cash <= 100.0
  {
    DisjointSums(ps, IsEquity, IsFixedIncome, IsCash);
    if TotalValue(ps) != 0.0 {
      SharesWithinHundred(SumOf(Filter(ps, IsEquity), CurrentValueOf), SumOf(Filter(ps, IsFixedIncome), CurrentValueOf),
        SumOf(Filter(ps, IsCash), CurrentValueOf), TotalValue(ps));
    }
  }

  /** A filter every position passes gets the whole 100 (for any nonzero
      total, whatever its sign). */
  lemma WholeIsHundred(ps: seq<Position>, filter: Position -> bool)
    requires forall i :: 0 <= i < |ps| ==> filter(ps[i])
    requires TotalValue(ps) != 0.0
    ensures GetWeight(ps, filter) == 100.0
  {
    FilterKeepsAll(ps, filter);
    var t := TotalValue(ps);
    assert t / t == 1.0;
  }
}

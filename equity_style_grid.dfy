/** `EquityStyleGrid`: equity value spread over a 3x3 size/style box. The
    cell of a position is a stand-in derived from its symbol's character
    codes, not real style data. */
module EquityStyleGrid {
  import opened Seqs
  import opened Portfolio
  import opened Aggregation
  import PortfolioHealth

  /** The number of cells: rows Large, Mid, Small by columns Value, Blend,
      Growth. */
  const Cells: nat := 9

  /** `symbol.split('').reduce((a, b) => a + b.charCodeAt(0), 0)`. */
  function CharCodeSum(symbol: string): nat
    decreases |symbol|
  {
    if symbol == [] then 0 else CharCodeSum(symbol[..|symbol| - 1]) + symbol[|symbol| - 1] as nat
  }

  /** `hash % 9`. */
  function StyleCell(symbol: string): (k: nat)
    ensures k < Cells
    ensures (CharCodeSum(symbol) - k) % Cells == 0
  {
    CharCodeSum(symbol) % Cells
  }

  /** Symbols whose character codes add up alike share a cell, whatever
      their letters' order. */
  lemma SameCodeSumSameCell(a: string, b: string)
    requires CharCodeSum(a) == CharCodeSum(b)
    ensures StyleCell(a) == StyleCell(b)
  {
  }

  /** The sum of the codes does not depend on their order. */
  lemma {:induction false} CharCodeSumConcat(a: string, b: string)
    ensures CharCodeSum(a + b) == CharCodeSum(a) + CharCodeSum(b)
    decreases |b|
  {
    if b == [] {
      assert a + b == a;
    } else {
      assert (a + b)[..|a + b| - 1] == a + b[..|b| - 1];
      CharCodeSumConcat(a, b[..|b| - 1]);
    }
  }

  /** Swapping two halves of a symbol keeps its cell. */
  lemma RotatedSymbolSameCell(a: string, b: string)
    ensures StyleCell(a + b) == StyleCell(b + a)
  {
    CharCodeSumConcat(a, b);
    CharCodeSumConcat(b, a);
  }

  /** The values added into each cell, position by position. */
  function CellSums(ps: seq<Position>): (m: seq<real>)
    ensures |m| == Cells
    decreases |ps|
  {
    if ps == [] then seq(Cells, _ => 0.0)
    else
      var m := CellSums(ps[..|ps| - 1]);
      var p := ps[|ps| - 1];
      if PortfolioHealth.IsEquity(p) then m[StyleCell(p.symbol) := m[StyleCell(p.symbol)] + p.currentValue] else m
  }

  function EquityTotal(ps: seq<Position>): real {
    SumOf(Filter(ps, PortfolioHealth.IsEquity), CurrentValueOf)
  }

  function Id(x: real): real {
    x
  }

  /** `matrix.map(val => totalEquity > 0 ? (val / totalEquity) * 100 : 0)`. */
  function Percents(xs: seq<real>, total: real): (r: seq<real>)
    ensures |r| == |xs|
    ensures forall k :: 0 <= k < |xs| ==> r[k] == PercentOf(xs[k], total)
  {
    seq(|xs|, k requires 0 <= k < |xs| => PercentOf(xs[k], total))
  }

  /** The `useMemo` body: a zeroed 9-slot matrix, one pass adding each
      equity position's value into its cell and into the total, then
      percentages. */
  method StyleGrid(ps: seq<Position>) returns (cells: seq<real>)
    ensures |cells| == Cells
    ensures cells == Percents(CellSums(ps), EquityTotal(ps))
    ensures EquityTotal(ps) <= 0.0 ==> forall k :: 0 <= k < Cells ==> cells[k] == 0.0
  {
    var matrix := new real[Cells](_ => 0.0);
    var totalEquity := 0.0;
    assert matrix[..] == CellSums([]);
    for i := 0 to |ps|
      invariant matrix[..] == CellSums(ps[..i])
      invariant totalEquity == EquityTotal(ps[..i])
    {
      var p := ps[i];
      assert ps[..i + 1][..i] == ps[..i];
      if PortfolioHealth.IsEquity(p) {
        var val := p.currentValue;
        totalEquity := totalEquity + val;
        var f := Filter(ps[..i], PortfolioHealth.IsEquity);
        assert Filter(ps[..i + 1], PortfolioHealth.IsEquity) == f + [p];
        assert (f + [p])[..|f|] == f;
        assert SumOf(f + [p], CurrentValueOf) == SumOf(f, CurrentValueOf) + p.currentValue;
        var index := StyleCell(p.symbol);
        matrix[index] := matrix[index] + val;
      } else {
        assert Filter(ps[..i + 1], PortfolioHealth.IsEquity) == Filter(ps[..i], PortfolioHealth.IsEquity) + [];
        assert Filter(ps[..i + 1], PortfolioHealth.IsEquity) == Filter(ps[..i], PortfolioHealth.IsEquity);
      }
    }
    assert ps[..|ps|] == ps;
    cells := Percents(matrix[..], totalEquity);
  }

  /** Each cell holds the sum over the equity positions that hash to it. */
  function InCell(k: nat): Position -> bool {
    p => PortfolioHealth.IsEquity(p) && StyleCell(p.symbol) == k
  }

  lemma {:induction false} CellIsFilteredSum(ps: seq<Position>, k: nat)
    requires k < Cells
    ensures CellSums(ps)[k] == SumOf(Filter(ps, InCell(k)), CurrentValueOf)
    decreases |ps|
  {
    if ps != [] {
      var init, p := ps[..|ps| - 1], ps[|ps| - 1];
      CellIsFilteredSum(init, k);
      var f := Filter(init, InCell(k));
      if InCell(k)(p) {
        assert (f + [p])[..|f|] == f;
      } else {
        assert f + [] == f;
      }
    }
  }

  /** Only US and non-US equities reach the grid. */
  lemma NonEquityIsIgnored(ps: seq<Position>, p: Position)
    requires !PortfolioHealth.IsEquity(p)
    ensures CellSums(ps + [p]) == CellSums(ps)
    ensures EquityTotal(ps + [p]) == EquityTotal(ps)
  {
    assert (ps + [p])[..|ps|] == ps;
    assert Filter(ps + [p], PortfolioHealth.IsEquity) == Filter(ps, PortfolioHealth.IsEquity) + [];
    assert Filter(ps + [p], PortfolioHealth.IsEquity) == Filter(ps, PortfolioHealth.IsEquity);
  }

  /** The cells together hold the equity total. */
  lemma {:induction false} CellSumsTotal(ps: seq<Position>)
    ensures SumOf(CellSums(ps), Id) == EquityTotal(ps)
    decreases |ps|
  {
    if ps == [] {
      ZerosSum(Cells);
    } else {
      var init, p := ps[..|ps| - 1], ps[|ps| - 1];
      CellSumsTotal(init);
      var f := Filter(init, PortfolioHealth.IsEquity);
      if PortfolioHealth.IsEquity(p) {
        var m := CellSums(init);
        SumOfUpdate(m, StyleCell(p.symbol), m[StyleCell(p.symbol)] + p.currentValue, Id);
        assert (f + [p])[..|f|] == f;
      } else {
        assert f + [] == f;
      }
    }
  }

  lemma {:induction false} ZerosSum(n: nat)
    ensures SumOf(seq(n, _ => 0.0), Id) == 0.0
  {
    if n > 0 {
      assert seq(n, _ => 0.0)[..n - 1] == seq(n - 1, _ => 0.0);
      ZerosSum(n - 1);
    }
  }

  /** The percentages of parts of a positive total add up to the parts'
      share of it. */
  lemma {:induction false} PercentsSum(xs: seq<real>, total: real)
    requires total > 0.0
    ensures SumOf(Percents(xs, total), Id) == PercentOf(SumOf(xs, Id), total)
    decreases |xs|
  {
    if xs == [] {
      assert PercentOf(0.0, total) == 0.0;
    } else {
      var init := xs[..|xs| - 1];
      assert Percents(xs, total)[..|xs| - 1] == Percents(init, total);
      PercentsSum(init, total);
      PercentAdd(SumOf(init, Id), xs[|xs| - 1], total);
    }
  }

  /** With a positive equity total the nine cells add up to 100. */
  lemma GridSumsToHundred(ps: seq<Position>)
    requires EquityTotal(ps) > 0.0
    ensures SumOf(Percents(CellSums(ps), EquityTotal(ps)), Id) == 100.0
  {
    CellSumsTotal(ps);
    PercentsSum(CellSums(ps), EquityTotal(ps));
    var t := EquityTotal(ps);
    assert t / t == 1.0;
  }
}

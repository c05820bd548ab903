/** The rebalancing engine of `RebalancerTable`: for one account and the
    client-wide portfolio value it derives each position's market value,
    weight, goal dollars and signed trade, plus a synthetic cash row that
    absorbs whatever the targets leave over. */
module Rebalancer {
  import opened Seqs
  import opened Portfolio

  /** A nine-character symbol is a CUSIP, i.e. a bond quoted in percent of par. */
  predicate IsBond(symbol: string) {
    |symbol| == 9
  }

  /** The price of one unit of quantity: a bond's quote is per 100 of face value. */
  function PriceFactor(p: Position): real {
    if IsBond(p.symbol) then p.price / 100.0 else p.price
  }

  /** `calculateMarketValue`. */
  function MarketValue(p: Position): (mv: real)
    ensures mv == p.quantity * PriceFactor(p)
  {
    if IsBond(p.symbol) then (p.quantity * p.price) / 100.0 else p.quantity * p.price
  }

  /** A bond is worth its face quantity at the quoted percentage of par,
      anything else its quantity at the price; nothing held or a zero price
      is worth nothing. */
  lemma MarketValueCases(p: Position)
    ensures IsBond(p.symbol) ==> MarketValue(p) * 100.0 == p.quantity * p.price
    ensures !IsBond(p.symbol) ==> MarketValue(p) == p.quantity * p.price
    ensures p.price == 0.0 || p.quantity == 0.0 ==> MarketValue(p) == 0.0
  {
  }

  /** `Math.ceil`, written with the floor that `real` offers. */
  function Ceil(x: real): int {
    -((-x).Floor)
  }

  /** The rounding step of `calculateTrade`: `Math.floor`, `Math.ceil`,
      `Math.round` (halves go up), and no rounding for any other mode. */
  function ApplyRounding(mode: RoundingMode, x: real): (r: real)
    ensures mode == Exact ==> r == x
    ensures mode != Exact ==> r == r.Floor as real && x - 1.0 < r < x + 1.0
    ensures mode == Down ==> r <= x < r + 1.0
    ensures mode == Up ==> r - 1.0 < x <= r
    ensures mode == Nearest ==> r - 0.5 <= x < r + 0.5
    ensures x == 0.0 ==> r == 0.0
  {
    match mode
    case Down => x.Floor as real
    case Up => Ceil(x) as real
    case Nearest => (x + 0.5).Floor as real
    case Exact => x
  }

  /** Down, nearest and up rounding are ordered, and all three leave an
      integer unchanged. */
  lemma RoundingModesOrdered(x: real)
    ensures ApplyRounding(Down, x) <= x <= ApplyRounding(Up, x)
    ensures ApplyRounding(Down, x) <= ApplyRounding(Nearest, x) <= ApplyRounding(Up, x)
    ensures x == x.Floor as real ==>
      ApplyRounding(Down, x) == ApplyRounding(Nearest, x) == ApplyRounding(Up, x) == x
  {
    var d, n, u := ApplyRounding(Down, x), ApplyRounding(Nearest, x), ApplyRounding(Up, x);
    var di, ni, ui := d.Floor, n.Floor, u.Floor;
    assert d == di as real && n == ni as real && u == ui as real;
    assert di as real <= x < di as real + 1.0;
    assert ni as real - 0.5 <= x < ni as real + 0.5;
    assert ui as real - 1.0 < x <= ui as real;
    assert di <= ni by {
      assert (di as real) - 1.0 < ni as real;
    }
    assert ni <= ui by {
      assert ni as real < ui as real + 1.0;
    }
  }

  /** `totalPortfolioValue * (goalPct / 100)`: the goal dollars of a target
      percentage, also shown in the editable Goal $ cell. */
  function GoalValue(total: real, pct: real): real {
    total * (pct / 100.0)
  }

  datatype Trade = Trade(shares: real, value: real)

  /** The unrounded share count: the dollar gap divided by the unit price,
      or 0 when the price is not positive. */
  function RawTradeShares(p: Position, goalPct: real, total: real): real {
    if p.price > 0.0 then (GoalValue(total, goalPct) - MarketValue(p)) / PriceFactor(p) else 0.0
  }

  /** `calculateTrade`: signed shares (positive buys) and their dollar value. */
  function CalculateTrade(p: Position, goalPct: real, total: real): (t: Trade)
    ensures t.value == t.shares * PriceFactor(p)
    ensures p.price <= 0.0 ==> t.shares == 0.0 && t.value == 0.0
    ensures p.roundingMode != Exact ==> t.shares == t.shares.Floor as real
    ensures p.roundingMode == Exact && p.price > 0.0 ==>
      t.value == GoalValue(total, goalPct) - MarketValue(p)
  {
    var shares := ApplyRounding(p.roundingMode, RawTradeShares(p, goalPct, total));
    Trade(shares, shares * PriceFactor(p))
  }

  /** The Trade $ and Trade Shares cells always show the same sign: a buy is
      positive in both, a sale negative in both. */
  lemma TradeSign(p: Position, goalPct: real, total: real)
    ensures var t := CalculateTrade(p, goalPct, total);
      && (t.shares > 0.0 <==> t.value > 0.0) && (t.shares < 0.0 <==> t.value < 0.0)
  {
    var t := CalculateTrade(p, goalPct, total);
    if p.price > 0.0 {
      assert PriceFactor(p) > 0.0;
    }
  }

  lemma LandOpenClosed(after: real, goal: real, gap: real, unit: real, lo: real, hi: real)
    requires unit > 0.0 && lo < gap <= hi && after - goal == gap * unit
    ensures goal + lo * unit < after <= goal + hi * unit
  {
  }

  lemma LandClosedOpen(after: real, goal: real, gap: real, unit: real, lo: real, hi: real)
    requires unit > 0.0 && lo <= gap < hi && after - goal == gap * unit
    ensures goal + lo * unit <= after < goal + hi * unit
  {
  }

  lemma DivCancel(a: real, u: real)
    requires u != 0.0
    ensures (a / u) * u == a
  {
  }

  /** The arithmetic behind `TradeMovesValue`, over plain reals. */
  lemma MoveArithmetic(q: real, s: real, unit: real, mv: real, goal: real, raw: real,
                       value: real, after: real)
    requires mv == q * unit && raw * unit == goal - mv
    requires value == s * unit && after == (q + s) * unit
    ensures after == mv + value && after - goal == (s - raw) * unit
  {
    assert (q + s) * unit == q * unit + s * unit;
    assert (s - raw) * unit == s * unit - raw * unit;
  }

  /** Buying `t.shares` more units moves the market value by exactly
      `t.value`. */
  lemma TradeMovesValue(p: Position, goalPct: real, total: real)
    requires p.price > 0.0
    ensures var t := CalculateTrade(p, goalPct, total);
      MarketValue(p.(quantity := p.quantity + t.shares)) == MarketValue(p) + t.value
  {
    var t := CalculateTrade(p, goalPct, total);
    MoveBy(p, goalPct, total, t.shares);
  }

  /** Buying any `s` more units moves the market value by `s` unit prices,
      and leaves `s - raw` units between it and the goal. */
  lemma MoveBy(p: Position, goalPct: real, total: real, s: real)
    requires p.price > 0.0
    ensures MarketValue(p.(quantity := p.quantity + s)) == MarketValue(p) + s * PriceFactor(p)
    ensures MarketValue(p.(quantity := p.quantity + s)) - GoalValue(total, goalPct)
         == (s - RawTradeShares(p, goalPct, total)) * PriceFactor(p)
  {
    RawSharesCoverGap(p, goalPct, total);
    MovedMarketValue(p, s);
    MoveArithmetic(p.quantity, s, PriceFactor(p), MarketValue(p), GoalValue(total, goalPct),
                   RawTradeShares(p, goalPct, total), s * PriceFactor(p), MarketValue(p.(quantity := p.quantity + s)));
  }

  /** With a positive price the unrounded share count, at the unit price,
      covers the dollar gap exactly. */
  lemma RawSharesCoverGap(p: Position, goalPct: real, total: real)
    requires p.price > 0.0
    ensures RawTradeShares(p, goalPct, total) * PriceFactor(p)
            == GoalValue(total, goalPct) - MarketValue(p)
  {
    var unit := PriceFactor(p);
    assert unit != 0.0;
    DivCancel(GoalValue(total, goalPct) - MarketValue(p), unit);
  }

  /** Changing the quantity keeps the unit price. */
  lemma MovedMarketValue(p: Position, d: real)
    ensures MarketValue(p.(quantity := p.quantity + d)) == (p.quantity + d) * PriceFactor(p)
  {
    assert PriceFactor(p.(quantity := p.quantity + d)) == PriceFactor(p);
  }

  /** Where a rounded share count lands, measured in units from the goal. */
  lemma Landing(mode: RoundingMode, raw: real, shares: real, unit: real, after: real, goal: real)
    requires shares == ApplyRounding(mode, raw)
    requires unit > 0.0 && after - goal == (shares - raw) * unit
    ensures mode == Exact ==> after == goal
    ensures mode == Down ==> goal - unit < after <= goal
    ensures mode == Up ==> goal <= after < goal + unit
    ensures mode == Nearest ==> goal - unit / 2.0 < after <= goal + unit / 2.0
  {
    var gap := shares - raw;
    match mode {
      case Exact =>
      case Down =>
        LandOpenClosed(after, goal, gap, unit, -1.0, 0.0);
      case Up =>
        LandClosedOpen(after, goal, gap, unit, 0.0, 1.0);
      case Nearest =>
        LandOpenClosed(after, goal, gap, unit, -0.5, 0.5);
    }
  }

  /** The trade lands on the goal as closely as the rounding mode allows:
      exactly for the unrounded mode, below the goal by less than one unit for
      `down`, above it by less than one unit for `up`, and within half a unit
      for `nearest`. */
  lemma TradeReachesGoal(p: Position, goalPct: real, total: real)
    requires p.price > 0.0
    ensures var t := CalculateTrade(p, goalPct, total);
      var after := MarketValue(p.(quantity := p.quantity + t.shares));
      var goal := GoalValue(total, goalPct);
      var unit := PriceFactor(p);
      && after == MarketValue(p) + t.value
      && (p.roundingMode == Exact ==> after == goal)
      && (p.roundingMode == Down ==> goal - unit < after <= goal)
      && (p.roundingMode == Up ==> goal <= after < goal + unit)
      && (p.roundingMode == Nearest ==> goal - unit / 2.0 < after <= goal + unit / 2.0)
  {
    var t := CalculateTrade(p, goalPct, total);
    TradeMovesValue(p, goalPct, total);
    RoundedSharesLand(p, goalPct, total, t.shares);
  }

  /** `TradeReachesGoal` for any share count the rounding step can yield. */
  lemma RoundedSharesLand(p: Position, goalPct: real, total: real, shares: real)
    requires p.price > 0.0
    requires shares == ApplyRounding(p.roundingMode, RawTradeShares(p, goalPct, total))
    ensures var after := MarketValue(p.(quantity := p.quantity + shares));
      var goal := GoalValue(total, goalPct);
      var unit := PriceFactor(p);
      && (p.roundingMode == Exact ==> after == goal)
      && (p.roundingMode == Down ==> goal - unit < after <= goal)
      && (p.roundingMode == Up ==> goal <= after < goal + unit)
      && (p.roundingMode == Nearest ==> goal - unit / 2.0 < after <= goal + unit / 2.0)
  {
    var raw, unit := RawTradeShares(p, goalPct, total), PriceFactor(p);
    var after, goal := MarketValue(p.(quantity := p.quantity + shares)), GoalValue(total, goalPct);
    assert unit > 0.0;
    assert after - goal == (shares - raw) * unit by {
      MoveBy(p, goalPct, total, shares);
    }
    Landing(p.roundingMode, raw, shares, unit, after, goal);
  }

  /** The Weight column: `marketValue / totalPortfolioValue * 100`. The
      source divides without a guard, so a zero total is excluded here. */
  function Weight(p: Position, total: real): (w: real)
    requires total != 0.0
    ensures w * total == MarketValue(p) * 100.0
  {
    (MarketValue(p) / total) * 100.0
  }

  /** `handleGoalValueChange`'s back-solve from goal dollars to a target. */
  function GoalPctFromValue(value: real, total: real): (pct: real)
    requires total != 0.0
    ensures GoalValue(total, pct) == value
  {
    (value / total) * 100.0
  }

  /** A target percentage shown as goal dollars and typed back in as
      dollars gives the same percentage; the other direction is
      `GoalPctFromValue`'s own contract. */
  lemma GoalPctRoundTrip(pct: real, total: real)
    requires total != 0.0
    ensures GoalPctFromValue(GoalValue(total, pct), total) == pct
  {
  }

  /** An edit of the table: the position to change and the patch sent to
      `onUpdatePosition`. */
  datatype Edit = Edit(positionId: string, patch: PositionPatch)

  /** `handleGoalPctChange`. */
  function GoalPctChange(p: Position, newPct: real): (e: Edit)
    ensures e.positionId == p.id
    ensures ApplyPatch(p, e.patch) == p.(targetPct := newPct)
  {
    Edit(p.id, TargetPctPatch(newPct))
  }

  /** `handleGoalValueChange`: after the patch is merged, the Goal $ cell
      shows exactly the dollars that were typed, and nothing but the target
      changed. */
  function GoalValueChange(p: Position, newValue: real, total: real): (e: Edit)
    requires total != 0.0
    ensures e.positionId == p.id
    ensures ApplyPatch(p, e.patch) == p.(targetPct := ApplyPatch(p, e.patch).targetPct)
    ensures GoalValue(total, ApplyPatch(p, e.patch).targetPct) == newValue
  {
    Edit(p.id, TargetPctPatch(GoalPctFromValue(newValue, total)))
  }

  function TargetPctOf(p: Position): real {
    p.targetPct
  }

  /** `totalTargetPct`. */
  function TotalTargetPct(ps: seq<Position>): real {
    SumOf(ps, TargetPctOf)
  }

  /** `totalCurrentValue`: the table's own sum of recomputed market values. */
  function TotalMarketValue(ps: seq<Position>): real {
    SumOf(ps, MarketValue)
  }

  /** The synthetic cash row, apart from its weight. */
  datatype CashRow = CashRow(value: real, targetPct: real, goalValue: real, diff: real)

  /** The cash row: the target left over by the positions, unclamped, its
      dollars, and the gap to the cash held. */
  function CashRowOf(a: Account, total: real): (c: CashRow)
    ensures c.value == a.cash
    ensures c.targetPct + TotalTargetPct(a.positions) == 100.0
    ensures c.targetPct < 0.0 <==> TotalTargetPct(a.positions) > 100.0
    ensures c.diff == c.goalValue - a.cash
  {
    var remaining := 100.0 - TotalTargetPct(a.positions);
    var goal := GoalValue(total, remaining);
    CashRow(a.cash, remaining, goal, goal - a.cash)
  }

  /** `cashWeight`, divided without a guard like the position weights. */
  function CashWeight(a: Account, total: real): (w: real)
    requires total != 0.0
    ensures w * total == a.cash * 100.0
  {
    (a.cash / total) * 100.0
  }

  /** The goal dollars of every position. */
  function TotalGoalValue(ps: seq<Position>, total: real): real
    decreases |ps|
  {
    if ps == [] then 0.0
    else TotalGoalValue(ps[..|ps| - 1], total) + GoalValue(total, ps[|ps| - 1].targetPct)
  }

  lemma {:induction false} TotalGoalValueScales(ps: seq<Position>, total: real)
    ensures TotalGoalValue(ps, total) == GoalValue(total, TotalTargetPct(ps))
    decreases |ps|
  {
    if ps != [] {
      TotalGoalValueScales(ps[..|ps| - 1], total);
    }
  }

  /** The goal dollars of the positions plus the cash row's goal always add
      up to the whole portfolio value, whatever the targets sum to. */
  lemma GoalsPlusCashMakeTotal(a: Account, total: real)
    ensures TotalGoalValue(a.positions, total) + CashRowOf(a, total).goalValue == total
  {
    TotalGoalValueScales(a.positions, total);
  }

  /** The weights of all positions. */
  function TotalWeight(ps: seq<Position>, total: real): real
    requires total != 0.0
    decreases |ps|
  {
    if ps == [] then 0.0 else TotalWeight(ps[..|ps| - 1], total) + Weight(ps[|ps| - 1], total)
  }

  lemma {:induction false} TotalWeightScales(ps: seq<Position>, total: real)
    requires total != 0.0
    ensures TotalWeight(ps, total) * total == TotalMarketValue(ps) * 100.0
    decreases |ps|
  {
    if ps != [] {
      TotalWeightScales(ps[..|ps| - 1], total);
    }
  }

  /** The weights add up to 100 only when the total passed in is this
      account's own market value plus cash; the caller passes a client total
      built from stored values, so the model does not assume it. */
  lemma WeightsSumToHundred(a: Account, total: real)
    requires total != 0.0
    requires total == TotalMarketValue(a.positions) + a.cash
    ensures TotalWeight(a.positions, total) + CashWeight(a, total) == 100.0
  {
    TotalWeightScales(a.positions, total);
    var tw, cw := TotalWeight(a.positions, total), CashWeight(a, total);
    var lhs := (tw + cw) * total;
    assert lhs == tw * total + cw * total;
    assert TotalMarketValue(a.positions) * 100.0 + a.cash * 100.0 == 100.0 * total;
    assert lhs == 100.0 * total;
  }
}

/** The store's demonstration client, fed through the rebalancing engine the
    way the detail view does: the client value becomes the portfolio total of
    the account's table. */
module SeedScenario {
  import opened Seqs
  import opened Portfolio
  import opened Store
  import opened Rebalancer

  function SeedAccount(now: int): Account {
    InitialData(now)[0].accounts[0]
  }

  /** Every seeded position stores `quantity * price` as its current value. */
  lemma SeedStoredValues(now: int)
    ensures forall p :: p in AllPositions(InitialData(now)[0].accounts) ==>
      p.currentValue == p.quantity * p.price
  {
    assert AllPositions(InitialData(now)[0].accounts) == SeedAccount(now).positions;
  }

  /** The seeded client is worth 27,825 + 96,080 + 5,000 cash. */
  lemma SeedClientValue(now: int)
    ensures ClientValue(InitialData(now)[0]) == 128905.0
  {
    var ps := SeedAccount(now).positions;
    assert ps[..1][..0] == [];
    assert ps[..|ps| - 1] == ps[..1];
    assert SumOf(ps[..1], CurrentValueOf) == 27825.0;
    assert PositionsValue(SeedAccount(now)) == 27825.0 + 96080.0;
  }

  /** At that total, a 25% target on AAPL buys 24 shares (23.73 rounded to
      nearest) for $4,452. */
  lemma SeedAaplTrade(now: int)
    ensures CalculateTrade(SeedAccount(now).positions[0], 25.0, 128905.0) == Trade(24.0, 4452.0)
  {
    var p := SeedAccount(now).positions[0];
    assert MarketValue(p) == 27825.0;
    assert GoalValue(128905.0, 25.0) == 32226.25;
    assert RawTradeShares(p, 25.0, 128905.0) == 4401.25 / 185.5;
    assert (4401.25 / 185.5 + 0.5).Floor == 24;
  }

  /** A 75% target on VTI buys 2 shares (2.49 rounded) for $480.40. */
  lemma SeedVtiTrade(now: int)
    ensures CalculateTrade(SeedAccount(now).positions[1], 75.0, 128905.0) == Trade(2.0, 480.4)
  {
    var p := SeedAccount(now).positions[1];
    assert MarketValue(p) == 96080.0;
    assert GoalValue(128905.0, 75.0) == 96678.75;
    assert RawTradeShares(p, 75.0, 128905.0) == 598.75 / 240.2;
    assert (598.75 / 240.2 + 0.5).Floor == 2;
  }

  /** The targets use up 100%, so the cash row targets nothing and all of the
      $5,000 cash is to be spent. */
  lemma SeedCashRow(now: int)
    ensures CashRowOf(SeedAccount(now), 128905.0) == CashRow(5000.0, 0.0, 0.0, -5000.0)
  {
    var ps := SeedAccount(now).positions;
    assert ps[..|ps| - 1] == ps[..1];
    assert ps[..1][..0] == [];
    assert SumOf(ps[..1], TargetPctOf) == 25.0;
    assert TotalTargetPct(ps) == 100.0;
  }
}

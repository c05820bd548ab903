/** The records of `src/types.ts`: clients own accounts, accounts own
    positions. Every edit builds new values; nothing here is updated in place. */
module Portfolio {
  import opened Wrappers

  /** `RoundingMode` lists `'nearest' | 'down' | 'up'`; a stored position can
      still carry any other string, which the trade sizing leaves unrounded.
      `Exact` stands for every such value. */
  datatype RoundingMode = Nearest | Down | Up | Exact

  datatype AssetClass = UsEquity | NonUsEquity | FixedIncome | MuniBond | Other | Cash

  /** The string the application stores for each asset class. */
  function AssetClassName(c: AssetClass): string {
    match c
    case UsEquity => "US_EQUITY"
    case NonUsEquity => "NON_US_EQUITY"
    case FixedIncome => "FIXED_INCOME"
    case MuniBond => "MUNI_BOND"
    case Other => "OTHER"
    case Cash => "CASH"
  }

  /** A dividend yield: declared a number, but a price refresh may store the
      string "N/A" in it. */
  datatype Yield = Rate(pct: real) | NotAvailable

  datatype Position = Position(
    id: string,
    symbol: string,
    description: string,
    quantity: real,
    price: real,
    currentValue: real,
    dividendYield: Yield,
    targetPct: real,
    roundingMode: RoundingMode,
    assetClass: Option<AssetClass>,
    sector: Option<string>,
    stateCode: Option<string>,
    logoTicker: Option<string>)

  /** `type` is a reserved word here, so the account type is `kind`. */
  datatype Account = Account(id: string, name: string, kind: string, positions: seq<Position>, cash: real)

  datatype Client = Client(id: string, name: string, lastUpdated: int, accounts: seq<Account>)

  /** JavaScript truthiness of an optional string: present and non-empty. */
  predicate Truthy(s: Option<string>) {
    s.Some? && s.value != ""
  }

  /** A `Partial<Position>`: each present field overrides the position's. */
  datatype PositionPatch = PositionPatch(
    id: Option<string>,
    symbol: Option<string>,
    description: Option<string>,
    quantity: Option<real>,
    price: Option<real>,
    currentValue: Option<real>,
    dividendYield: Option<Yield>,
    targetPct: Option<real>,
    roundingMode: Option<RoundingMode>,
    assetClass: Option<AssetClass>,
    sector: Option<string>,
    stateCode: Option<string>,
    logoTicker: Option<string>)

  /** The patch `{ targetPct: pct }` that the table's edit handlers send. */
  function TargetPctPatch(pct: real): PositionPatch {
    PositionPatch(None, None, None, None, None, None, None, Some(pct), None, None, None, None, None)
  }

  /** `{ ...p, ...u }`. */
  function ApplyPatch(p: Position, u: PositionPatch): Position {
    Position(
      u.id.GetOr(p.id),
      u.symbol.GetOr(p.symbol),
      u.description.GetOr(p.description),
      u.quantity.GetOr(p.quantity),
      u.price.GetOr(p.price),
      u.currentValue.GetOr(p.currentValue),
      u.dividendYield.GetOr(p.dividendYield),
      u.targetPct.GetOr(p.targetPct),
      u.roundingMode.GetOr(p.roundingMode),
      if u.assetClass.Some? then u.assetClass else p.assetClass,
      if u.sector.Some? then u.sector else p.sector,
      if u.stateCode.Some? then u.stateCode else p.stateCode,
      if u.logoTicker.Some? then u.logoTicker else p.logoTicker)
  }

  /** Merging `{ targetPct: pct }` replaces the target and nothing else. */
  lemma TargetPctPatchOnlySetsTarget(p: Position, pct: real)
    ensures ApplyPatch(p, TargetPctPatch(pct)) == p.(targetPct := pct)
  {
  }

  /** `accounts.flatMap(a => a.positions)`. */
  function AllPositions(accounts: seq<Account>): seq<Position>
    decreases |accounts|
  {
    if accounts == [] then []
    else AllPositions(accounts[..|accounts| - 1]) + accounts[|accounts| - 1].positions
  }

  lemma {:induction false} AllPositionsConcat(a: seq<Account>, b: seq<Account>)
    ensures AllPositions(a + b) == AllPositions(a) + AllPositions(b)
    decreases |b|
  {
    if b == [] {
      assert a + b == a;
    } else {
      assert (a + b)[..|a + b| - 1] == a + b[..|b| - 1];
      AllPositionsConcat(a, b[..|b| - 1]);
    }
  }

  function CurrentValueOf(p: Position): real {
    p.currentValue
  }

  function CashOf(a: Account): real {
    a.cash
  }
}

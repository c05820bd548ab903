/** `classifyPositionFallback`: a keyword heuristic that assigns an asset
    class, a sector label, and for bonds a state code or a logo ticker. */
module Classification {
  import opened Wrappers
  import opened Portfolio
  import opened Text

  /** The fields the classifier returns as a `Partial<Position>`. */
  datatype Classification = Classification(
    assetClass: AssetClass,
    sector: string,
    stateCode: Option<string>,
    logoTicker: Option<string>)

  /** The fifty two-letter codes of the state pattern, in pattern order. */
  const StateCodes: seq<string> := [
    "AL", "AK", "AZ", "AR", "CA", "CO", "CT", "DE", "FL", "GA",
    "HI", "ID", "IL", "IN", "IA", "KS", "KY", "LA", "ME", "MD",
    "MA", "MI", "MN", "MS", "MO", "MT", "NE", "NV", "NH", "NJ",
    "NM", "NY", "NC", "ND", "OH", "OK", "OR", "PA", "RI", "SC",
    "SD", "TN", "TX", "UT", "VT", "VA", "WA", "WV", "WI", "WY"]

  /** A regular-expression word character: `[A-Za-z0-9_]`. */
  predicate IsWordChar(c: char) {
    ('A' <= c <= 'Z') || ('a' <= c <= 'z') || ('0' <= c <= '9') || c == '_'
  }

  /** A state code starts at `i` with a word boundary on both sides, which is
      what `\b(AL|AK|...)\b` matches there. */
  predicate StateAt(s: string, i: int) {
    && 0 <= i && i + 2 <= |s|
    && s[i..i + 2] in StateCodes
    && (i == 0 || !IsWordChar(s[i - 1]))
    && (i + 2 == |s| || !IsWordChar(s[i + 2]))
  }

  /** The leftmost position at or after `i` where a state code matches. */
  function FindStateFrom(s: string, i: nat): (r: Option<nat>)
    ensures r.Some? ==> StateAt(s, r.value) && i <= r.value
    ensures r.Some? ==> forall j :: i <= j < r.value ==> !StateAt(s, j)
    ensures r.None? ==> forall j :: i <= j ==> !StateAt(s, j)
    decreases |s| - i
  {
    if i + 2 > |s| then None
    else if StateAt(s, i) then Some(i)
    else FindStateFrom(s, i + 1)
  }

  /** `desc.match(...)?.[1]`: the first state code in the description. */
  function MatchState(desc: string): (r: Option<string>)
    ensures r.Some? ==> r.value in StateCodes
    ensures r.Some? ==>
      exists i :: StateAt(desc, i) && desc[i..i + 2] == r.value && forall j :: 0 <= j < i ==> !StateAt(desc, j)
    ensures r.None? ==> forall j :: 0 <= j ==> !StateAt(desc, j)
  {
    match FindStateFrom(desc, 0)
    case None => None
    case Some(i) =>
      assert StateAt(desc, i) && forall j :: 0 <= j < i ==> !StateAt(desc, j);
      Some(desc[i..i + 2])
  }

  predicate IsCashText(sym: string, desc: string) {
    sym == "CASH" || sym == "USD" || Contains(desc, "CASH") || Contains(desc, "SWEEP")
  }

  predicate IsFixedIncomeText(sym: string, desc: string) {
    |sym| == 9 || Contains(desc, "BOND") || Contains(desc, "NOTE") || Contains(desc, "TREASURY")
  }

  predicate IsMuniText(desc: string) {
    Contains(desc, "MUNI") || Contains(desc, "GO ") || Contains(desc, "REV ")
  }

  predicate IsInternationalText(desc: string) {
    Contains(desc, "INTL") || Contains(desc, "EMERGING") || Contains(desc, "EUROPE") || Contains(desc, "ASIA")
  }

  /** Some word of the group occurs in `desc`. */
  predicate ContainsAny(desc: string, words: seq<string>)
    decreases |words|
  {
    words != [] && (Contains(desc, words[0]) || ContainsAny(desc, words[1..]))
  }

  /** The keyword groups for US equity sectors, tried in this order. */
  const SectorRules: seq<(seq<string>, string)> := [
    (["TECH", "SOFTWARE", "SEMICONDUCTOR"], "Technology"),
    (["HEALTH", "PHARMA", "BIO"], "Healthcare"),
    (["BANK", "FINANCE", "INSURANCE"], "Financials"),
    (["ENERGY", "OIL", "GAS"], "Energy"),
    (["REIT", "REAL ESTATE"], "Real Estate")]

  /** The label of the first rule from index `k` on whose group occurs in
      `desc`, else `fallback`. */
  function FirstMatchFrom(desc: string, rules: seq<(seq<string>, string)>, k: nat, fallback: string): (r: string)
    requires k <= |rules|
    ensures (forall j :: k <= j < |rules| ==> !ContainsAny(desc, rules[j].0)) ==> r == fallback
    ensures forall j :: k <= j < |rules| ==>
      (ContainsAny(desc, rules[j].0) && (forall i :: k <= i < j ==> !ContainsAny(desc, rules[i].0)))
      ==> r == rules[j].1
    decreases |rules| - k
  {
    if k == |rules| then fallback
    else if ContainsAny(desc, rules[k].0) then rules[k].1
    else FirstMatchFrom(desc, rules, k + 1, fallback)
  }

  /** The label of the first rule whose group occurs in `desc`, else `fallback`. */
  function FirstMatchingRule(desc: string, rules: seq<(seq<string>, string)>, fallback: string): (r: string)
    ensures (forall k :: 0 <= k < |rules| ==> !ContainsAny(desc, rules[k].0)) ==> r == fallback
    ensures forall k :: 0 <= k < |rules| ==>
      (ContainsAny(desc, rules[k].0) && (forall j :: 0 <= j < k ==> !ContainsAny(desc, rules[j].0)))
      ==> r == rules[k].1
  {
    FirstMatchFrom(desc, rules, 0, fallback)
  }

  /** The sector if-chain for US equities. */
  function UsEquitySector(desc: string): string {
    if Contains(desc, "TECH") || Contains(desc, "SOFTWARE") || Contains(desc, "SEMICONDUCTOR") then "Technology"
    else if Contains(desc, "HEALTH") || Contains(desc, "PHARMA") || Contains(desc, "BIO") then "Healthcare"
    else if Contains(desc, "BANK") || Contains(desc, "FINANCE") || Contains(desc, "INSURANCE") then "Financials"
    else if Contains(desc, "ENERGY") || Contains(desc, "OIL") || Contains(desc, "GAS") then "Energy"
    else if Contains(desc, "REIT") || Contains(desc, "REAL ESTATE") then "Real Estate"
    else "US Equity"
  }

  /** A keyword group occurs when one of its words does. */
  lemma ContainsAnyOfThree(desc: string, a: string, b: string, c: string)
    ensures ContainsAny(desc, [a, b, c]) <==> Contains(desc, a) || Contains(desc, b) || Contains(desc, c)
  {
    assert [c][1..] == [];
    assert ContainsAny(desc, [c]) <==> Contains(desc, c);
    assert [b, c][1..] == [c];
    assert ContainsAny(desc, [b, c]) <==> Contains(desc, b) || Contains(desc, c);
    assert [a, b, c][1..] == [b, c];
  }

  /** The if-chain picks the label of the first keyword group that occurs. */
  lemma UsEquitySectorIsFirstMatch(desc: string)
    ensures UsEquitySector(desc) == FirstMatchingRule(desc, SectorRules, "US Equity")
  {
    var rules := SectorRules;
    ContainsAnyOfThree(desc, "TECH", "SOFTWARE", "SEMICONDUCTOR");
    ContainsAnyOfThree(desc, "HEALTH", "PHARMA", "BIO");
    ContainsAnyOfThree(desc, "BANK", "FINANCE", "INSURANCE");
    ContainsAnyOfThree(desc, "ENERGY", "OIL", "GAS");
    assert ContainsAny(desc, ["REIT", "REAL ESTATE"]) <==> Contains(desc, "REIT") || Contains(desc, "REAL ESTATE") by {
      assert ["REAL ESTATE"][1..] == [];
      assert ContainsAny(desc, ["REAL ESTATE"]) <==> Contains(desc, "REAL ESTATE");
      assert ["REIT", "REAL ESTATE"][1..] == ["REAL ESTATE"];
    }
    assert FirstMatchFrom(desc, rules, 4, "US Equity") == if ContainsAny(desc, rules[4].0) then rules[4].1 else "US Equity";
    assert FirstMatchFrom(desc, rules, 3, "US Equity") == if ContainsAny(desc, rules[3].0) then rules[3].1 else FirstMatchFrom(desc, rules, 4, "US Equity");
    assert FirstMatchFrom(desc, rules, 2, "US Equity") == if ContainsAny(desc, rules[2].0) then rules[2].1 else FirstMatchFrom(desc, rules, 3, "US Equity");
    assert FirstMatchFrom(desc, rules, 1, "US Equity") == if ContainsAny(desc, rules[1].0) then rules[1].1 else FirstMatchFrom(desc, rules, 2, "US Equity");
    assert FirstMatchFrom(desc, rules, 0, "US Equity") == if ContainsAny(desc, rules[0].0) then rules[0].1 else FirstMatchFrom(desc, rules, 1, "US Equity");
  }

  /** The decision tree over an upper-cased symbol and description. */
  function ClassifyText(sym: string, desc: string): (r: Classification)
    ensures r.assetClass != Other
    ensures r.assetClass == Cash <==> IsCashText(sym, desc)
    ensures !IsCashText(sym, desc) && |sym| == 9 ==> r.assetClass == FixedIncome || r.assetClass == MuniBond
    ensures r.stateCode.Some? ==> r.assetClass == MuniBond && r.stateCode.value in StateCodes
    ensures r.assetClass == MuniBond ==> r.stateCode == MatchState(desc)
    ensures r.logoTicker.Some? <==> r.assetClass == FixedIncome && !Contains(desc, "TREASURY")
    ensures r.logoTicker.Some? ==>
      |r.logoTicker.value| <= 4 && IsPrefix(r.logoTicker.value, FirstToken(desc))
    ensures !IsCashText(sym, desc) ==> (r.assetClass == FixedIncome || r.assetClass == MuniBond <==> IsFixedIncomeText(sym, desc))
    ensures r.assetClass == MuniBond <==> !IsCashText(sym, desc) && IsFixedIncomeText(sym, desc) && IsMuniText(desc)
    ensures r.assetClass == NonUsEquity <==> !IsCashText(sym, desc) && !IsFixedIncomeText(sym, desc) && IsInternationalText(desc)
    ensures r.assetClass == Cash ==> r.sector == "Cash & Equivalents"
    ensures r.assetClass == MuniBond ==> r.sector == "Municipal"
    ensures r.assetClass == FixedIncome ==> r.sector == "Corporate/Govt"
    ensures r.assetClass == NonUsEquity ==> r.sector == "International Equity"
    ensures r.assetClass == UsEquity ==> r.sector == FirstMatchingRule(desc, SectorRules, "US Equity")
  {
    if IsCashText(sym, desc) then
      Classification(Cash, "Cash & Equivalents", None, None)
    else if IsFixedIncomeText(sym, desc) then
      if IsMuniText(desc) then
        Classification(MuniBond, "Municipal", MatchState(desc), None)
      else
        Classification(FixedIncome, "Corporate/Govt", None,
          if Contains(desc, "TREASURY") then None else Some(Substring(FirstToken(desc), 4)))
    else if IsInternationalText(desc) then
      Classification(NonUsEquity, "International Equity", None, None)
    else
      UsEquitySectorIsFirstMatch(desc);
      Classification(UsEquity, UsEquitySector(desc), None, None)
  }

  /** `classifyPositionFallback`. */
  function ClassifyFallback(p: Position): (r: Classification)
    ensures r.assetClass != Other
    ensures r.assetClass == Cash <==> IsCashText(Upper(p.symbol), Upper(p.description))
    ensures r.logoTicker.Some? ==> |r.logoTicker.value| <= 4
  {
    ClassifyText(Upper(p.symbol), Upper(p.description))
  }

  /** Only the upper-cased symbol and description matter: positions that
      differ in letter case, or in any other field, classify alike. */
  lemma ClassifyIgnoresCase(p: Position, q: Position)
    requires Upper(p.symbol) == Upper(q.symbol) && Upper(p.description) == Upper(q.description)
    ensures ClassifyFallback(p) == ClassifyFallback(q)
  {
  }
}

# Rebalancer core in Dafny

This project models the engine of a portfolio-rebalancing web app. The app
keeps a list of clients. Each client has accounts, and each account holds
positions and cash. The app computes the trades that move each position
towards its target percentage, fetches quotes, classifies holdings and
summarises a portfolio in analytics cards. The model covers:

- **Rebalancing table** (`Rebalancer`):
  - market value, where a 9-character symbol is a bond quoted per 100 of face value;
  - the trade for a goal percentage, with the four rounding modes;
  - the weight column;
  - the goal-percent and goal-dollar edits;
  - the synthetic cash row.
- **Client store** (`Store`, a class holding the client list):
  - add, remove and update a client, where an update stamps `lastUpdated`;
  - the client value;
  - the seed data (`SeedScenario` checks its figures).
- **Client detail view** (`ClientDetail`):
  - the pollable symbol set;
  - the price-refresh handler;
  - the three position edits (update, add, remove);
  - the classification scan;
  - the equal backtest weights.
- **Keyword classification fallback** (`Classification`).
- **Quote cache with a time-to-live** (`QuoteCache`, a class holding a map).
- **Quote service** (`MarketData`):
  - API-key rotation;
  - the rate-limit retry loop;
  - the name, price and yield fallbacks;
  - the cached `fetchMarketData`.
- **Analytics cards:**
  - asset distribution (`AssetDistribution`);
  - sector exposure (`SectorExposure`);
  - geographic concentration of municipal bonds (`GeoConcentration`);
  - portfolio composition gauges (`PortfolioHealth`);
  - the 3x3 equity style grid (`EquityStyleGrid`).
  - The three "group, percent, sort, cut" cards share `Aggregation`.
- **Portfolio list** (`PortfoliosView`):
  - search and the three sort orders;
  - the guard on adding a client.

Money, prices and percentages are `real`, so the model computes exactly.
Clocks, UUIDs, environment variables, HTTP answers and the remote classifier
enter as parameters.

Files:
- `wrappers.dfy`, `seqs.dfy`, `text.dfy`: shared helpers:
  - `Option`/`Result`;
  - sums, filters and sorting;
  - ASCII case mapping and substring tests.
- `portfolio.dfy`: the data model (`Position`, `Account`, `Client`, rounding modes, asset classes).
- One file per core source file (`rebalancer.dfy`, `store.dfy`, `classification.dfy`, `cache.dfy`, `market_data.dfy`, `client_detail.dfy`, `portfolios_view.dfy`, and one per card).
- `aggregation.dfy`: the grouping shared by the cards.
- `seed.dfy`: the seed-data figures.

## Model

| member | source | states |
|---|---|---|
| Portfolio.TargetPctPatchOnlySetsTarget | src/components/rebalancer/RebalancerTable.tsx:69-76 | a goal edit's patch, merged into a position, changes only `targetPct` |
| Portfolio.AllPositionsConcat | src/views/ClientDetailView.tsx:46-49 | the flattened positions of two account lists are the concatenation of each list's positions |
| Rebalancer.MarketValue | src/components/rebalancer/RebalancerTable.tsx:27-35 | the market value is the quantity at the unit price, which for a 9-character symbol is the price / 100 |
| Rebalancer.MarketValueCases | src/components/rebalancer/RebalancerTable.tsx:27-35 | a 9-character symbol is valued at quantity × price / 100, any other at quantity × price; a zero price or quantity is worth 0 |
| Rebalancer.ApplyRounding | src/components/rebalancer/RebalancerTable.tsx:54-62 | down is the floor, up the ceiling, nearest rounds halves up, and exact leaves the share count alone; every rounded mode gives an integer within 1 of the raw count, and 0 stays 0 |
| Rebalancer.RoundingModesOrdered | src/components/rebalancer/RebalancerTable.tsx:54-62 | down ≤ raw ≤ up and down ≤ nearest ≤ up; a whole share count is left unchanged by all three |
| Rebalancer.CalculateTrade | src/components/rebalancer/RebalancerTable.tsx:38-67 | a non-positive price gives a zero trade; a rounded mode gives whole shares; an exact trade at a positive price is worth goal − market value; the trade value is the shares at the unit price |
| Rebalancer.TradeSign | src/components/rebalancer/RebalancerTable.tsx:38-67 | trade shares and trade value are positive together and negative together |
| Rebalancer.TradeMovesValue | src/components/rebalancer/RebalancerTable.tsx:38-64 | adding the trade's shares to the holding adds the trade value to its market value |
| Rebalancer.MoveBy | src/components/rebalancer/RebalancerTable.tsx:27-50 | adding any number of shares moves the market value by that many unit prices and leaves the difference from the unrounded count, in units, between it and the goal |
| Rebalancer.RoundedSharesLand | src/components/rebalancer/RebalancerTable.tsx:50-64 | for the share count each rounding mode yields, the new market value lands on, below, above or around the goal within one unit as that mode promises |
| Rebalancer.TradeReachesGoal | src/components/rebalancer/RebalancerTable.tsx:38-64 | after the trade the market value equals the goal (exact), lies in (goal − unit, goal] (down), in [goal, goal + unit) (up), or within half a unit of the goal (nearest), where the unit is the price of one share |
| Rebalancer.Weight | src/components/rebalancer/RebalancerTable.tsx:132-133 | weight × total = market value × 100 |
| Rebalancer.GoalPctFromValue | src/components/rebalancer/RebalancerTable.tsx:73-74 | the percentage typed as dollars satisfies pct × total = dollars × 100 |
| Rebalancer.GoalPctRoundTrip | src/components/rebalancer/RebalancerTable.tsx:73-76 | a target percentage, shown as goal dollars (line 180) and typed back into Goal $, gives back the same percentage for any non-zero total |
| Rebalancer.GoalPctChange | src/components/rebalancer/RebalancerTable.tsx:69-71 | editing Goal % sets the target to the typed percentage and touches nothing else |
| Rebalancer.GoalValueChange | src/components/rebalancer/RebalancerTable.tsx:73-76 | editing Goal $ sets a target whose goal dollars equal the typed amount, touching nothing else |
| Rebalancer.CashRowOf | src/components/rebalancer/RebalancerTable.tsx:79-86 | the cash row holds the cash; its target is what the position targets leave of 100 and is negative exactly when they exceed 100; its diff is goal dollars − cash |
| Rebalancer.CashWeight | src/components/rebalancer/RebalancerTable.tsx:83 | cash weight × total = cash × 100 |
| Rebalancer.TotalGoalValueScales | src/components/rebalancer/RebalancerTable.tsx:39 | the goal dollars of all positions are the total scaled by the sum of their targets over 100 |
| Rebalancer.GoalsPlusCashMakeTotal | src/components/rebalancer/RebalancerTable.tsx:79-85 | the positions' goal dollars plus the cash row's goal dollars equal the portfolio total |
| Rebalancer.TotalWeightScales | src/components/rebalancer/RebalancerTable.tsx:78 | the positions' weights add up to their total market value as a percentage of the portfolio total |
| Rebalancer.WeightsSumToHundred | src/components/rebalancer/RebalancerTable.tsx:78-83 | when the total is the market values plus cash, the position weights and the cash weight add up to 100 |
| Store.ClientValue | src/hooks/use-store.ts:87-92 | a client without accounts is worth 0 |
| Store.AccountsValueSplits | src/hooks/use-store.ts:87-92 | the client value is the sum of the stored position values plus the sum of the cash |
| Store.AccountsValueConcat | src/hooks/use-store.ts:87-92 | the value of two account lists together is the sum of their values |
| Store.MergeClient | src/hooks/use-store.ts:80-84 | a merged client carries `lastUpdated` = now; its accounts come from the patch when it has them, otherwise they stay; an accounts patch keeps id and name |
| Store.MergeIgnoresPatchedTimestamp | src/hooks/use-store.ts:82 | a `lastUpdated` in the patch is overridden by now |
| Store.WithoutClientMembers | src/hooks/use-store.ts:76-78 | removal keeps exactly the clients with a different id |
| Store.WithoutAbsentClient | src/hooks/use-store.ts:76-78 | removing an unknown id changes nothing |
| Store.WithoutClientKeepsOrder | src/hooks/use-store.ts:76-78 | removal keeps the other clients' order |
| Store.UpdateClients | src/hooks/use-store.ts:80-84 | the update keeps the list's length; clients with the id are merged, all others are unchanged |
| Store.FindClient | src/views/ClientDetailView.tsx:26 | the result is the first stored client with the id, and none exactly when no client has it |
| Store.ClientStore.constructor | src/hooks/use-store.ts:7-58 | with nothing persisted, the store starts with the seed client stamped now |
| Store.ClientStore.AddClient | src/hooks/use-store.ts:66-74 | the new client, with no accounts and stamped now, is put in front |
| Store.ClientStore.RemoveClient | src/hooks/use-store.ts:76-78 | the clients become those whose id differs |
| Store.ClientStore.UpdateClient | src/hooks/use-store.ts:80-84 | the clients become the pointwise merge |
| SeedScenario.SeedStoredValues | src/hooks/use-store.ts:18-41 | each seed position's stored value is quantity × price |
| SeedScenario.SeedClientValue | src/hooks/use-store.ts:7-45 | the seed client is worth 128905 |
| SeedScenario.SeedAaplTrade | src/hooks/use-store.ts:19-29 | at a 25% target of 128905 the AAPL row trades +24 shares worth 4452 |
| SeedScenario.SeedVtiTrade | src/hooks/use-store.ts:30-40 | at a 75% target the VTI row trades +2 shares worth 480.4 |
| SeedScenario.SeedCashRow | src/hooks/use-store.ts:17 | with targets adding up to 100 the cash row has target 0, goal 0 and diff −5000 |
| Classification.FindStateFrom | src/services/classification-fallback.ts:22 | finds the leftmost listed state code that stands as a whole word from the given position on, or none |
| Classification.MatchState | src/services/classification-fallback.ts:22-25 | a match is a listed code standing as a whole word in the text, at the leftmost position where any listed code does; none exactly when no listed code stands as a whole word |
| Classification.FirstMatchingRule | src/services/classification-fallback.ts:43-48 | picks the first sector rule with a matching keyword; no match gives "US Equity" |
| Classification.UsEquitySectorIsFirstMatch | src/services/classification-fallback.ts:41-48 | the equity sector comes from the first rule whose keyword occurs, so an earlier rule wins a tie |
| Classification.ClassifyText | src/services/classification-fallback.ts:4-57 | never OTHER; CASH exactly for cash text; a 9-character non-cash symbol is fixed income or a municipal bond; a state code only for municipal bonds and always a listed one; fixed income or municipal bond exactly for non-cash bond, note, treasury or 9-character text, municipal bond exactly when that text also names a muni, GO or REV; non-US equity exactly for other international text; a logo ticker exactly for fixed income without TREASURY, at most 4 characters and a prefix of the first word; the sector is Cash & Equivalents, Municipal, Corporate/Govt or International Equity by class, and for US equity the first matching rule |
| Classification.ClassifyFallback | src/services/classification-fallback.ts:3-58 | the fallback classifies the upper-cased description and symbol |
| Classification.ClassifyIgnoresCase | src/services/classification-fallback.ts:4-5 | positions whose texts agree up to letter case are classified alike |
| QuoteCache.ExpiredIffOlderThanTtl | src/services/cache.ts:20-21 | an entry is expired exactly when its age in seconds exceeds the TTL |
| QuoteCache.CacheGet | src/services/cache.ts:16-27 | a missing key gives null; an expired entry gives null and is deleted; a fresh one is returned and kept |
| QuoteCache.GetAfterSet | src/services/cache.ts:9-27 | a value set now is returned by a get within the TTL |
| QuoteCache.GetAfterExpiry | src/services/cache.ts:16-24 | a get past the TTL returns null and drops the entry |
| QuoteCache.SetLeavesOtherKeys | src/services/cache.ts:9-14 | a set changes only its own key |
| QuoteCache.GlobalCache.constructor | src/services/cache.ts:7 | the cache starts empty |
| QuoteCache.GlobalCache.Set | src/services/cache.ts:9-14 | stores the value with the current time under the key |
| QuoteCache.GlobalCache.Get | src/services/cache.ts:16-27 | the result and the new map are those `CacheGet` gives on the old map |
| QuoteCache.GlobalCache.Clear | src/services/cache.ts:29-31 | empties the cache |
| MarketData.ConfiguredKeys | src/services/marketData.ts:3-9 | the usable keys are exactly the set, non-empty ones, and never more than the variables |
| MarketData.ConfiguredKeysSingle | src/services/marketData.ts:3-9 | one variable gives its key when set and non-empty, nothing otherwise |
| MarketData.ConfiguredKeysConcat | src/services/marketData.ts:3-9 | the keys of two runs of variables are those of each, in order, so order and repetitions are kept |
| MarketData.IndexAfter | src/services/marketData.ts:19 | the index after k steps from a start, which is a position of the key list |
| MarketData.IndexAfterStep | src/services/marketData.ts:19 | one more step of the rotation is one more step from the start |
| MarketData.IndexAfterShift | src/services/marketData.ts:19 | starting one step later is the same as taking one more step |
| MarketData.KeyRotator.constructor | src/services/marketData.ts:11-12 | the rotator starts at index 0 |
| MarketData.KeyRotator.GetNextKey | src/services/marketData.ts:14-21 | with no keys it fails and the index stays; otherwise it returns the current key and advances modulo the key count |
| MarketData.KeyRotator.Rotate | src/services/marketData.ts:23-27 | advances modulo the key count; with no keys it does nothing |
| MarketData.KeyRotator.FetchWithRetry | src/services/marketData.ts:32-60 | with no keys it fails before any request; otherwise it sends at least 1 and at most 2·keys + 1 − retries requests, each to the API base plus the endpoint with the next key in round-robin order; every answer but the last was a 429; the last answer gives rate-limited (only once the retry counter reached 2·keys), success with its body (2xx), or an API error |
| MarketData.ResolveYield | src/services/marketData.ts:86-117 | a non-zero TTM yield wins; otherwise the annual yield is used when present; otherwise "N/A" |
| MarketData.ZeroTtmWithoutAnnualIsNotAvailable | src/services/marketData.ts:86-117 | a TTM yield of exactly 0 without an annual figure shows "N/A" |
| MarketData.ResolvePrice | src/services/marketData.ts:122 | a missing or zero quote price becomes 0 |
| MarketData.SearchCandidate | src/services/marketData.ts:92-99 | the first exact symbol match among the search hits, else the first hit; nothing for an empty or failed search |
| MarketData.ResolveName | src/services/marketData.ts:85-108 | the profile name if usable, else a usable description of the search candidate, else the symbol; the result is never blank unless it is the symbol |
| MarketData.EmptyAnswersMatchFailure | src/services/marketData.ts:119-136 | all-empty answers build the same record as the failure fallback |
| MarketData.FetchMarketData | src/services/marketData.ts:69-137 | a fresh cached record is returned without fetching; a failed build returns the fallback record and caches nothing; otherwise the record built from the answers is cached under `marketData_<symbol>` and returned |
| ClientDetail.SymbolsOfPollsEachOnce | src/views/ClientDetailView.tsx:32-43 | the polled symbols have no duplicates; every one is non-empty, shorter than 9 characters and held by a position; every such position symbol is polled |
| ClientDetail.AddAccountSymbols | src/views/ClientDetailView.tsx:35-41 | the inner loop over one account's positions extends the symbols already collected exactly as `SymbolsOf` does over the positions seen so far |
| ClientDetail.CollectSymbols | src/views/ClientDetailView.tsx:32-43 | the nested loops collect exactly `SymbolsOf` the flattened positions |
| ClientDetail.EqualWeights | src/views/ClientDetailView.tsx:283 | one weight per symbol, each 100 divided by the number of symbols |
| ClientDetail.EqualWeightsSumToHundred | src/views/ClientDetailView.tsx:283 | the equal weights of a non-empty symbol list add up to 100 |
| ClientDetail.RefreshAccounts | src/views/ClientDetailView.tsx:56-72 | returns the refreshed accounts, and raises the update flag exactly when some position needed the quote |
| ClientDetail.RefreshPositionFields | src/views/ClientDetailView.tsx:58-69 | a refreshed position takes the quote's price, name and yield and is valued at quantity × price; all other fields stay; a position that needs no refresh is unchanged |
| ClientDetail.RefreshTouchesOnlySymbol | src/views/ClientDetailView.tsx:57-72 | positions with other symbols and all account fields are left as they were |
| ClientDetail.NoStaleMeansNoChange | src/views/ClientDetailView.tsx:56-76 | the refresh changes nothing exactly when no position needs it |
| ClientDetail.RefreshSettles | src/views/ClientDetailView.tsx:59-67 | after a refresh no position needs the same quote again |
| ClientDetail.BondStoredValueDiverges | src/views/ClientDetailView.tsx:66 | for a bond the refreshed stored value is 100 times the market value the table computes |
| ClientDetail.HandlePriceUpdate | src/views/ClientDetailView.tsx:52-77 | the store gets the refreshed accounts only when something changed, and is left alone otherwise |
| ClientDetail.PatchTouchesOnePosition | src/views/ClientDetailView.tsx:152-168 | an edit exists exactly when the first account with the id holds a position with the id; it keeps the number of accounts, merges the patch into the first such position only and leaves every other account and position as it was |
| ClientDetail.UpdatePosition | src/views/ClientDetailView.tsx:152-168 | the copies of the account and position arrays and the in-place writes yield exactly the edit `PatchedAccounts` describes |
| ClientDetail.AddPosition | src/views/ClientDetailView.tsx:170-196 | unknown account id gives no edit; otherwise the new upper-cased position is appended to that account only |
| ClientDetail.RemovePosition | src/views/ClientDetailView.tsx:198-211 | unknown account id gives no edit; otherwise that account keeps exactly its positions with other ids |
| ClientDetail.RemovedPositions | src/views/ClientDetailView.tsx:207 | removal keeps exactly the positions with another id, in order |
| ClientDetail.CommitAccounts | src/views/ClientDetailView.tsx:165-167 | an edit that produced accounts is written to the store; none leaves it alone |
| ClientDetail.UpdateFor | src/views/ClientDetailView.tsx:117-122 | the classified entry for a symbol has that symbol and no later entry has it, so it is the last one; none exactly when no entry has it |
| ClientDetail.UniqueBySymbolDistinct | src/views/ClientDetailView.tsx:110-112 | the positions sent to the scan have pairwise different symbols |
| ClientDetail.PutBySymbolSymbols | src/views/ClientDetailView.tsx:110-112 | putting a position into the map adds its symbol to the keys and no other |
| ClientDetail.UniqueBySymbolCovers | src/views/ClientDetailView.tsx:110-112 | every held symbol is sent, and nothing else |
| ClientDetail.UniqueBySymbolKeepsLast | src/views/ClientDetailView.tsx:110-112 | the position sent for a symbol is its last occurrence |
| ClientDetail.ApplyScanTouchesOnlyClassification | src/views/ClientDetailView.tsx:120-135 | the scan overwrites only the four classification fields, and only for symbols that came back |
| ClientDetail.HandleAiScan | src/views/ClientDetailView.tsx:102-144 | the deduplicated positions go to the classifier; a returned answer is merged into every account and stored; a failed scan leaves the store alone |
| Aggregation.GroupSumNamesDistinct | src/components/analytics/AssetDistributionCard.tsx:17-24 | the accumulated buckets have pairwise different names |
| Aggregation.GroupSumNamesAreKeys | src/components/analytics/AssetDistributionCard.tsx:17-24 | a bucket exists exactly for each key some counted position has |
| Aggregation.GroupSumBucketsAreSums | src/components/analytics/AssetDistributionCard.tsx:17-24 | each bucket holds the sum of the values of the positions with its key |
| Aggregation.AddToTotal | src/components/analytics/AssetDistributionCard.tsx:20 | adding a value to a bucket, new or existing, adds it to the buckets' total |
| Aggregation.GroupSumTotal | src/components/analytics/AssetDistributionCard.tsx:17-22 | the buckets add up to the running total |
| Aggregation.Accumulate | src/components/analytics/AssetDistributionCard.tsx:14-22 | the `forEach` loop yields exactly the grouped sums and the total of the counted positions |
| Aggregation.PercentOf | src/components/analytics/AssetDistributionCard.tsx:27 | 0 for a non-positive total; otherwise percent × total = value × 100 |
| Aggregation.ToSlices | src/components/analytics/AssetDistributionCard.tsx:24-27 | one row per bucket, in order, with the relabelled name, the value and its percentage |
| Aggregation.ToSlicesTotal | src/components/analytics/AssetDistributionCard.tsx:24-27 | the rows' values add up to the buckets' |
| Aggregation.ToSlicesPercentTotal | src/components/analytics/AssetDistributionCard.tsx:27 | for a positive total the rows' percentages add up to the buckets' share of it |
| Aggregation.Take | src/components/analytics/SectorExposureCard.tsx:31 | `slice(0, n)` keeps the first min(n, length) rows |
| Aggregation.TopRowsAreLargest | src/components/analytics/SectorExposureCard.tsx:30-31 | after a descending sort every dropped row is worth no more than any kept row |
| Aggregation.TopByValue | src/components/analytics/SectorExposureCard.tsx:30-31 | keeps min(n, rows) rows sorted by value descending, drawn from the rows, and none dropped is worth more than one kept |
| AssetDistribution.ClassKey | src/components/analytics/AssetDistributionCard.tsx:18 | a position without an asset class is counted under OTHER |
| AssetDistribution.Label | src/components/analytics/AssetDistributionCard.tsx:25 | the label replaces the first underscore only |
| AssetDistribution.LabelKeepsLaterUnderscores | src/components/analytics/AssetDistributionCard.tsx:25 | NON_US_EQUITY is shown as "NON US_EQUITY" |
| AssetDistribution.LabelOfSimpleNames | src/components/analytics/AssetDistributionCard.tsx:25 | US_EQUITY is shown as "US EQUITY" and CASH as it is |
| AssetDistribution.Distribution | src/components/analytics/AssetDistributionCard.tsx:13-29 | the card's rows are the per-class rows, sorted by value descending |
| AssetDistribution.BucketsPartitionTotal | src/components/analytics/AssetDistributionCard.tsx:17-24 | one bucket per class, each the sum of that class, together the total |
| AssetDistribution.RowsShowBuckets | src/components/analytics/AssetDistributionCard.tsx:24-27 | every row carries its bucket's labelled name and value |
| AssetDistribution.RowsAddUp | src/components/analytics/AssetDistributionCard.tsx:20-28 | the row values add up to the total, and with a positive total the percentages add up to 100 |
| SectorExposure.SectorKey | src/components/analytics/SectorExposureCard.tsx:17 | a missing or empty sector is counted as Unclassified |
| SectorExposure.Exposure | src/components/analytics/SectorExposureCard.tsx:10-32 | the top six sector rows by value, as `TopByValue` promises |
| SectorExposure.CashIsExcluded | src/components/analytics/SectorExposureCard.tsx:16 | a cash position changes neither the total nor the rows |
| SectorExposure.NonCashIsCounted | src/components/analytics/SectorExposureCard.tsx:16-21 | any other position, with or without a class, adds its value to the total under its sector |
| SectorExposure.BucketsPartitionTotal | src/components/analytics/SectorExposureCard.tsx:14-29 | one bucket per sector, each the sum of its non-cash positions, together the non-cash total |
| GeoConcentration.StateKey | src/components/analytics/GeoConcentrationCard.tsx:16-17 | a counted bond is filed under its non-empty state code |
| GeoConcentration.Concentration | src/components/analytics/GeoConcentrationCard.tsx:11-34 | no rows when the muni total is 0; otherwise the top five state rows by value |
| GeoConcentration.RowPercent | src/components/analytics/GeoConcentrationCard.tsx:30 | each row's percent × muni total = value × 100 |
| GeoConcentration.OthersAreIgnored | src/components/analytics/GeoConcentrationCard.tsx:16 | a position that is not a municipal bond with a state code changes nothing |
| GeoConcentration.BucketsPartitionTotal | src/components/analytics/GeoConcentrationCard.tsx:15-22 | one bucket per state, each the sum of its bonds, together the muni total |
| PortfolioHealth.GetWeight | src/components/analytics/PortfolioHealthCard.tsx:14-18 | 0 for a zero total; otherwise weight × total = filtered sum × 100 |
| PortfolioHealth.DisjointSums | src/components/analytics/PortfolioHealthCard.tsx:20-22 | the sums of three mutually exclusive filters over non-negative values are each non-negative and together at most the whole |
| PortfolioHealth.ClassWeightsWithinHundred | src/components/analytics/PortfolioHealthCard.tsx:20-22 | with no negative values the equity, fixed-income and cash gauges are non-negative and add up to at most 100 |
| PortfolioHealth.WholeIsHundred | src/components/analytics/PortfolioHealthCard.tsx:14-18 | a filter every position passes gets exactly 100 |
| EquityStyleGrid.StyleCell | src/components/analytics/EquityStyleGrid.tsx:30-31 | the cell is one of the nine, congruent to the symbol's code sum modulo 9 |
| EquityStyleGrid.SameCodeSumSameCell | src/components/analytics/EquityStyleGrid.tsx:30-31 | symbols with equal code sums share a cell |
| EquityStyleGrid.RotatedSymbolSameCell | src/components/analytics/EquityStyleGrid.tsx:30 | swapping two halves of a symbol keeps its cell |
| EquityStyleGrid.CellSums | src/components/analytics/EquityStyleGrid.tsx:21-34 | there are always nine cells |
| EquityStyleGrid.Percents | src/components/analytics/EquityStyleGrid.tsx:36 | each cell's percentage of the equity total, guarded by its sign |
| EquityStyleGrid.StyleGrid | src/components/analytics/EquityStyleGrid.tsx:18-37 | the loop over a zeroed matrix yields the percentages of the per-cell sums; all are 0 when the equity total is not positive |
| EquityStyleGrid.CellIsFilteredSum | src/components/analytics/EquityStyleGrid.tsx:24-33 | each cell holds the sum over the equity positions that hash to it |
| EquityStyleGrid.NonEquityIsIgnored | src/components/analytics/EquityStyleGrid.tsx:25 | a non-equity position changes neither the cells nor the total |
| EquityStyleGrid.CellSumsTotal | src/components/analytics/EquityStyleGrid.tsx:22-33 | the cells together hold the equity total |
| EquityStyleGrid.GridSumsToHundred | src/components/analytics/EquityStyleGrid.tsx:36 | with a positive equity total the nine percentages add up to 100 |
| PortfoliosView.Matching | src/views/PortfoliosView.tsx:22-24 | the filter lists no more clients than the store holds |
| PortfoliosView.FilteredClients | src/views/PortfoliosView.tsx:21-35 | the result is a permutation of the matching clients, sorted by the chosen order: newest first, by name, or by client value descending |
| PortfoliosView.MatchingMembers | src/views/PortfoliosView.tsx:22-24 | a client is listed exactly when it is stored and its lower-cased name contains the lower-cased term |
| PortfoliosView.MatchingKeepsOrder | src/views/PortfoliosView.tsx:22-24 | the filter keeps the store's order |
| PortfoliosView.EmptyTermKeepsAll | src/views/PortfoliosView.tsx:22-24 | an empty search lists every client |
| PortfoliosView.SearchIgnoresCase | src/views/PortfoliosView.tsx:23 | terms that agree up to letter case list the same clients |
| PortfoliosView.HandleAddClient | src/views/PortfoliosView.tsx:37-43 | a blank name adds nothing; any other name is added untrimmed, in front |
| Seqs.SortedCopy | src/views/PortfoliosView.tsx:26-32 | the result is sorted by the given total preorder and is a permutation of the input |
| Seqs.SortInPlace | src/components/analytics/AssetDistributionCard.tsx:28 | sorts the array in place by the given total preorder, as a permutation of its old contents |
| Seqs.AppendNewMembers | src/views/ClientDetailView.tsx:37-39 | appending a symbol only when absent keeps the list free of duplicates and adds exactly that symbol |
| Seqs.IndexWhere | src/views/ClientDetailView.tsx:153 | `findIndex`: the first index whose element passes, or −1 when none does |
| Text.ReplaceFirst | src/components/analytics/AssetDistributionCard.tsx:25 | the result has the length of the input |
| Text.ReplaceFirstAt | src/components/analytics/AssetDistributionCard.tsx:25 | the first occurrence is replaced; everything before and after it, later occurrences included, is kept |
| Text.ReplaceFirstAbsent | src/components/analytics/AssetDistributionCard.tsx:25 | a text without the character is left unchanged |
| Text.FirstToken | src/services/classification-fallback.ts:31 | the text up to the first space |

## Left out

- Rendering, colours, icons, number formatting and the gauge and modal components are not modelled. The backtest modal, the settings dialog and the Gemini and Tiingo clients are not part of this model either.
- Floating point: money and percentages are exact `real`s.
  - IEEE rounding, `NaN` and `Infinity` are not modelled.
  - `parseFloat(...) || 0` in the editable cells is not modelled; the edit handlers receive the parsed number.
  - The integer stamps of `Date.now()` are `int`.
- Rebalancer.Weight, Rebalancer.CashWeight, Rebalancer.GoalPctFromValue and GeoConcentration.Rows require a non-zero divisor, because the code divides without a guard there (RebalancerTable.tsx:74, 83, 133).
- Rebalancer.ApplyRounding: `roundingMode` is a string in the code, and the type declares `'down' | 'up' | 'nearest'`. The comment at RebalancerTable.tsx:62 names this fall-through the exact mode. The model treats every other string as `Exact`, which leaves the share count unrounded, as the code's fall-through does.
- Network, timers and concurrency:
  - `fetch` is not modelled. `FetchWithRetry` takes the server as a function of the retry counter and the URL, and returns the URLs it would send.
  - `FetchMarketData` takes what the three endpoints (and the search) answered, or `None` when building the record threw. The `Promise.all` fan-out, the per-request `.catch` and the retry calls behind them are not replayed inside it.
  - `startPricePolling` and its interval are not modelled.
  - The concurrent interleaving of callbacks with store updates is not modelled.
- `localStorage` persistence of the client list, and the parse-failure fallback, are not modelled. The store constructor starts from the seed data.
- React state and effects are not modelled:
  - `useMemo` caching;
  - loading and scanning flags;
  - the modal flags;
  - clearing the name field after adding a client.
- ClientDetail handlers: the early return when the client is not found is not modelled. Each handler receives the found client, and `Store.FindClient` models the lookup.
- `crypto.randomUUID()` and `Date.now()` are parameters (`id`, `newId`, `now`).
- ClientDetail.HandleAiScan: the remote classifier is a parameter returning `None` when it throws; what it returns is not modelled. Its API key lookup is not modelled.
- Classification.ClassifyFallback: the code has no caller among the core files. It is modelled as the function it is.
- Text:
  - case mapping covers ASCII letters only;
  - `localeCompare` stands as an abstract total preorder `nameOrder`;
  - `charCodeAt` is taken as the character's code point, so UTF-16 surrogate pairs are not modelled.
- AssetDistribution.Distribution, SectorExposure.Exposure, GeoConcentration.Concentration: the order among rows of equal value is not stated. `Array.prototype.sort` is stable, and `Object.entries` orders integer-like keys first; neither is modelled. The bucket order is first-seen order.
- PortfoliosView.FilteredClients: the order among clients that compare equal is not stated (sort stability is not modelled).
- Portfolio: the loose typing of the `yield` field (a number or "N/A") is a `Yield` datatype. Fields the core never reads are not modelled.

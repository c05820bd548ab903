/** The handlers of the client detail view. Each one computes a new list of
    accounts for the client on screen and hands it to the store's
    `updateClient` with the patch `{ accounts }`. */
module ClientDetail {
  import opened Wrappers
  import opened Seqs
  import opened Text
  import opened Portfolio
  import opened Store
  import opened Rebalancer
  import opened MarketData

  // ---------------------------------------------------------------------
  // Symbols to poll

  /** Symbols worth polling: non-empty and shorter than a CUSIP. */
  predicate Pollable(symbol: string) {
    symbol != "" && |symbol| < 9
  }

  /** The `Set` of pollable symbols, in first-seen order. */
  function SymbolsOf(ps: seq<Position>): seq<string>
    decreases |ps|
  {
    if ps == [] then []
    else
      var init := SymbolsOf(ps[..|ps| - 1]);
      var last := ps[|ps| - 1];
      if Pollable(last.symbol) then AppendNew(init, last.symbol) else init
  }

  /** Each pollable symbol of the positions is polled once, and nothing
      else is. */
  lemma {:induction false} SymbolsOfPollsEachOnce(ps: seq<Position>)
    ensures NoDup(SymbolsOf(ps))
    ensures forall s :: s in SymbolsOf(ps) ==> Pollable(s)
    ensures forall k :: 0 <= k < |ps| && Pollable(ps[k].symbol) ==> ps[k].symbol in SymbolsOf(ps)
    ensures forall s :: s in SymbolsOf(ps) ==> exists k :: 0 <= k < |ps| && ps[k].symbol == s
    decreases |ps|
  {
    if ps != [] {
      var init, last := ps[..|ps| - 1], ps[|ps| - 1];
      SymbolsOfPollsEachOnce(init);
      AppendNewMembers(SymbolsOf(init), last.symbol);
      assert forall k :: 0 <= k < |ps| - 1 ==> init[k] == ps[k];
      forall s | s in SymbolsOf(ps)
        ensures exists k :: 0 <= k < |ps| && ps[k].symbol == s
      {
        if s != last.symbol {
          var k :| 0 <= k < |init| && init[k].symbol == s;
          assert ps[k].symbol == s;
        }
      }
    }
  }

  /** One more position adds its symbol when it is worth polling. */
  lemma SymbolsOfSnoc(ps: seq<Position>, p: Position)
    ensures SymbolsOf(ps + [p]) == if Pollable(p.symbol) then AppendNew(SymbolsOf(ps), p.symbol) else SymbolsOf(ps)
  {
    assert (ps + [p])[..|ps|] == ps;
  }

  /** The inner `forEach`: one account's positions added to the set
      collected so far from the positions `seen`. */
  method AddAccountSymbols(syms: seq<string>, ps: seq<Position>, ghost seen: seq<Position>) returns (r: seq<string>)
    requires syms == SymbolsOf(seen)
    ensures r == SymbolsOf(seen + ps)
  {
    r := syms;
    assert seen + ps[..0] == seen;
    for j := 0 to |ps|
      invariant r == SymbolsOf(seen + ps[..j])
    {
      var sym := ps[j].symbol;
      ghost var prefix := seen + ps[..j];
      if sym != "" && |sym| < 9 {
        r := AppendNew(r, sym);
      }
      assert r == SymbolsOf(seen + ps[..j + 1]) by {
        assert seen + ps[..j + 1] == prefix + [ps[j]];
        SymbolsOfSnoc(prefix, ps[j]);
      }
    }
    assert ps[..|ps|] == ps;
  }

  /** `symbols`: the nested `forEach` over accounts and positions that fills
      the set. */
  method CollectSymbols(accounts: seq<Account>) returns (syms: seq<string>)
    ensures syms == SymbolsOf(AllPositions(accounts))
  {
    syms := [];
    for i := 0 to |accounts|
      invariant syms == SymbolsOf(AllPositions(accounts[..i]))
    {
      syms := AddAccountSymbols(syms, accounts[i].positions, AllPositions(accounts[..i]));
      assert accounts[..i + 1][..i] == accounts[..i];
    }
    assert accounts[..|accounts|] == accounts;
  }

  function RealId(x: real): real {
    x
  }

  /** `symbols.map(() => 100 / symbols.length)`. */
  function EqualWeights(syms: seq<string>): (w: seq<real>)
    ensures |w| == |syms|
    ensures forall i :: 0 <= i < |w| ==> w[i] * (|syms| as real) == 100.0
  {
    seq(|syms|, i requires 0 <= i < |syms| => 100.0 / (|syms| as real))
  }

  lemma {:induction false} SumOfConstant(s: seq<real>, c: real)
    requires forall i :: 0 <= i < |s| ==> s[i] == c
    ensures SumOf(s, RealId) == (|s| as real) * c
    decreases |s|
  {
    if s != [] {
      SumOfConstant(s[..|s| - 1], c);
    }
  }

  /** The equal backtest weights add up to 100 whenever there is a symbol. */
  lemma EqualWeightsSumToHundred(syms: seq<string>)
    requires syms != []
    ensures SumOf(EqualWeights(syms), RealId) == 100.0
  {
    var n := |syms| as real;
    SumOfConstant(EqualWeights(syms), 100.0 / n);
    assert n * (100.0 / n) == 100.0;
  }

  // ---------------------------------------------------------------------
  // Price refresh

  /** The position holds `symbol` and differs from the quote in price, name
      or yield. */
  predicate NeedsRefresh(p: Position, symbol: string, d: Quote) {
    p.symbol == symbol && (p.price != d.price || p.description != d.name || p.dividendYield != d.dividendYield)
  }

  /** The refreshed position. The stored value is `quantity * price`, with
      no bond scaling. */
  function RefreshPosition(p: Position, d: Quote): Position {
    p.(price := d.price, description := d.name, dividendYield := d.dividendYield,
       currentValue := p.quantity * d.price)
  }

  function RefreshIfStale(p: Position, symbol: string, d: Quote): Position {
    if NeedsRefresh(p, symbol, d) then RefreshPosition(p, d) else p
  }

  function RefreshedPositions(ps: seq<Position>, symbol: string, d: Quote): seq<Position> {
    seq(|ps|, k requires 0 <= k < |ps| => RefreshIfStale(ps[k], symbol, d))
  }

  function RefreshedAccounts(accounts: seq<Account>, symbol: string, d: Quote): seq<Account> {
    seq(|accounts|, i requires 0 <= i < |accounts| =>
      accounts[i].(positions := RefreshedPositions(accounts[i].positions, symbol, d)))
  }

  /** Some position of some account needs the quote. */
  predicate AnyStale(accounts: seq<Account>, symbol: string, d: Quote) {
    exists i, k :: 0 <= i < |accounts| && 0 <= k < |accounts[i].positions|
      && NeedsRefresh(accounts[i].positions[k], symbol, d)
  }

  /** The two `map`s of `handlePriceUpdate`, with the `hasUpdates` flag that
      the inner one raises. */
  method RefreshAccounts(accounts: seq<Account>, symbol: string, d: Quote)
    returns (updated: seq<Account>, hasUpdates: bool)
    ensures updated == RefreshedAccounts(accounts, symbol, d)
    ensures hasUpdates <==> AnyStale(accounts, symbol, d)
  {
    hasUpdates := false;
    updated := [];
    for i := 0 to |accounts|
      invariant |updated| == i
      invariant forall a :: 0 <= a < i ==>
        updated[a] == accounts[a].(positions := RefreshedPositions(accounts[a].positions, symbol, d))
      invariant hasUpdates <==>
        exists a, k :: 0 <= a < i && 0 <= k < |accounts[a].positions| && NeedsRefresh(accounts[a].positions[k], symbol, d)
    {
      var ps := accounts[i].positions;
      var newPositions: seq<Position> := [];
      ghost var earlier := hasUpdates;
      for k := 0 to |ps|
        invariant |newPositions| == k
        invariant forall j :: 0 <= j < k ==> newPositions[j] == RefreshIfStale(ps[j], symbol, d)
        invariant hasUpdates <==> earlier || exists j :: 0 <= j < k && NeedsRefresh(ps[j], symbol, d)
      {
        var p := ps[k];
        if p.symbol == symbol && (p.price != d.price || p.description != d.name || p.dividendYield != d.dividendYield) {
          hasUpdates := true;
          newPositions := newPositions + [RefreshPosition(p, d)];
        } else {
          newPositions := newPositions + [p];
        }
      }
      assert newPositions == RefreshedPositions(ps, symbol, d);
      updated := updated + [accounts[i].(positions := newPositions)];
    }
  }

  /** A refreshed position carries the quote, values its holding at
      `quantity * price`, and keeps every other field. */
  lemma RefreshPositionFields(p: Position, symbol: string, d: Quote)
    ensures var q := RefreshIfStale(p, symbol, d);
      && q.id == p.id && q.symbol == p.symbol && q.quantity == p.quantity
      && q.targetPct == p.targetPct && q.roundingMode == p.roundingMode
      && q.assetClass == p.assetClass && q.sector == p.sector
      && q.stateCode == p.stateCode && q.logoTicker == p.logoTicker
      && (p.symbol == symbol ==>
            q.price == d.price && q.description == d.name && q.dividendYield == d.dividendYield)
      && (NeedsRefresh(p, symbol, d) ==> q.currentValue == p.quantity * d.price)
      && (!NeedsRefresh(p, symbol, d) ==> q == p)
  {
  }

  /** Positions of other symbols are never touched, and the account list
      keeps its length and its account fields. */
  lemma RefreshTouchesOnlySymbol(accounts: seq<Account>, symbol: string, d: Quote)
    ensures var r := RefreshedAccounts(accounts, symbol, d);
      && |r| == |accounts|
      && forall i :: 0 <= i < |r| ==>
           && r[i].id == accounts[i].id && r[i].cash == accounts[i].cash
           && |r[i].positions| == |accounts[i].positions|
           && forall k :: 0 <= k < |r[i].positions| && accounts[i].positions[k].symbol != symbol ==>
                r[i].positions[k] == accounts[i].positions[k]
  {
  }

  /** Without a stale position the refresh is the identity, which is why the
      store is left alone when `hasUpdates` stays false. */
  lemma NoStaleMeansNoChange(accounts: seq<Account>, symbol: string, d: Quote)
    ensures !AnyStale(accounts, symbol, d) <==> RefreshedAccounts(accounts, symbol, d) == accounts
  {
    var r := RefreshedAccounts(accounts, symbol, d);
    if !AnyStale(accounts, symbol, d) {
      forall i | 0 <= i < |accounts|
        ensures r[i] == accounts[i]
      {
        assert RefreshedPositions(accounts[i].positions, symbol, d) == accounts[i].positions;
      }
    } else {
      var i, k :| 0 <= i < |accounts| && 0 <= k < |accounts[i].positions|
        && NeedsRefresh(accounts[i].positions[k], symbol, d);
      assert !NeedsRefresh(r[i].positions[k], symbol, d);
    }
  }

  /** A second refresh with the same quote finds nothing to change. */
  lemma RefreshSettles(accounts: seq<Account>, symbol: string, d: Quote)
    ensures !AnyStale(RefreshedAccounts(accounts, symbol, d), symbol, d)
  {
  }

  /** For a bond the refreshed stored value is 100 times the market value
      the rebalancing table computes for the same holding. */
  lemma BondStoredValueDiverges(p: Position, d: Quote)
    requires IsBond(p.symbol)
    ensures RefreshPosition(p, d).currentValue == 100.0 * MarketValue(RefreshPosition(p, d))
  {
  }

  /** `handlePriceUpdate`: the store is updated only when some position
      changed. */
  method HandlePriceUpdate(store: ClientStore, client: Client, symbol: string, d: Quote, now: int)
    modifies store
    ensures AnyStale(client.accounts, symbol, d) ==>
      store.clients == UpdateClients(old(store.clients), client.id,
                                     AccountsPatch(RefreshedAccounts(client.accounts, symbol, d)), now)
    ensures !AnyStale(client.accounts, symbol, d) ==> store.clients == old(store.clients)
  {
    var updated, hasUpdates := RefreshAccounts(client.accounts, symbol, d);
    if hasUpdates {
      store.UpdateClient(client.id, AccountsPatch(updated), now);
    }
  }

  // ---------------------------------------------------------------------
  // Position edits from the table

  function HasAccountId(id: string): Account -> bool {
    (a: Account) => a.id == id
  }

  function HasPositionId(id: string): Position -> bool {
    (p: Position) => p.id == id
  }

  function PositionIdIsNot(id: string): Position -> bool {
    (p: Position) => p.id != id
  }

  /** The accounts after merging `u` into the first position with
      `positionId` of the first account with `accountId`; `None` when either
      id is unknown. */
  function PatchedAccounts(accounts: seq<Account>, accountId: string, positionId: string, u: PositionPatch)
    : Option<seq<Account>>
  {
    var ai := IndexWhere(accounts, HasAccountId(accountId));
    if ai == -1 then None
    else
      var ps := accounts[ai].positions;
      var pi := IndexWhere(ps, HasPositionId(positionId));
      if pi == -1 then None
      else Some(accounts[ai := accounts[ai].(positions := ps[pi := ApplyPatch(ps[pi], u)])])
  }

  /** An edit is made exactly when both ids are found, and it touches one
      position only: every other account, and every other position of the
      edited account, is kept. */
  lemma PatchTouchesOnePosition(accounts: seq<Account>, accountId: string, positionId: string, u: PositionPatch)
    ensures PatchedAccounts(accounts, accountId, positionId, u).Some? <==>
      exists i, j :: 0 <= i < |accounts| && accounts[i].id == accountId
        && 0 <= j < |accounts[i].positions| && accounts[i].positions[j].id == positionId
        && forall k :: 0 <= k < i ==> accounts[k].id != accountId
    ensures PatchedAccounts(accounts, accountId, positionId, u).Some? ==>
      var r := PatchedAccounts(accounts, accountId, positionId, u).value;
      var ai := IndexWhere(accounts, HasAccountId(accountId));
      var pi := IndexWhere(accounts[ai].positions, HasPositionId(positionId));
      && |r| == |accounts|
      && (forall i :: 0 <= i < |accounts| && i != ai ==> r[i] == accounts[i])
      && accounts[ai].id == accountId && r[ai].id == accountId
      && |r[ai].positions| == |accounts[ai].positions|
      && accounts[ai].positions[pi].id == positionId
      && r[ai].positions[pi] == ApplyPatch(accounts[ai].positions[pi], u)
      && (forall j :: 0 <= j < |r[ai].positions| && j != pi ==> r[ai].positions[j] == accounts[ai].positions[j])
  {
    var ai := IndexWhere(accounts, HasAccountId(accountId));
    if ai != -1 {
      var pi := IndexWhere(accounts[ai].positions, HasPositionId(positionId));
      if pi == -1 {
        forall i, j | 0 <= i < |accounts| && accounts[i].id == accountId
          && 0 <= j < |accounts[i].positions| && accounts[i].positions[j].id == positionId
          ensures exists k :: 0 <= k < i && accounts[k].id == accountId
        {
          assert HasPositionId(positionId)(accounts[i].positions[j]);
          if i == ai {
            assert false;
          }
          assert HasAccountId(accountId)(accounts[ai]);
          assert i > ai;
        }
      } else {
        assert HasAccountId(accountId)(accounts[ai]);
        assert HasPositionId(positionId)(accounts[ai].positions[pi]);
        forall k | 0 <= k < ai
          ensures accounts[k].id != accountId
        {
          assert !HasAccountId(accountId)(accounts[k]);
        }
      }
    } else {
      forall i | 0 <= i < |accounts|
        ensures accounts[i].id != accountId
      {
        assert !HasAccountId(accountId)(accounts[i]);
      }
    }
  }

  /** `handleUpdatePosition`: copies the account array and the position
      array of the first account with `accountId`, and merges `u` into the
      first position with `positionId`. */
  method UpdatePosition(accounts: seq<Account>, accountId: string, positionId: string, u: PositionPatch)
    returns (r: Option<seq<Account>>)
    ensures r == PatchedAccounts(accounts, accountId, positionId, u)
  {
    var accountIndex := IndexWhere(accounts, HasAccountId(accountId));
    if accountIndex == -1 {
      return None;
    }
    var updatedAccounts := new Account[|accounts|](i requires 0 <= i < |accounts| => accounts[i]);
    assert updatedAccounts[..] == accounts;
    var account := updatedAccounts[accountIndex];
    var positionIndex := IndexWhere(account.positions, HasPositionId(positionId));
    if positionIndex == -1 {
      return None;
    }
    var updatedPositions := new Position[|account.positions|](i requires 0 <= i < |account.positions| => account.positions[i]);
    assert updatedPositions[..] == account.positions;
    updatedPositions[positionIndex] := ApplyPatch(updatedPositions[positionIndex], u);
    assert updatedPositions[..] == account.positions[positionIndex := ApplyPatch(account.positions[positionIndex], u)];
    updatedAccounts[accountIndex] := account.(positions := updatedPositions[..]);
    assert updatedAccounts[..] == accounts[accountIndex := account.(positions := updatedPositions[..])];
    return Some(updatedAccounts[..]);
  }

  /** The position `handleAddPosition` creates. */
  function NewPosition(id: string, symbol: string): Position {
    Position(id, Upper(symbol), "New Position", 0.0, 100.0, 0.0, Rate(0.0), 0.0, Nearest,
             None, None, None, None)
  }

  /** `handleAddPosition`: appends a new position to the first account with
      `accountId`; `None` when there is no such account. */
  method AddPosition(accounts: seq<Account>, accountId: string, symbol: string, newId: string)
    returns (r: Option<seq<Account>>)
    ensures var ai := IndexWhere(accounts, HasAccountId(accountId));
      && (ai == -1 <==> r.None?)
      && (ai != -1 ==>
            && |r.value| == |accounts|
            && (forall i :: 0 <= i < |accounts| && i != ai ==> r.value[i] == accounts[i])
            && r.value[ai] == accounts[ai].(positions := accounts[ai].positions + [NewPosition(newId, symbol)]))
  {
    var accountIndex := IndexWhere(accounts, HasAccountId(accountId));
    if accountIndex == -1 {
      return None;
    }
    var updatedAccounts := new Account[|accounts|](i requires 0 <= i < |accounts| => accounts[i]);
    var account := updatedAccounts[accountIndex];
    updatedAccounts[accountIndex] := account.(positions := account.positions + [NewPosition(newId, symbol)]);
    return Some(updatedAccounts[..]);
  }

  /** `handleRemovePosition`: filters the positions of the first account with
      `accountId`; an unknown position id still yields the (unchanged) list,
      so the store is still updated. `None` when there is no such account. */
  method RemovePosition(accounts: seq<Account>, accountId: string, positionId: string)
    returns (r: Option<seq<Account>>)
    ensures var ai := IndexWhere(accounts, HasAccountId(accountId));
      && (ai == -1 <==> r.None?)
      && (ai != -1 ==>
            && |r.value| == |accounts|
            && (forall i :: 0 <= i < |accounts| && i != ai ==> r.value[i] == accounts[i])
            && r.value[ai] == accounts[ai].(positions := Filter(accounts[ai].positions, PositionIdIsNot(positionId))))
  {
    var accountIndex := IndexWhere(accounts, HasAccountId(accountId));
    if accountIndex == -1 {
      return None;
    }
    var updatedAccounts := new Account[|accounts|](i requires 0 <= i < |accounts| => accounts[i]);
    var account := updatedAccounts[accountIndex];
    updatedAccounts[accountIndex] := account.(positions := Filter(account.positions, PositionIdIsNot(positionId)));
    return Some(updatedAccounts[..]);
  }

  /** Removal drops exactly the positions with that id and keeps the others
      in order. */
  lemma RemovedPositions(ps: seq<Position>, positionId: string)
    ensures forall p :: p in Filter(ps, PositionIdIsNot(positionId)) <==> p in ps && p.id != positionId
    ensures forall a, b :: ps == a + b ==>
      Filter(ps, PositionIdIsNot(positionId))
        == Filter(a, PositionIdIsNot(positionId)) + Filter(b, PositionIdIsNot(positionId))
  {
    forall p {
      FilterMembership(ps, PositionIdIsNot(positionId), p);
    }
    forall a, b | ps == a + b {
      FilterConcat(a, b, PositionIdIsNot(positionId));
    }
  }

  /** The common tail of the edit handlers: an edit that produced accounts
      goes to `updateClient`; one that did not leaves the store alone. */
  method CommitAccounts(store: ClientStore, client: Client, edited: Option<seq<Account>>, now: int)
    modifies store
    ensures edited.Some? ==>
      store.clients == UpdateClients(old(store.clients), client.id, AccountsPatch(edited.value), now)
    ensures edited.None? ==> store.clients == old(store.clients)
  {
    if edited.Some? {
      store.UpdateClient(client.id, AccountsPatch(edited.value), now);
    }
  }

  // ---------------------------------------------------------------------
  // AI classification scan

  /** `updatesMap.get(symbol)`: the last entry for the symbol, since each
      later `set` of a key overwrites the earlier one. */
  function UpdateFor(classified: seq<Position>, symbol: string): (u: Option<Position>)
    ensures u.None? <==> forall k :: 0 <= k < |classified| ==> classified[k].symbol != symbol
    ensures u.Some? ==> u.value.symbol == symbol
    ensures u.Some? ==>
      exists k :: 0 <= k < |classified| && classified[k] == u.value
        && forall j :: k < j < |classified| ==> classified[j].symbol != symbol
    decreases |classified|
  {
    if classified == [] then None
    else if classified[|classified| - 1].symbol == symbol then Some(classified[|classified| - 1])
    else
      var init := classified[..|classified| - 1];
      var u := UpdateFor(init, symbol);
      if u.Some? then
        var k :| 0 <= k < |init| && init[k] == u.value && forall j :: k < j < |init| ==> init[j].symbol != symbol;
        assert classified[k] == u.value;
        assert forall j :: k < j < |classified| ==> classified[j].symbol != symbol by {
          forall j | k < j < |classified|
            ensures classified[j].symbol != symbol
          {
            if j < |init| {
              assert classified[j] == init[j];
            }
          }
        }
        u
      else u
  }

  function SymbolSet(ps: seq<Position>): set<string> {
    set p | p in ps :: p.symbol
  }

  /** `Array.from(new Map(ps.map(p => [p.symbol, p])).values())`: one entry
      per symbol, placed where the symbol first appeared, holding its last
      position. */
  function UniqueBySymbol(ps: seq<Position>): (r: seq<Position>)
    ensures |r| <= |ps|
    decreases |ps|
  {
    if ps == [] then [] else PutBySymbol(UniqueBySymbol(ps[..|ps| - 1]), ps[|ps| - 1])
  }

  /** `map.set(p.symbol, p)`: a known symbol keeps its place and takes the
      new position, a new one goes last. */
  function PutBySymbol(us: seq<Position>, p: Position): (r: seq<Position>)
    ensures |us| <= |r| <= |us| + 1
  {
    var i := IndexWhere(us, (q: Position) => q.symbol == p.symbol);
    if i == -1 then us + [p] else us[i := p]
  }

  predicate DistinctSymbols(ps: seq<Position>) {
    forall i, j :: 0 <= i < j < |ps| ==> ps[i].symbol != ps[j].symbol
  }

  /** The deduplicated list holds each symbol once. */
  lemma {:induction false} UniqueBySymbolDistinct(ps: seq<Position>)
    ensures DistinctSymbols(UniqueBySymbol(ps))
    decreases |ps|
  {
    if ps != [] {
      var pre, last := ps[..|ps| - 1], ps[|ps| - 1];
      var init := UniqueBySymbol(pre);
      UniqueBySymbolDistinct(pre);
      var i := IndexWhere(init, (q: Position) => q.symbol == last.symbol);
      var r := UniqueBySymbol(ps);
      if i == -1 {
        assert r == init + [last];
        assert forall k :: 0 <= k < |init| ==> init[k].symbol != last.symbol;
        forall a, b | 0 <= a < b < |r|
          ensures r[a].symbol != r[b].symbol
        {
          assert r[a] == init[a];
          if b == |init| {
            assert r[b] == last;
          } else {
            assert r[b] == init[b];
          }
        }
      } else {
        assert r == init[i := last];
        assert forall k :: 0 <= k < |r| ==> r[k].symbol == init[k].symbol;
      }
    }
  }

  /** One more position adds its symbol to the set. */
  lemma SymbolSetSnoc(ps: seq<Position>, p: Position)
    ensures SymbolSet(ps + [p]) == SymbolSet(ps) + {p.symbol}
  {
    forall x | x in SymbolSet(ps + [p])
      ensures x in SymbolSet(ps) + {p.symbol}
    {
      var q :| q in ps + [p] && q.symbol == x;
      if q != p {
        assert q in ps;
      }
    }
    forall x | x in SymbolSet(ps) + {p.symbol}
      ensures x in SymbolSet(ps + [p])
    {
      if x == p.symbol {
        assert p in ps + [p];
      } else {
        var q :| q in ps && q.symbol == x;
        assert q in ps + [p];
      }
    }
  }

  /** Putting a position adds its symbol and loses none. */
  lemma PutBySymbolSymbols(us: seq<Position>, p: Position)
    ensures SymbolSet(PutBySymbol(us, p)) == SymbolSet(us) + {p.symbol}
  {
    var i := IndexWhere(us, (q: Position) => q.symbol == p.symbol);
    var r := PutBySymbol(us, p);
    if i == -1 {
      SymbolSetSnoc(us, p);
    } else {
      forall x | x in SymbolSet(us) + {p.symbol}
        ensures x in SymbolSet(r)
      {
        if x == p.symbol {
          assert r[i] == p;
        } else {
          var k :| 0 <= k < |us| && us[k].symbol == x;
          assert r[k] == us[k];
        }
      }
      forall x | x in SymbolSet(r)
        ensures x in SymbolSet(us) + {p.symbol}
      {
        var k :| 0 <= k < |r| && r[k].symbol == x;
        if k != i {
          assert us[k] == r[k];
        }
      }
    }
  }

  /** The deduplicated list has exactly the symbols of the input. */
  lemma {:induction false} UniqueBySymbolCovers(ps: seq<Position>)
    ensures SymbolSet(UniqueBySymbol(ps)) == SymbolSet(ps)
    decreases |ps|
  {
    if ps != [] {
      var pre, last := ps[..|ps| - 1], ps[|ps| - 1];
      UniqueBySymbolCovers(pre);
      assert ps == pre + [last];
      SymbolSetSnoc(pre, last);
      PutBySymbolSymbols(UniqueBySymbol(pre), last);
    }
  }

  /** Each entry of `r` is the last position of `ps` with its symbol. */
  predicate LastOfEachSymbol(r: seq<Position>, ps: seq<Position>) {
    forall k :: 0 <= k < |r| ==> UpdateFor(ps, r[k].symbol) == Some(r[k])
  }

  /** Each entry is the last position that had its symbol. */
  lemma {:induction false} UniqueBySymbolKeepsLast(ps: seq<Position>)
    ensures LastOfEachSymbol(UniqueBySymbol(ps), ps)
    decreases |ps|
  {
    if ps != [] {
      var pre, last := ps[..|ps| - 1], ps[|ps| - 1];
      var init := UniqueBySymbol(pre);
      UniqueBySymbolKeepsLast(pre);
      UniqueBySymbolDistinct(pre);
      var i := IndexWhere(init, (q: Position) => q.symbol == last.symbol);
      var r := UniqueBySymbol(ps);
      forall k | 0 <= k < |r|
        ensures UpdateFor(ps, r[k].symbol) == Some(r[k])
      {
        if i == -1 && k < |init| {
          assert r == init + [last];
          assert r[k] == init[k];
          assert forall j :: 0 <= j < |init| ==> init[j].symbol != last.symbol;
          assert UpdateFor(ps, r[k].symbol) == UpdateFor(pre, init[k].symbol);
        } else if i != -1 && k != i {
          assert r == init[i := last];
          assert r[k] == init[k];
          assert init[i].symbol == last.symbol;
          assert init[k].symbol != init[i].symbol;
          assert UpdateFor(ps, r[k].symbol) == UpdateFor(pre, init[k].symbol);
        } else {
          assert r[k] == last;
        }
      }
    }
  }

  /** Copies the four classification fields of an update, including absent
      ones. */
  function ScanPosition(p: Position, u: Option<Position>): Position {
    match u
    case None => p
    case Some(c) => p.(assetClass := c.assetClass, sector := c.sector,
                       stateCode := c.stateCode, logoTicker := c.logoTicker)
  }

  function ApplyScan(accounts: seq<Account>, classified: seq<Position>): seq<Account> {
    seq(|accounts|, i requires 0 <= i < |accounts| =>
      accounts[i].(positions := seq(|accounts[i].positions|, k requires 0 <= k < |accounts[i].positions| =>
        ScanPosition(accounts[i].positions[k], UpdateFor(classified, accounts[i].positions[k].symbol)))))
  }

  /** The scan overwrites the classification fields and nothing else, and
      only for positions whose symbol came back classified. */
  lemma ApplyScanTouchesOnlyClassification(accounts: seq<Account>, classified: seq<Position>)
    ensures var r := ApplyScan(accounts, classified);
      && |r| == |accounts|
      && forall i :: 0 <= i < |r| ==>
           && r[i].id == accounts[i].id && r[i].cash == accounts[i].cash
           && |r[i].positions| == |accounts[i].positions|
           && forall k :: 0 <= k < |r[i].positions| ==>
                var p, q := accounts[i].positions[k], r[i].positions[k];
                && q == p.(assetClass := q.assetClass, sector := q.sector,
                           stateCode := q.stateCode, logoTicker := q.logoTicker)
                && ((forall c :: 0 <= c < |classified| ==> classified[c].symbol != p.symbol) ==> q == p)
  {
  }

  /** `handleAiScan`: the positions of all accounts, one per symbol, go to
      the classifier (`scan`, which stands for the remote model call and
      yields `None` when it throws); its answer is merged into every account
      and stored. A failed scan leaves the store alone. */
  method HandleAiScan(store: ClientStore, client: Client, scan: seq<Position> -> Option<seq<Position>>, now: int)
    modifies store
    ensures var asked := UniqueBySymbol(AllPositions(client.accounts));
      && (scan(asked).Some? ==>
            store.clients == UpdateClients(old(store.clients), client.id,
                                           AccountsPatch(ApplyScan(client.accounts, scan(asked).value)), now))
      && (scan(asked).None? ==> store.clients == old(store.clients))
  {
    var uniquePositions := UniqueBySymbol(AllPositions(client.accounts));
    var classified := scan(uniquePositions);
    if classified.Some? {
      store.UpdateClient(client.id, AccountsPatch(ApplyScan(client.accounts, classified.value)), now);
    }
  }
}

/** The client list of `useStore`: every operation maps the old list to a
    new one, and the hook holds the current list. The hook's state is the
    `ClientStore` class; the list transformations it applies are functions. */
module Store {
  import opened Wrappers
  import opened Seqs
  import opened Portfolio

  /** `acc.positions.reduce((sum, pos) => sum + pos.currentValue, 0)`. */
  function PositionsValue(a: Account): real {
    SumOf(a.positions, CurrentValueOf)
  }

  /** The outer fold of `getClientValue`: each account adds its positions'
      stored values and then its cash. */
  function AccountsValue(accounts: seq<Account>): real
    decreases |accounts|
  {
    if accounts == [] then 0.0
    else
      var last := accounts[|accounts| - 1];
      AccountsValue(accounts[..|accounts| - 1]) + PositionsValue(last) + last.cash
  }

  /** `getClientValue`: built from the stored `currentValue` fields, not from
      a recomputed market value. */
  function ClientValue(c: Client): (v: real)
    ensures c.accounts == [] ==> v == 0.0
  {
    AccountsValue(c.accounts)
  }

  /** The client value is the stored value of every position of every
      account plus the cash of every account. */
  lemma {:induction false} AccountsValueSplits(accounts: seq<Account>)
    ensures AccountsValue(accounts)
            == SumOf(AllPositions(accounts), CurrentValueOf) + SumOf(accounts, CashOf)
    decreases |accounts|
  {
    if accounts != [] {
      var init, last := accounts[..|accounts| - 1], accounts[|accounts| - 1];
      AccountsValueSplits(init);
      SumOfConcat(AllPositions(init), last.positions, CurrentValueOf);
    }
  }

  /** The value of a list of accounts is additive under concatenation. */
  lemma AccountsValueConcat(a: seq<Account>, b: seq<Account>)
    ensures AccountsValue(a + b) == AccountsValue(a) + AccountsValue(b)
  {
    AccountsValueSplits(a + b);
    AccountsValueSplits(a);
    AccountsValueSplits(b);
    AllPositionsConcat(a, b);
    SumOfConcat(AllPositions(a), AllPositions(b), CurrentValueOf);
    SumOfConcat(a, b, CashOf);
  }

  /** A `Partial<Client>`. */
  datatype ClientPatch = ClientPatch(
    id: Option<string>,
    name: Option<string>,
    lastUpdated: Option<int>,
    accounts: Option<seq<Account>>)

  /** `{ accounts }`, the only patch the detail view sends. */
  function AccountsPatch(accounts: seq<Account>): ClientPatch {
    ClientPatch(None, None, None, Some(accounts))
  }

  /** `{ ...c, ...updates, lastUpdated: now }`. */
  function MergeClient(c: Client, u: ClientPatch, now: int): (r: Client)
    ensures r.lastUpdated == now
    ensures u.accounts.Some? ==> r.accounts == u.accounts.value
    ensures u.accounts.None? ==> r.accounts == c.accounts
    ensures u == AccountsPatch(u.accounts.GetOr(c.accounts)) ==> r.id == c.id && r.name == c.name
  {
    Client(u.id.GetOr(c.id), u.name.GetOr(c.name), now, u.accounts.GetOr(c.accounts))
  }

  /** The timestamp set by the merge wins over one passed in the patch. */
  lemma MergeIgnoresPatchedTimestamp(c: Client, u: ClientPatch, t: int, now: int)
    ensures MergeClient(c, u.(lastUpdated := Some(t)), now) == MergeClient(c, u, now)
  {
  }

  /** The client `addClient` creates: a fresh id, no accounts. */
  function NewClient(id: string, name: string, now: int): Client {
    Client(id, name, now, [])
  }

  function IdIsNot(id: string): Client -> bool {
    (c: Client) => c.id != id
  }

  /** `prev.filter(c => c.id !== id)`. */
  function WithoutClient(cs: seq<Client>, id: string): seq<Client> {
    Filter(cs, IdIsNot(id))
  }

  /** Removing drops exactly the clients with that id. */
  lemma WithoutClientMembers(cs: seq<Client>, id: string)
    ensures forall c :: c in WithoutClient(cs, id) <==> c in cs && c.id != id
  {
    forall c {
      FilterMembership(cs, IdIsNot(id), c);
    }
  }

  /** Removing an id that no client has leaves the list as it was. */
  lemma WithoutAbsentClient(cs: seq<Client>, id: string)
    requires forall i :: 0 <= i < |cs| ==> cs[i].id != id
    ensures WithoutClient(cs, id) == cs
  {
    FilterKeepsAll(cs, IdIsNot(id));
  }

  /** The others keep their relative order: removal distributes over any split
      of the list. */
  lemma WithoutClientKeepsOrder(a: seq<Client>, b: seq<Client>, id: string)
    ensures WithoutClient(a + b, id) == WithoutClient(a, id) + WithoutClient(b, id)
  {
    FilterConcat(a, b, IdIsNot(id));
  }

  /** `prev.map(c => c.id === id ? merge(c) : c)`. */
  function UpdateClients(cs: seq<Client>, id: string, u: ClientPatch, now: int): (r: seq<Client>)
    ensures |r| == |cs|
    ensures forall i :: 0 <= i < |cs| && cs[i].id == id ==> r[i] == MergeClient(cs[i], u, now)
    ensures forall i :: 0 <= i < |cs| && cs[i].id != id ==> r[i] == cs[i]
    decreases |cs|
  {
    if cs == [] then []
    else
      var c := cs[|cs| - 1];
      UpdateClients(cs[..|cs| - 1], id, u, now) + [if c.id == id then MergeClient(c, u, now) else c]
  }

  /** `clients.find(c => c.id === id)`. */
  function FindClient(cs: seq<Client>, id: string): (r: Option<Client>)
    ensures r.None? <==> forall i :: 0 <= i < |cs| ==> cs[i].id != id
    ensures r.Some? ==> r.value.id == id
    ensures r.Some? ==> exists i :: 0 <= i < |cs| && cs[i] == r.value && forall k :: 0 <= k < i ==> cs[k].id != id
  {
    var i := IndexWhere(cs, (c: Client) => c.id == id);
    if i == -1 then None else Some(cs[i])
  }

  /** The demonstration client the store starts with. */
  function InitialData(now: int): seq<Client> {
    [Client("demo-1", "Tom's Retirement", now, [
      Account("acc-1", "Schwab IRA", "IRA", [
        Position("pos-1", "AAPL", "Apple Inc.", 150.0, 185.50, 27825.0, Rate(0.5), 25.0, Nearest,
                 None, None, None, None),
        Position("pos-2", "VTI", "Vanguard Total Stock Market", 400.0, 240.20, 96080.0, Rate(1.4), 75.0, Nearest,
                 None, None, None, None)
      ], 5000.0)
    ])]
  }

  /** The hook's state: the current list of clients. */
  class ClientStore {
    var clients: seq<Client>

    constructor (now: int)
      ensures clients == InitialData(now)
    {
      clients := InitialData(now);
    }

    /** `addClient`: the new client goes first, the rest keep their order. */
    method AddClient(id: string, name: string, now: int)
      modifies this
      ensures clients == [NewClient(id, name, now)] + old(clients)
    {
      clients := [NewClient(id, name, now)] + clients;
    }

    /** `removeClient`. */
    method RemoveClient(id: string)
      modifies this
      ensures clients == WithoutClient(old(clients), id)
    {
      clients := WithoutClient(clients, id);
    }

    /** `updateClient`. */
    method UpdateClient(id: string, u: ClientPatch, now: int)
      modifies this
      ensures clients == UpdateClients(old(clients), id, u, now)
    {
      clients := UpdateClients(clients, id, u, now);
    }
  }
}

/** `PortfoliosView`: the searchable, sortable client list and the guard on
    adding a client. */
module PortfoliosView {
  import opened Seqs
  import opened Text
  import opened Portfolio
  import opened Store

  /** The three orders the view offers. */
  datatype SortKey = Recent | Name | Value

  /** `client.name.toLowerCase().includes(searchTerm.toLowerCase())`. */
  predicate Matches(term: string, c: Client) {
    Contains(Lower(c.name), Lower(term))
  }

  function MatchesTerm(term: string): Client -> bool {
    c => Matches(term, c)
  }

  /** `clients.filter(...)`: a new array, so sorting it leaves the store's
      list as it was. */
  function Matching(clients: seq<Client>, term: string): (r: seq<Client>)
    ensures |r| <= |clients|
  {
    Filter(clients, MatchesTerm(term))
  }

  function LastUpdatedOf(c: Client): real {
    c.lastUpdated as real
  }

  /** The comparator each sort key selects; names use `nameOrder`, which
      stands for `localeCompare`. */
  function Order(sortBy: SortKey, nameOrder: (Client, Client) -> bool): (Client, Client) -> bool {
    match sortBy
    case Recent => DescendingBy(LastUpdatedOf)
    case Name => nameOrder
    case Value => DescendingBy(ClientValue)
  }

  /** `filteredClients`: the matching clients, reordered by the chosen key. */
  method FilteredClients(clients: seq<Client>, term: string, sortBy: SortKey, nameOrder: (Client, Client) -> bool)
    returns (r: seq<Client>)
    requires TotalPreorder(nameOrder)
    ensures multiset(r) == multiset(Matching(clients, term))
    ensures SortedBy(r, Order(sortBy, nameOrder))
    ensures sortBy == Recent ==> forall i, j :: 0 <= i < j < |r| ==> r[i].lastUpdated >= r[j].lastUpdated
    ensures sortBy == Value ==> forall i, j :: 0 <= i < j < |r| ==> ClientValue(r[i]) >= ClientValue(r[j])
  {
    var result := Matching(clients, term);
    DescendingByIsTotalPreorder(LastUpdatedOf);
    DescendingByIsTotalPreorder(ClientValue);
    r := SortedCopy(result, Order(sortBy, nameOrder));
    if sortBy == Recent {
      forall i, j | 0 <= i < j < |r|
        ensures r[i].lastUpdated >= r[j].lastUpdated
      {
        assert DescendingBy(LastUpdatedOf)(r[i], r[j]);
        assert LastUpdatedOf(r[i]) >= LastUpdatedOf(r[j]);
      }
    }
  }

  /** A client is listed exactly when it is in the store and its name
      contains the term, ignoring case. */
  lemma MatchingMembers(clients: seq<Client>, term: string, c: Client)
    ensures c in Matching(clients, term) <==> c in clients && Matches(term, c)
  {
    FilterMembership(clients, MatchesTerm(term), c);
  }

  /** The filter keeps the store's order. */
  lemma MatchingKeepsOrder(a: seq<Client>, b: seq<Client>, term: string)
    ensures Matching(a + b, term) == Matching(a, term) + Matching(b, term)
  {
    FilterConcat(a, b, MatchesTerm(term));
  }

  /** An empty search term lists every client. */
  lemma EmptyTermKeepsAll(clients: seq<Client>)
    ensures Matching(clients, "") == clients
  {
    forall i | 0 <= i < |clients|
      ensures Matches("", clients[i])
    {
      ContainsEmpty(Lower(clients[i].name));
    }
    FilterKeepsAll(clients, MatchesTerm(""));
  }

  /** The search ignores letter case in the term. */
  lemma {:induction false} SearchIgnoresCase(clients: seq<Client>, t1: string, t2: string)
    requires Lower(t1) == Lower(t2)
    ensures Matching(clients, t1) == Matching(clients, t2)
    decreases |clients|
  {
    if clients != [] {
      SearchIgnoresCase(clients[..|clients| - 1], t1, t2);
      assert MatchesTerm(t1)(clients[|clients| - 1]) == MatchesTerm(t2)(clients[|clients| - 1]);
    }
  }

  /** `handleAddClient`: a name that trims to nothing adds no client; any
      other name is added as typed, untrimmed. */
  method HandleAddClient(store: ClientStore, name: string, id: string, now: int)
    modifies store
    ensures IsBlank(name) ==> store.clients == old(store.clients)
    ensures !IsBlank(name) ==> store.clients == [NewClient(id, name, now)] + old(store.clients)
  {
    if !IsBlank(name) {
      store.AddClient(id, name, now);
    }
  }
}

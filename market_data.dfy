/** The quote service of `marketData.ts`: a round-robin rotation over the
    configured API keys, a retry rule for rate-limited requests, and the
    fallbacks that turn three endpoint answers into one `MarketData` record.
    HTTP answers arrive as parameters; nothing here touches the network. */
module MarketData {
  import opened Wrappers
  import opened Seqs
  import opened Text
  import opened Portfolio
  import opened QuoteCache

  /** `[key1, ..., key5].filter(Boolean)`: unset and empty keys are dropped,
      the rest keep their order. */
  function ConfiguredKeys(env: seq<Option<string>>): (keys: seq<string>)
    ensures |keys| <= |env|
    ensures forall i :: 0 <= i < |keys| ==> keys[i] != ""
    ensures forall k :: k in keys <==> Some(k) in env && k != ""
    decreases |env|
  {
    if env == [] then []
    else
      var init := ConfiguredKeys(env[..|env| - 1]);
      var last := env[|env| - 1];
      assert env == env[..|env| - 1] + [last];
      if last.Some? && last.value != "" then init + [last.value] else init
  }

  /** One variable gives its key when set and non-empty, nothing otherwise. */
  lemma ConfiguredKeysSingle(x: Option<string>)
    ensures ConfiguredKeys([x]) == if x.Some? && x.value != "" then [x.value] else []
  {
    assert [x][..0] == [];
  }

  /** The keys of two runs of variables are the keys of each, in order:
      together with `ConfiguredKeysSingle` this fixes the order and the
      repetitions of the list, not just its members. */
  lemma {:induction false} ConfiguredKeysConcat(a: seq<Option<string>>, b: seq<Option<string>>)
    ensures ConfiguredKeys(a + b) == ConfiguredKeys(a) + ConfiguredKeys(b)
    decreases |b|
  {
    if b == [] {
      assert a + b == a;
    } else {
      assert (a + b)[..|a + b| - 1] == a + b[..|b| - 1];
      ConfiguredKeysConcat(a, b[..|b| - 1]);
    }
  }

  /** The index the rotator holds after `k` steps from `start`. */
  function IndexAfter(start: nat, k: nat, len: nat): (i: nat)
    requires len > 0
    ensures i < len
  {
    (start + k) % len
  }

  /** One more step of the rotation is one more step from the start: the
      keys are handed out as `keys[(start + k) mod len]`. */
  lemma IndexAfterStep(start: nat, k: nat, len: nat)
    requires len > 0
    ensures (IndexAfter(start, k, len) + 1) % len == IndexAfter(start, k + 1, len)
  {
    var x := start + k;
    var q, r := x / len, x % len;
    assert x == q * len + r;
    if r + 1 < len {
      ModUnique(r + 1, 0, r + 1, len);
      ModUnique(x + 1, q, r + 1, len);
    } else {
      ModUnique(r + 1, 1, 0, len);
      assert x + 1 == (q + 1) * len + 0;
      ModUnique(x + 1, q + 1, 0, len);
    }
  }

  lemma MulAtLeast(d: int, len: int)
    requires d >= 1 && len > 0
    ensures d * len >= len
  {
    assert d * len == (d - 1) * len + len;
  }

  /** Euclidean remainders are unique. */
  lemma ModUnique(x: int, q: int, r: int, len: int)
    requires len > 0 && 0 <= r < len && x == q * len + r
    ensures x % len == r
  {
    var q0, r0 := x / len, x % len;
    assert x == q0 * len + r0;
    var d := q - q0;
    assert d * len == q * len - q0 * len;
    assert d * len == r0 - r;
    if d >= 1 {
      MulAtLeast(d, len);
    } else if d <= -1 {
      MulAtLeast(-d, len);
    }
  }

  /** The answer of one HTTP request: its status and its parsed body. */
  datatype Response<J> = Response(status: int, body: J)

  datatype FetchError = NoKeys | RateLimited | ApiError(status: int)

  /** The base every endpoint path is appended to. */
  const ApiBase: string := "https://finnhub.io/api/v1"

  /** The request URL: the key is appended with `&` when the endpoint
      already has a query string, otherwise with `?`. */
  function RequestUrl(endpoint: string, key: string): string {
    ApiBase + endpoint + (if '?' in endpoint then "&" else "?") + "token=" + key
  }

  /** Request `k` of `sent` used the `k`-th key after `start`. */
  predicate RoundRobin(sent: seq<string>, endpoint: string, keys: seq<string>, start: nat)
    requires |keys| > 0
  {
    forall k :: 0 <= k < |sent| ==> sent[k] == RequestUrl(endpoint, keys[IndexAfter(start, k, |keys|)])
  }

  /** Every request of `sent` but the last was answered 429; request `k` is
      made with retry counter `retries + k`. */
  predicate RateLimitedUntilLast<J>(sent: seq<string>, server: (nat, string) -> Response<J>, retries: nat) {
    forall k :: 0 <= k < |sent| - 1 ==> server(retries + k, sent[k]).status == 429
  }

  /** A request with the key at `start`, followed by a round-robin run from
      the next index, is a round-robin run from `start`. */
  lemma RoundRobinCons(url: string, rest: seq<string>, endpoint: string, keys: seq<string>, start: nat)
    requires |keys| > 0 && start < |keys|
    requires url == RequestUrl(endpoint, keys[start])
    requires RoundRobin(rest, endpoint, keys, IndexAfter(start, 1, |keys|))
    ensures RoundRobin([url] + rest, endpoint, keys, start)
  {
    var sent := [url] + rest;
    forall k | 0 <= k < |sent|
      ensures sent[k] == RequestUrl(endpoint, keys[IndexAfter(start, k, |keys|)])
    {
      if k == 0 {
        ModUnique(start, 0, start, |keys|);
      } else {
        assert sent[k] == rest[k - 1];
        IndexAfterShift(start, k - 1, |keys|);
      }
    }
  }

  /** A 429 answer followed by a run that was rate limited until its last
      request. */
  lemma RateLimitedCons<J>(url: string, rest: seq<string>, server: (nat, string) -> Response<J>, retries: nat)
    requires server(retries, url).status == 429
    requires RateLimitedUntilLast(rest, server, retries + 1)
    ensures RateLimitedUntilLast([url] + rest, server, retries)
  {
    var sent := [url] + rest;
    forall k | 0 <= k < |sent| - 1
      ensures server(retries + k, sent[k]).status == 429
    {
      if k > 0 {
        assert sent[k] == rest[k - 1];
        assert retries + k == (retries + 1) + (k - 1);
      }
    }
  }

  /** The rotation over the configured keys. */
  class KeyRotator {
    const keys: seq<string>
    var currentIndex: nat

    ghost predicate Valid()
      reads this
    {
      if |keys| == 0 then currentIndex == 0 else currentIndex < |keys|
    }

    constructor (keys: seq<string>)
      ensures Valid() && this.keys == keys && currentIndex == 0
    {
      this.keys := keys;
      currentIndex := 0;
    }

    /** `getNextKey`: fails without keys; otherwise hands out the current
        key and advances, wrapping at the end. */
    method GetNextKey() returns (r: Result<string, FetchError>)
      requires Valid()
      modifies this
      ensures Valid()
      ensures |keys| == 0 ==> r == Failure(NoKeys) && currentIndex == old(currentIndex)
      ensures |keys| > 0 ==> r == Success(keys[old(currentIndex)])
      ensures |keys| > 0 ==> currentIndex == IndexAfter(old(currentIndex), 1, |keys|)
    {
      if |keys| == 0 {
        return Failure(NoKeys);
      }
      r := Success(keys[currentIndex]);
      currentIndex := (currentIndex + 1) % |keys|;
    }

    /** `rotate`: advances the index; without keys it does nothing. */
    method Rotate()
      requires Valid()
      modifies this
      ensures Valid()
      ensures |keys| == 0 ==> currentIndex == old(currentIndex)
      ensures |keys| > 0 ==> currentIndex == IndexAfter(old(currentIndex), 1, |keys|)
    {
      if |keys| > 0 {
        currentIndex := (currentIndex + 1) % |keys|;
      }
    }

    /** `fetchWithRetry`: each attempt takes the next key; a 429 answer is
        retried while `retries < 2 * |keys|`, so a run of rate limits ends
        after at most `2 * |keys| + 1` requests. `server(n, url)` is the
        answer to the request made with retry counter `n`. The sent URLs are
        returned in `sent`. */
    method FetchWithRetry<J>(endpoint: string, retries: nat, server: (nat, string) -> Response<J>)
      returns (r: Result<J, FetchError>, sent: seq<string>)
      requires Valid()
      modifies this
      ensures Valid()
      ensures |keys| == 0 ==> r == Failure(NoKeys) && sent == [] && currentIndex == old(currentIndex)
      ensures |keys| > 0 ==> 1 <= |sent| <= if retries <= 2 * |keys| then 2 * |keys| + 1 - retries else 1
      ensures |keys| > 0 ==> currentIndex == IndexAfter(old(currentIndex), |sent|, |keys|)
      ensures |keys| > 0 ==> RoundRobin(sent, endpoint, keys, old(currentIndex))
      ensures RateLimitedUntilLast(sent, server, retries)
      ensures |keys| > 0 ==>
        var last := server(retries + |sent| - 1, sent[|sent| - 1]);
        && (last.status == 429 ==> r == Failure(RateLimited) && retries + |sent| - 1 >= 2 * |keys|)
        && (last.status != 429 && 200 <= last.status < 300 ==> r == Success(last.body))
        && (last.status != 429 && !(200 <= last.status < 300) ==> r == Failure(ApiError(last.status)))
      decreases if retries <= 2 * |keys| then 2 * |keys| - retries else 0
    {
      if |keys| == 0 {
        return Failure(NoKeys), [];
      }
      ghost var start := currentIndex;
      var key := GetNextKey();
      var url := RequestUrl(endpoint, key.value);
      var response := server(retries, url);
      if response.status == 429 {
        if retries >= |keys| * 2 {
          ModUnique(start, 0, start, |keys|);
          return Failure(RateLimited), [url];
        }
        var rest;
        r, rest := FetchWithRetry(endpoint, retries + 1, server);
        sent := [url] + rest;
        RoundRobinCons(url, rest, endpoint, keys, start);
        RateLimitedCons(url, rest, server, retries);
        IndexAfterShift(start, |rest|, |keys|);
        assert sent[|sent| - 1] == rest[|rest| - 1];
        assert retries + |sent| - 1 == (retries + 1) + |rest| - 1;
        return;
      }
      ModUnique(start, 0, start, |keys|);
      sent := [url];
      if 200 <= response.status < 300 {
        r := Success(response.body);
      } else {
        r := Failure(ApiError(response.status));
      }
    }
  }

  /** Starting one step later is the same as taking one more step. */
  lemma IndexAfterShift(start: nat, k: nat, len: nat)
    requires len > 0
    ensures IndexAfter(IndexAfter(start, 1, len), k, len) == IndexAfter(start, k + 1, len)
  {
    if k == 0 {
    } else {
      IndexAfterShift(start, k - 1, len);
      IndexAfterStep(IndexAfter(start, 1, len), k - 1, len);
      IndexAfterStep(start, k, len);
    }
  }

  /** A number field of a JSON answer: absent, `null`, or a number. */
  datatype NumField = Absent | Null | Num(v: real)

  /** JavaScript truthiness of such a field: a non-zero number. */
  predicate TruthyNum(f: NumField) {
    f.Num? && f.v != 0.0
  }

  /** `ttm || annual`, then "N/A" for `null` or `undefined`. A zero TTM yield
      falls through to the annual figure, and to "N/A" when that is missing. */
  function ResolveYield(ttm: NumField, annual: NumField): (y: Yield)
    ensures TruthyNum(ttm) ==> y == Rate(ttm.v)
    ensures !TruthyNum(ttm) && annual.Num? ==> y == Rate(annual.v)
    ensures !TruthyNum(ttm) && !annual.Num? ==> y == NotAvailable
  {
    var chosen := if TruthyNum(ttm) then ttm else annual;
    if chosen.Num? then Rate(chosen.v) else NotAvailable
  }

  /** A reported TTM yield of exactly 0 with no annual figure shows "N/A",
      not 0. */
  lemma ZeroTtmWithoutAnnualIsNotAvailable()
    ensures ResolveYield(Num(0.0), Absent) == NotAvailable
  {
  }

  /** `quote?.c || 0`. */
  function ResolvePrice(c: NumField): (p: real)
    ensures TruthyNum(c) ==> p == c.v
    ensures !TruthyNum(c) ==> p == 0.0
  {
    if TruthyNum(c) then c.v else 0.0
  }

  /** One row of a symbol search answer. */
  datatype SearchHit = SearchHit(symbol: string, description: Option<string>)

  /** A name that passes `!name || name.trim() === ''` negated. */
  predicate UsableName(name: Option<string>) {
    name.Some? && !IsBlank(name.value)
  }

  /** The search row the name fallback reads: the first exact symbol match,
      otherwise the first row; nothing when the search failed or was empty. */
  function SearchCandidate(symbol: string, search: Option<seq<SearchHit>>): (c: Option<SearchHit>)
    ensures search.None? || search.value == [] ==> c.None?
    ensures search.Some? && search.value != [] ==> c.Some?
    ensures c.Some? ==> c.value in search.value
    ensures c.Some? && c.value.symbol != symbol ==>
      c.value == search.value[0] && forall k :: 0 <= k < |search.value| ==> search.value[k].symbol != symbol
    ensures c.Some? && c.value.symbol == symbol ==>
      forall k :: 0 <= k < |search.value| && search.value[k] != c.value ==>
        search.value[k].symbol != symbol || exists j :: 0 <= j < k && search.value[j] == c.value
  {
    match search
    case None => None
    case Some(hits) =>
      if hits == [] then None
      else
        var i := IndexWhere(hits, (h: SearchHit) => h.symbol == symbol);
        Some(if i >= 0 then hits[i] else hits[0])
  }

  /** The name shown for a symbol: a usable profile name, else a usable
      description from the search, else the symbol itself. */
  function ResolveName(symbol: string, profileName: Option<string>, search: Option<seq<SearchHit>>): (name: string)
    ensures UsableName(profileName) ==> name == profileName.value
    ensures !UsableName(profileName) ==>
      var c := SearchCandidate(symbol, search);
      name == if c.Some? && UsableName(c.value.description) then c.value.description.value else symbol
    ensures !IsBlank(name) || name == symbol
  {
    if UsableName(profileName) then profileName.value
    else
      var c := SearchCandidate(symbol, search);
      if c.Some? && UsableName(c.value.description) then c.value.description.value else symbol
  }

  /** `MarketData`. */
  datatype Quote = Quote(symbol: string, name: string, price: real, dividendYield: Yield)

  /** What the three endpoints, and the search when it is consulted, answered.
      A failed endpoint reads as the empty object its `.catch` substitutes. */
  datatype Answers = Answers(
    profileName: Option<string>,
    quotePrice: NumField,
    yieldTtm: NumField,
    yieldAnnual: NumField,
    search: Option<seq<SearchHit>>)

  /** The record built from the answers. */
  function QuoteOf(symbol: string, a: Answers): (q: Quote)
    ensures q.symbol == symbol
    ensures q.name == ResolveName(symbol, a.profileName, a.search)
    ensures q.price == ResolvePrice(a.quotePrice)
    ensures q.dividendYield == ResolveYield(a.yieldTtm, a.yieldAnnual)
  {
    Quote(symbol, ResolveName(symbol, a.profileName, a.search), ResolvePrice(a.quotePrice),
          ResolveYield(a.yieldTtm, a.yieldAnnual))
  }

  /** The record returned when building the answer fails. */
  function FailureQuote(symbol: string): Quote {
    Quote(symbol, symbol, 0.0, NotAvailable)
  }

  /** The failure record and the record built from all-empty answers agree
      on every field. */
  lemma EmptyAnswersMatchFailure(symbol: string)
    ensures QuoteOf(symbol, Answers(None, Absent, Absent, Absent, None)) == FailureQuote(symbol)
  {
  }

  function CacheKey(symbol: string): string {
    "marketData_" + symbol
  }

  const QuoteTtlSeconds: real := 60.0

  /** `fetchMarketData`: a fresh cached record is returned as it is;
      otherwise `answers` is `None` when building the record failed, which
      yields the failure record and caches nothing, and `Some` with what the
      endpoints said, whose record is cached and returned. */
  method FetchMarketData(cache: GlobalCache<Quote>, symbol: string, now: int, answers: Option<Answers>)
    returns (q: Quote)
    modifies cache
    ensures var looked := CacheGet(old(cache.entries), CacheKey(symbol), QuoteTtlSeconds, now);
      && (looked.value.Some? ==> q == looked.value.value && cache.entries == looked.entries)
      && (looked.value.None? && answers.None? ==> q == FailureQuote(symbol) && cache.entries == looked.entries)
      && (looked.value.None? && answers.Some? ==>
            q == QuoteOf(symbol, answers.value)
            && cache.entries == looked.entries[CacheKey(symbol) := CacheEntry(q, now)])
  {
    var cached := cache.Get(CacheKey(symbol), QuoteTtlSeconds, now);
    if cached.Some? {
      return cached.value;
    }
    if answers.None? {
      return FailureQuote(symbol);
    }
    q := QuoteOf(symbol, answers.value);
    cache.Set(CacheKey(symbol), q, now);
  }
}

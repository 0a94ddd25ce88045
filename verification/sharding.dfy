/**
 Which matcher process owns which symbol. The universe is an ordered list; shard
 i of n keeps every n-th ticker starting at i. The gateway and the matchers apply
 the same rule, so a routed request reaches the one process that accepts it.
 */
module Sharding {
  import opened OrderTypes

  datatype Outcome<+T> = Good(value: T) | ValueError

  function MatcherShard(position: int, shardCount: int): Outcome<int> {
    if shardCount < 1 || position < 0 then ValueError else Good(position % shardCount)
  }

  /** The kept tickers, in universe order. */
  function Keep(tickers: seq<string>, shardIndex: int, shardCount: int): seq<string>
    requires shardCount >= 1
  {
    if tickers == [] then []
    else
      var last := |tickers| - 1;
      Keep(tickers[..last], shardIndex, shardCount) + if last % shardCount == shardIndex then [tickers[last]] else []
  }

  function OwnedTickers(tickers: seq<string>, shardIndex: int, shardCount: int): Outcome<seq<string>> {
    if shardCount < 1 || !(0 <= shardIndex < shardCount) then ValueError
    else if shardCount == 1 then Good(tickers)
    else Good(Keep(tickers, shardIndex, shardCount))
  }

  function FirstIndex(tickers: seq<string>, ticker: string): (r: Option<nat>)
    ensures r.None? <==> ticker !in tickers
    ensures r.Some? ==> r.value < |tickers| && tickers[r.value] == ticker && ticker !in tickers[..r.value]
  {
    if tickers == [] then None
    else if tickers[0] == ticker then Some(0)
    else
      match FirstIndex(tickers[1..], ticker)
      case None => None
      case Some(i) =>
        assert tickers[..i + 1] == [tickers[0]] + tickers[1..][..i];
        Some(i + 1)
  }

  /** A bad shard count is a ValueError, and every ValueError means "no shard". */
  function ShardForTicker(tickers: seq<string>, ticker: string, shardCount: int): Option<int> {
    match FirstIndex(tickers, ticker)
    case None => None
    case Some(i) =>
      match MatcherShard(i, shardCount)
      case Good(k) => Some(k)
      case ValueError => None
  }

  ghost predicate Distinct(tickers: seq<string>) {
    forall p, q | 0 <= p < q < |tickers| :: tickers[p] != tickers[q]
  }

  /** How many of the positions 0..length-1 belong to shard i of n. */
  function Share(length: nat, i: int, n: int): int
    requires 0 <= i < n
  {
    if length <= i then 0 else (length - 1 - i) / n + 1
  }

  lemma {:induction false} DivStep(a: nat, n: int)
    requires n >= 1
    ensures (a + 1) / n == if (a + 1) % n == 0 then a / n + 1 else a / n
  {
    var q, r := a / n, a % n;
    assert a == q * n + r;
    if r + 1 == n {
      assert a + 1 == (q + 1) * n;
      Quotient(a + 1, q + 1, 0, n);
    } else {
      Quotient(a + 1, q, r + 1, n);
    }
  }

  lemma {:induction false} Quotient(a: int, q: int, r: int, n: int)
    requires 0 <= r < n && a == q * n + r
    ensures a / n == q && a % n == r
  {
    var d := q - a / n;
    assert a == (a / n) * n + a % n;
    assert d * n == q * n - (a / n) * n;
    AtLeast(d, n);
    AtLeast(-d, n);
  }

  lemma {:induction false} AtLeast(d: int, n: int)
    requires n >= 1
    ensures d >= 1 ==> d * n >= n
    ensures (-d) * n == -(d * n)
  {
    if d >= 1 {
      assert d * n == (d - 1) * n + n;
    }
  }

  lemma {:induction false} ShareStep(length: nat, i: int, n: int)
    requires 0 <= i < n
    ensures Share(length + 1, i, n) == Share(length, i, n) + if length % n == i then 1 else 0
    ensures length % n == i ==> length == i + Share(length, i, n) * n
  {
    if length < i {
      Quotient(length, 0, length, n);
    } else if length == i {
      Quotient(i, 0, i, n);
      Quotient(0, 0, 0, n);
    } else {
      DivStep(length - 1 - i, n);
      var d := length - i;
      var q, r := d / n, d % n;
      assert d == q * n + r;
      if r == 0 {
        Quotient(length, q, i, n);
      } else if length % n == i {
        Quotient(d, length / n, 0, n);
      }
    }
  }

  /** Shard i's j-th ticker is the universe's (i + j * n)-th, and there is one for every such position. */
  lemma {:induction false} KeepsEveryNth(tickers: seq<string>, i: int, n: int)
    requires 0 <= i < n
    ensures |Keep(tickers, i, n)| == Share(|tickers|, i, n)
    ensures forall j | 0 <= j < |Keep(tickers, i, n)| ::
              0 <= i + j * n < |tickers| && Keep(tickers, i, n)[j] == tickers[i + j * n]
  {
    if tickers != [] {
      var last := |tickers| - 1;
      KeepsEveryNth(tickers[..last], i, n);
      ShareStep(last, i, n);
      var before := Keep(tickers[..last], i, n);
      forall j | 0 <= j < |Keep(tickers, i, n)|
        ensures 0 <= i + j * n < |tickers| && Keep(tickers, i, n)[j] == tickers[i + j * n]
      {
        if j < |before| {
          assert 0 <= i + j * n < last && before[j] == tickers[..last][i + j * n];
        }
      }
    }
  }

  lemma {:induction false} OwnedIsKept(tickers: seq<string>, i: int, n: int)
    requires 0 <= i < n
    ensures OwnedTickers(tickers, i, n) == Good(Keep(tickers, i, n))
  {
    if n == 1 {
      KeepsAll(tickers);
    }
  }

  lemma {:induction false} KeepsAll(tickers: seq<string>)
    ensures Keep(tickers, 0, 1) == tickers
  {
    if tickers != [] {
      KeepsAll(tickers[..|tickers| - 1]);
    }
  }

  /** The ticker at position p is kept by shard p % n. */
  lemma {:induction false} KeptAt(tickers: seq<string>, p: nat, n: int)
    requires p < |tickers| && n >= 1
    ensures tickers[p] in Keep(tickers, p % n, n)
  {
    var last := |tickers| - 1;
    if p < last {
      KeptAt(tickers[..last], p, n);
    }
  }

  /** A kept ticker has a position of its shard. */
  lemma {:induction false} KeptFrom(tickers: seq<string>, x: string, i: int, n: int) returns (p: nat)
    requires 0 <= i < n && x in Keep(tickers, i, n)
    ensures p < |tickers| && tickers[p] == x && p % n == i
  {
    var last := |tickers| - 1;
    if last % n == i && tickers[last] == x {
      p := last;
    } else {
      p := KeptFrom(tickers[..last], x, i, n);
    }
  }

  /** Shard sizes differ by at most one, and earlier shards are never the smaller ones. */
  lemma {:induction false} BalancedShards(tickers: seq<string>, i: int, k: int, n: int)
    requires 0 <= i < k < n
    ensures OwnedTickers(tickers, i, n).Good? && OwnedTickers(tickers, k, n).Good?
    ensures |OwnedTickers(tickers, k, n).value| <= |OwnedTickers(tickers, i, n).value|
              <= |OwnedTickers(tickers, k, n).value| + 1
  {
    OwnedIsKept(tickers, i, n);
    OwnedIsKept(tickers, k, n);
    KeepsEveryNth(tickers, i, n);
    KeepsEveryNth(tickers, k, n);
    CloseShares(|tickers|, i, k, n);
  }

  lemma {:induction false} NextRemainder(length: int, n: int)
    requires length > 0 && n > 0
    ensures var r := (length - 1) % n; 0 <= r < n && length % n == if r + 1 == n then 0 else r + 1
  {
    var q, r := (length - 1) / n, (length - 1) % n;
    assert length - 1 == q * n + r;
    if r + 1 == n {
      assert length == (q + 1) * n;
      Quotient(length, q + 1, 0, n);
    } else {
      Quotient(length, q, r + 1, n);
    }
  }

  /** One more ticker keeps two shares close. */
  lemma {:induction false} StillClose(a: int, b: int, r: int, r': int, i: int, k: int, n: int)
    requires 0 <= i < k < n && 0 <= r < n && b <= a <= b + 1 && (b < a <==> i < r <= k)
    requires r' == if r + 1 == n then 0 else r + 1
    ensures var a', b' := a + (if r == i then 1 else 0), b + (if r == k then 1 else 0);
            b' <= a' <= b' + 1 && (b' < a' <==> i < r' <= k)
  {
  }

  lemma {:induction false} CloseShares(length: nat, i: int, k: int, n: int)
    requires 0 <= i < k < n
    ensures Share(length, k, n) <= Share(length, i, n) <= Share(length, k, n) + 1
    ensures Share(length, k, n) < Share(length, i, n) <==> i < length % n <= k
  {
    hide Share;
    if length == 0 {
      NoShares(i, n);
      NoShares(k, n);
    } else {
      CloseShares(length - 1, i, k, n);
      ShareStep(length - 1, i, n);
      ShareStep(length - 1, k, n);
      NextRemainder(length, n);
      StillClose(Share(length - 1, i, n), Share(length - 1, k, n), (length - 1) % n, length % n, i, k, n);
    }
  }

  lemma {:induction false} NoShares(i: int, n: int)
    requires 0 <= i < n
    ensures Share(0, i, n) == 0 && 0 % n == 0
  {
    Quotient(0, 0, 0, n);
  }

  /** In a universe without duplicates every ticker is owned by exactly the shard the lookup names. */
  lemma {:induction false} OneOwner(tickers: seq<string>, x: string, i: int, n: int)
    requires Distinct(tickers) && 0 <= i < n
    ensures OwnedTickers(tickers, i, n).Good?
    ensures x in OwnedTickers(tickers, i, n).value <==> ShardForTicker(tickers, x, n) == Some(i)
  {
    OwnedIsKept(tickers, i, n);
    if x in Keep(tickers, i, n) {
      var p := KeptFrom(tickers, x, i, n);
      var q := FirstIndex(tickers, x).value;
      assert p == q;
    }
    if ShardForTicker(tickers, x, n) == Some(i) {
      KeptAt(tickers, FirstIndex(tickers, x).value, n);
    }
  }

  // ----- The gateway -----

  datatype HttpMethod = GET | POST | DELETE | OtherMethod

  /** What the gateway's path patterns recognise. */
  datatype Path =
    | ShardMetrics(index: int)
    | ShardReady(index: int)
    | AnyShard                // health, events, symbols, traders and the like
    | Book(symbol: string)
    | Trades
    | Orders
    | OrderById
    | Unknown

  /** The request body of an order, as far as the gateway reads it. */
  datatype Body = NoBody | NotJson | NotObject | Fields(symbol: string)

  datatype Upstream = SamePath | Metrics | Ready

  datatype Route = Route(shardIndex: int, symbol: Option<string>, upstream: Upstream)

  datatype Routed<+T> = To(value: T) | Refused(status: int)

  function RouteIndexed(index: int, upstream: Upstream, shardCount: int): Routed<Route> {
    if 0 <= index < shardCount then To(Route(index, None, upstream)) else Refused(404)
  }

  function RequiredSymbol(symbol: string): Routed<string> {
    if symbol == "" then Refused(400) else To(symbol)
  }

  /** `query` is the first `symbol` value of the query string, stripped, or empty. */
  function SymbolFromRequest(m: HttpMethod, path: Path, query: string, body: Body): Routed<string> {
    if m.GET? && path.Book? then To(path.symbol)
    else if m.GET? && path.Trades? then RequiredSymbol(query)
    else if m.POST? && path.Orders? then (if body.Fields? then RequiredSymbol(body.symbol) else Refused(400))
    else if m.DELETE? && path.OrderById? then RequiredSymbol(query)
    else Refused(404)
  }

  function RouteRequest(m: HttpMethod, path: Path, query: string, body: Body, tickers: seq<string>,
                        shardCount: int): Routed<Route> {
    if shardCount < 1 then Refused(500)
    else if m.GET? && path.ShardMetrics? then RouteIndexed(path.index, Metrics, shardCount)
    else if m.GET? && path.ShardReady? then RouteIndexed(path.index, Ready, shardCount)
    else if path.AnyShard? then To(Route(0, None, SamePath))
    else
      match SymbolFromRequest(m, path, query, body)
      case Refused(status) => Refused(status)
      case To(symbol) =>
        match ShardForTicker(tickers, symbol, shardCount)
        case None => Refused(400)
        case Some(k) => To(Route(k, Some(symbol), SamePath))
  }

  /** A request about a symbol goes to the one shard whose ownership check accepts the symbol. */
  lemma {:induction false} RoutedToItsOwner(m: HttpMethod, path: Path, query: string, body: Body, tickers: seq<string>,
                                            shardCount: int, i: int)
    requires Distinct(tickers) && 0 <= i < shardCount
    ensures var r := RouteRequest(m, path, query, body, tickers, shardCount);
            r.To? && r.value.symbol.Some? ==>
              OwnedTickers(tickers, i, shardCount).Good? &&
              (r.value.shardIndex == i <==> r.value.symbol.value in OwnedTickers(tickers, i, shardCount).value)
  {
    var r := RouteRequest(m, path, query, body, tickers, shardCount);
    if r.To? && r.value.symbol.Some? {
      OneOwner(tickers, r.value.symbol.value, i, shardCount);
    }
  }

  /** Every route names an existing shard; a symbol is refused exactly when it is outside the universe. */
  lemma {:induction false} RoutesAreShards(m: HttpMethod, path: Path, query: string, body: Body, tickers: seq<string>,
                                           shardCount: int)
    requires shardCount >= 1
    ensures var r := RouteRequest(m, path, query, body, tickers, shardCount);
            && (r.To? ==> 0 <= r.value.shardIndex < shardCount)
            && (!path.AnyShard? && SymbolFromRequest(m, path, query, body).To? ==>
                  (r.To? <==> SymbolFromRequest(m, path, query, body).value in tickers))
  {
    if !path.AnyShard? && SymbolFromRequest(m, path, query, body).To? {
      var x := SymbolFromRequest(m, path, query, body).value;
      if x in tickers {
        Quotient(FirstIndex(tickers, x).value, FirstIndex(tickers, x).value / shardCount,
          FirstIndex(tickers, x).value % shardCount, shardCount);
      }
    }
  }
}

/**
 What a book does, on sorted lists: match against the head of the opposing list
 while prices cross, rest what is left, cancel by id, forget expired orders.
 */
module BookSpec {
  import opened OrderTypes
  import opened ListBook

  datatype Core = Core(bids: seq<OpenOrder>, asks: seq<OpenOrder>, sequence: nat, tape: seq<Trade>) {
    function Resting(side: Side): seq<OpenOrder> {
      if side.BUY? then bids else asks
    }

    function With(side: Side, l: seq<OpenOrder>): Core {
      if side.BUY? then this.(bids := l) else this.(asks := l)
    }
  }

  const EMPTY := Core([], [], 0, [])

  function Crosses(incoming: Order, resting: Order): bool {
    if incoming.side.BUY? then incoming.price >= resting.price else incoming.price <= resting.price
  }

  function TradeOf(incoming: Order, resting: Order, quantity: int): Trade {
    if incoming.side.BUY? then Trade(incoming.symbol, resting.price, quantity, incoming.orderId, resting.orderId)
    else Trade(incoming.symbol, resting.price, quantity, resting.orderId, incoming.orderId)
  }

  function Min(a: int, b: int): int {
    if a <= b then a else b
  }

  /** The outcome of matching: trades in order, makers filled in order, what is left on both sides. */
  datatype Matching = Matching(trades: seq<Trade>, filled: seq<OrderId>, remaining: int, left: seq<OpenOrder>)

  function Match(taker: Order, remaining: int, makers: seq<OpenOrder>): Matching
    decreases |makers|, remaining != 0
  {
    if remaining == 0 || makers == [] || !Crosses(taker, makers[0].order) then Matching([], [], remaining, makers)
    else
      var maker := makers[0];
      var matched := Min(remaining, maker.remaining);
      var trade := TradeOf(taker, maker.order, matched);
      if matched == maker.remaining then
        var rest := Match(taker, remaining - matched, makers[1..]);
        Matching([trade] + rest.trades, [maker.order.orderId] + rest.filled, rest.remaining, rest.left)
      else
        var rest := Match(taker, remaining - matched, makers[0 := maker.(remaining := maker.remaining - matched)]);
        Matching([trade] + rest.trades, rest.filled, rest.remaining, rest.left)
  }

  /** The newest `capacity` items, as a bounded deque keeps them. */
  function Newest<T>(s: seq<T>, capacity: nat): (r: seq<T>)
    ensures |r| <= capacity
  {
    if |s| <= capacity then s else s[|s| - capacity..]
  }

  function Reversed<T>(s: seq<T>): (r: seq<T>)
    ensures |r| == |s| && forall i | 0 <= i < |s| :: r[i] == s[|s| - 1 - i]
  {
    if s == [] then [] else Reversed(s[1..]) + [s[0]]
  }

  /** Newest trades first, at most `limit`. */
  function Recent(tape: seq<Trade>, limit: nat): seq<Trade> {
    Reversed(Newest(tape, limit))
  }

  /** The one list that reads the tape backwards from its end for at most `limit` trades. */
  lemma {:induction false} NewestFirst(tape: seq<Trade>, limit: nat, r: seq<Trade>)
    requires |r| == Min(limit, |tape|) && forall i | 0 <= i < |r| :: r[i] == tape[|tape| - 1 - i]
    ensures r == Recent(tape, limit)
  {
    var s := Newest(tape, limit);
    assert |Reversed(s)| == |r|;
    forall i | 0 <= i < |r|
      ensures r[i] == Reversed(s)[i]
    {
      assert s[|s| - 1 - i] == tape[|tape| - 1 - i];
    }
  }

  function Rest(c: Core, order: Order, remaining: int): Core {
    var o := OpenOrder(order, remaining, c.sequence + 1);
    c.With(order.side, InsertSorted(c.Resting(order.side), o)).(sequence := c.sequence + 1)
  }

  function MatchIn(c: Core, order: Order): Matching {
    Match(order, order.quantity, c.Resting(order.side.Opposite()))
  }

  /** The lists after matching the order and resting what is left of it. */
  function Settle(c: Core, order: Order): Core {
    var m := MatchIn(c, order);
    var c1 := c.With(order.side.Opposite(), m.left);
    if m.remaining == 0 then c1 else Rest(c1, order, m.remaining)
  }

  function Submit(c: Core, order: Order, capacity: nat): Core {
    Settle(c, order).(tape := Newest(c.tape + MatchIn(c, order).trades, capacity))
  }

  function SubmitResult(c: Core, order: Order): MatchResult {
    var m := MatchIn(c, order);
    MatchResult(order.orderId, m.trades, m.remaining)
  }

  /** The resting order with this id, bids first. */
  function Find(c: Core, id: OrderId): Option<OpenOrder> {
    match IndexOf(c.bids, id)
    case Some(i) => Some(c.bids[i])
    case None =>
      match IndexOf(c.asks, id)
      case Some(i) => Some(c.asks[i])
      case None => None
  }

  function Cancel(c: Core, id: OrderId): Core {
    match IndexOf(c.bids, id)
    case Some(i) => c.(bids := RemoveAt(c.bids, i))
    case None =>
      match IndexOf(c.asks, id)
      case Some(i) => c.(asks := RemoveAt(c.asks, i))
      case None => c
  }

  function Forget(c: Core, ids: set<OrderId>): Core {
    c.(bids := Without(c.bids, ids), asks := Without(c.asks, ids))
  }

  function Snapshot(c: Core, symbol: string): BookSnapshot {
    BookSnapshot(symbol, LevelsOf(c.bids), LevelsOf(c.asks))
  }

  // ----- The invariant of a book, on lists -----

  ghost predicate ListOk(side: Side, l: seq<OpenOrder>, sequence: nat) {
    && Sorted(l)
    && (forall o | o in l :: o.order.side == side && o.remaining > 0 && o.sequence <= sequence)
  }

  ghost predicate SideListOk(side: Side, l: seq<OpenOrder>, sequence: nat) {
    ListOk(side, l, sequence) && DistinctIds(l)
  }

  ghost predicate CoreOk(c: Core) {
    SideListOk(BUY, c.bids, c.sequence) && SideListOk(SELL, c.asks, c.sequence) && Ids(c.bids) !! Ids(c.asks)
  }

  ghost function AllIds(c: Core): set<OrderId> {
    Ids(c.bids) + Ids(c.asks)
  }
}

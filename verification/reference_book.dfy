/** The list-based oracle: two lists, sorted again after every arrival. */
module ReferenceBook {
  import opened OrderTypes
  import opened ListBook
  import opened BookSpec
  import opened BookFacts

  class ReferenceOrderBook {
    const symbol: string
    const capacity: nat
    var bids: seq<OpenOrder>
    var asks: seq<OpenOrder>
    var sequence: nat
    var recentTrades: seq<Trade>

    ghost function State(): Core
      reads this
    {
      Core(bids, asks, sequence, recentTrades)
    }

    ghost predicate Valid()
      reads this
    {
      CoreOk(State()) && |recentTrades| <= capacity
    }

    constructor (symbol: string, capacity: nat)
      requires capacity >= 1
      ensures Valid() && State() == EMPTY
      ensures this.symbol == symbol && this.capacity == capacity
    {
      this.symbol := symbol;
      this.capacity := capacity;
      bids := [];
      asks := [];
      sequence := 0;
      recentTrades := [];
    }

    /** The lists after `side` becomes `l`. */
    method SetResting(side: Side, l: seq<OpenOrder>)
      modifies this`bids, this`asks
      ensures State() == old(State()).With(side, l)
    {
      if side.BUY? {
        bids := l;
      } else {
        asks := l;
      }
    }

    method Submit(order: Order) returns (r: Result<MatchResult>)
      requires Valid() && order.Valid() && order.orderId !in AllIds(State())
      modifies this
      ensures Valid()
      ensures order.symbol != symbol ==> r == Err(WrongSymbol) && State() == old(State())
      ensures order.symbol == symbol ==>
        r == Ok(SubmitResult(old(State()), order)) && State() == BookSpec.Submit(old(State()), order, capacity)
    {
      hide CoreOk, Match, InsertSorted, Sorted;
      if order.symbol != symbol {
        return Err(WrongSymbol);
      }
      SubmitOk(State(), order, capacity);
      MatchedListOk(State(), order);
      var side := order.side.Opposite();
      var trades, remaining, opposing := MatchLoop(order, if side.BUY? then bids else asks);
      SetResting(side, opposing);
      if remaining != 0 {
        Rest(order, remaining);
      }
      recentTrades := Newest(recentTrades + trades, capacity);
      r := Ok(MatchResult(order.orderId, trades, remaining));
    }

    /** Trade with the head of the opposing list while prices cross. */
    static method MatchLoop(order: Order, makers: seq<OpenOrder>)
      returns (trades: seq<Trade>, remaining: int, opposing: seq<OpenOrder>)
      ensures var m := Match(order, order.quantity, makers);
              trades == m.trades && remaining == m.remaining && opposing == m.left
    {
      hide Match;
      ghost var m := Match(order, order.quantity, makers);
      trades, remaining, opposing := [], order.quantity, makers;
      while remaining != 0 && opposing != [] && Crosses(order, opposing[0].order)
        invariant m.trades == trades + Match(order, remaining, opposing).trades
        invariant m.remaining == Match(order, remaining, opposing).remaining
        invariant m.left == Match(order, remaining, opposing).left
        decreases |opposing|, remaining != 0
      {
        MatchStep(order, remaining, opposing);
        var resting := opposing[0];
        var matched := Min(remaining, resting.remaining);
        trades := trades + [TradeOf(order, resting.order, matched)];
        remaining := remaining - matched;
        if matched == resting.remaining {
          opposing := opposing[1..];
          assert [] + opposing == opposing;
        } else {
          ghost var tail := opposing[1..];
          opposing := opposing[0 := resting.(remaining := resting.remaining - matched)];
          assert opposing == [opposing[0]] + tail;
        }
      }
      MatchDone(order, remaining, opposing);
    }

    /** Append, then sort the whole list again. */
    method Rest(order: Order, remaining: int)
      requires Sorted(State().Resting(order.side))
      modifies this`bids, this`asks, this`sequence
      ensures State() == BookSpec.Rest(old(State()), order, remaining)
    {
      sequence := sequence + 1;
      var resting := OpenOrder(order, remaining, sequence);
      if order.side.BUY? {
        SortAppended(bids, resting);
        bids := SortOrders(bids + [resting]);
      } else {
        SortAppended(asks, resting);
        asks := SortOrders(asks + [resting]);
      }
    }

    method Cancel(id: OrderId) returns (r: Result<OpenOrder>)
      requires Valid()
      modifies this
      ensures Valid() && State() == BookSpec.Cancel(old(State()), id)
      ensures r == match Find(old(State()), id) case Some(o) => Ok(o) case None => Err(OrderNotFound)
    {
      CancelOk(State(), id);
      var found := IndexOf(bids, id);
      if found.Some? {
        r := Ok(bids[found.value]);
        bids := RemoveAt(bids, found.value);
        return;
      }
      found := IndexOf(asks, id);
      if found.Some? {
        r := Ok(asks[found.value]);
        asks := RemoveAt(asks, found.value);
        return;
      }
      r := Err(OrderNotFound);
    }

    method GetOpenOrder(id: OrderId) returns (r: Option<OpenOrder>)
      ensures r == Find(State(), id)
    {
      r := Find(Core(bids, asks, sequence, recentTrades), id);
    }

    method OpenOrders(side: Side) returns (r: seq<OpenOrder>)
      ensures r == State().Resting(side)
    {
      r := if side.BUY? then bids else asks;
    }

    method TakeSnapshot() returns (r: BookSnapshot)
      ensures r == Snapshot(State(), symbol)
    {
      var b := Levels(bids);
      var a := Levels(asks);
      r := BookSnapshot(symbol, b, a);
    }

    /** Add each order's quantity to its price in an insertion-ordered dictionary. */
    static method Levels(orders: seq<OpenOrder>) returns (r: seq<BookLevel>)
      ensures r == LevelsOf(orders)
    {
      r := [];
      for i := 0 to |orders|
        invariant r == LevelsOf(orders[..i])
      {
        assert orders[..i + 1][..i] == orders[..i];
        r := AddToLevels(r, orders[i].order.price, orders[i].remaining);
      }
      assert orders[..|orders|] == orders;
    }

    method RecentTrades(limit: int) returns (r: Result<seq<Trade>>)
      ensures r == if limit < 1 then Err(BadLimit) else Ok(Recent(State().tape, limit))
    {
      if limit < 1 {
        return Err(BadLimit);
      }
      r := Ok(Recent(recentTrades, limit));
    }
  }
}

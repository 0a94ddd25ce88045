/** Values passed between the matcher and its callers. */
module OrderTypes {

  datatype Option<+T> = None | Some(value: T)

  /** Order ids are UUIDs in the source; only their equality matters here. */
  type OrderId = nat

  datatype Side = BUY | SELL {
    function Opposite(): Side {
      if BUY? then SELL else BUY
    }
  }

  datatype Order = Order(userId: string, symbol: string, side: Side, price: int, quantity: int, orderId: OrderId) {
    /** What the constructor of the source's frozen dataclass insists on. */
    predicate Valid() {
      price > 0 && quantity > 0
    }
  }

  /** Trade ids and timestamps are generated per call and carry no economics. */
  datatype Trade = Trade(symbol: string, price: int, quantity: int, buyOrderId: OrderId, sellOrderId: OrderId)

  datatype OpenOrder = OpenOrder(order: Order, remaining: int, sequence: nat)

  datatype MatchResult = MatchResult(orderId: OrderId, trades: seq<Trade>, remaining: int)

  datatype BookLevel = BookLevel(price: int, quantity: int)

  datatype BookSnapshot = BookSnapshot(symbol: string, bids: seq<BookLevel>, asks: seq<BookLevel>)

  datatype BookError = WrongSymbol | OrderNotFound | BadLimit | NotOwned

  datatype Result<+T> = Ok(value: T) | Err(error: BookError)

  /** Why an order left the book, as reported to the registry. */
  datatype CloseReason = Filled | Expired

  /** The calls a book makes to its `on_rest` and `on_close` callbacks, in order. */
  datatype Notice = Rested(id: OrderId) | Closed(id: OrderId, reason: CloseReason)
}

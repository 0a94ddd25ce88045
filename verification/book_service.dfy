/** The price-level book itself serving a run of requests, and what that run is on the lists. */
module BookService {
  import opened OrderTypes
  import opened ListBook
  import opened BookSpec
  import opened BookFacts
  import opened BookSides
  import opened OrderBooks
  import opened BookRuns

  /** Any call on a book; only `Peek` and an order for another symbol leave expiry alone. */
  datatype Request =
    | NewOrder(order: Order, now: real, later: real)
    | CancelOrder(id: OrderId, now: real)
    | Look(query: Query, now: real)
    | Peek(glance: Glance)

  /** What may be asked of a book after expiry. */
  datatype Query = WholeBook | DepthOf(side: Side) | BestOf(side: Side) | OrdersOf(side: Side) | OrderOf(id: OrderId)

  /** What is answered without expiry: the newest trades, or how many orders rest. */
  datatype Glance = Tape(limit: int) | Count

  datatype Answer =
    | Levels(snapshot: BookSnapshot)
    | Depth(quantity: int)
    | Price(best: Option<int>)
    | Listed(orders: seq<OpenOrder>)
    | Found(order: Option<OpenOrder>)

  datatype Glimpse = Trades(trades: Result<seq<Trade>>) | Resting(count: nat)

  datatype Reply =
    | Matched(result: Result<MatchResult>)
    | Withdrawn(outcome: Result<OpenOrder>)
    | Answered(answer: Answer)
    | Seen(glimpse: Glimpse)

  function AnswerOf(c: Core, query: Query, symbol: string): Answer {
    match query
    case WholeBook => Levels(Snapshot(c, symbol))
    case DepthOf(side) => Depth(Total(c.Resting(side)))
    case BestOf(side) => Price(if c.Resting(side) == [] then None else Some(c.Resting(side)[0].order.price))
    case OrdersOf(side) => Listed(c.Resting(side))
    case OrderOf(id) => Found(Find(c, id))
  }

  ghost function GlimpseOf(c: Core, glance: Glance): Glimpse {
    match glance
    case Tape(limit) => Trades(if limit < 1 then Err(BadLimit) else Ok(Recent(c.tape, limit)))
    case Count => Resting(|AllIds(c)|)
  }

  function CancelResult(c: Core, id: OrderId): Result<OpenOrder> {
    match Find(c, id)
    case Some(o) => Ok(o)
    case None => Err(OrderNotFound)
  }

  /** Whether the request reaches expiry. */
  predicate Moving(r: Request, symbol: string) {
    match r
    case NewOrder(order, now, later) => order.symbol == symbol
    case Peek(glance) => false
    case _ => true
  }

  /** What a book in state `c`, with nothing left to expire if the request expires, replies. */
  ghost function ReplyOf(c: Core, r: Request, symbol: string): Reply {
    match r
    case NewOrder(order, now, later) => Matched(if order.symbol != symbol then Err(WrongSymbol)
      else Ok(SubmitResult(c, order)))
    case CancelOrder(id, now) => Withdrawn(CancelResult(c, id))
    case Look(query, now) => Answered(AnswerOf(c, query, symbol))
    case Peek(glance) => Seen(GlimpseOf(c, glance))
  }

  /** The model move of a request, if it makes one; only the order in which expiries are reported is left open. */
  predicate Fits(r: Request, symbol: string, m: Option<Move>) {
    if !Moving(r, symbol) then m == None
    else
      && m.Some?
      && match r
         case NewOrder(order, now, later) =>
           m.value.DoSubmit? && m.value.order == order && m.value.now == now && m.value.later == later
         case CancelOrder(id, now) => m.value.DoCancel? && m.value.id == id && m.value.now == now
         case Look(query, now) => m.value.DoLook? && m.value.now == now
         case Peek(glance) => false
  }

  /** The world a reply is read from, and the world after the request. */
  ghost function Facing(w: World, m: Option<Move>): World {
    match m
    case None => w
    case Some(mv) => AfterExpiry(w, mv)
  }

  ghost function Stepped(w: World, maxAge: real, capacity: nat, m: Option<Move>): World {
    match m
    case None => w
    case Some(mv) => Moved(w, maxAge, capacity, mv)
  }

  /** What a move adds to the spending on lazy deletion, read off the queues and the index before it. */
  ghost function CostOf(s: Shelves, index: map<OrderId, Entry>, c: Core, mv: Move): int
    requires forall id | id in mv.gone :: id in index
  {
    match mv
    case DoSubmit(order, now, later, gone) =>
      StrikeAll(s, index, gone)
        + ArrivalCost(StruckAll(s, index, gone), order, MatchIn(Forget(c, IdSet(gone)), order).remaining)
    case DoCancel(id, now, gone) => StrikeAll(s, index, gone + if id in index && id !in IdSet(gone) then [id] else [])
    case DoLook(now, gone) => StrikeAll(s, index, gone)
  }

  /** The move has been paid for. */
  twostate predicate Paid(book: OrderBook, new c: Core, new mv: Move)
    requires old(book.Valid()) && book.Valid()
    reads book, book.buy, book.sell, book.buy.nodes, book.sell.nodes, book.buy.entries, book.sell.entries
  {
    && (forall id | id in mv.gone :: id in old(book.index))
    && book.Spent() == old(book.Spent()) + CostOf(old(book.Shelved()), old(book.index), c, mv)
  }

  /** The object is at the world `w` of the model run. */
  ghost predicate At(book: OrderBook, w: World)
    reads book, book.buy, book.sell, book.buy.nodes, book.sell.nodes, book.buy.entries, book.sell.entries
  {
    && book.Valid() && book.State() == w.core && book.Ages() == w.ages
    && book.notices == w.notices && book.lastRead <= w.clock && AllIds(w.core) <= w.used
    && book.Removals() == w.removals
  }

  ghost predicate Servable(r: Request, w: World) {
    match r
    case NewOrder(order, now, later) =>
      w.clock <= now <= later && order.Valid() && order.orderId !in w.used
    case CancelOrder(id, now) => w.clock <= now
    case Look(query, now) => w.clock <= now
    case Peek(glance) => true
  }

  lemma AgesAreIndexed(book: OrderBook, now: real)
    requires book.Valid()
    ensures book.ExpiredIds(now) == TooOld(book.Ages(), book.maxAge, now)
    ensures book.index.Keys == AllIds(book.State())
  {
  }

  lemma AfterMove(w: World, maxAge: real, capacity: nat, mv: Move)
    requires WorldOk(w) && CanMove(w, maxAge, mv)
    ensures var w' := Moved(w, maxAge, capacity, mv); AllIds(w'.core) <= w'.used
  {
    hide WorldOk, Moved, CanMove, AllIds;
    MoveKeeps(w, maxAge, capacity, mv);
    IdsAreUsed(Moved(w, maxAge, capacity, mv));
  }

  /** A submission to the object is the model's move, and reports the model's trades. */
  method SubmitTo(book: OrderBook, order: Order, now: real, later: real, ghost w: World)
    returns (r: MatchResult, ghost mv: Move)
    requires At(book, w) && WorldOk(w) && order.symbol == book.symbol && Servable(NewOrder(order, now, later), w)
    modifies book, book.buy, book.sell, book.buy.nodes, book.sell.nodes, book.buy.entries, book.sell.entries
    ensures mv.DoSubmit? && mv.order == order && mv.now == now && mv.later == later && CanMove(w, book.maxAge, mv)
    ensures At(book, Moved(w, book.maxAge, book.capacity, mv)) && Paid(book, w.core, mv)
    ensures r == SubmitResult(AfterExpiry(w, mv).core, order)
    ensures fresh(book.buy.nodes + book.sell.nodes - old(book.buy.nodes + book.sell.nodes))
    ensures fresh(book.buy.entries + book.sell.entries - old(book.buy.entries + book.sell.entries))
  {
    hide OrderBook.Indexed, OrderBook.Timed, OrderBook.Tracked, OrderBook.Numbered, BookSide.Linked,
         BookSide.LiveQueued, BookSide.Summed;
    hide CoreOk, AllIds, Forget, OrderBook.Ages, OrderBook.ExpiredIds, Distinct, TooOld, IdSet, Fills, Expiries,
         WorldOk, AgesAfter, BookSpec.Submit, BookSpec.Cancel, QuantityOf, OrderBook.Spent, OrderBook.Shelved,
         StruckAll, StrikeAll, ArrivalCost;
    AgesAreIndexed(book, now);
    var result;
    ghost var gone;
    result, gone := book.Submit(order, now, later);
    r := result.value;
    mv := DoSubmit(order, now, later, gone);
    AfterMove(w, book.maxAge, book.capacity, mv);
  }

  method CancelIn(book: OrderBook, id: OrderId, now: real, ghost w: World)
    returns (r: Result<OpenOrder>, ghost mv: Move)
    requires At(book, w) && WorldOk(w) && w.clock <= now
    modifies book, book.buy, book.sell, book.buy.nodes, book.sell.nodes, book.buy.entries, book.sell.entries
    ensures mv.DoCancel? && mv.id == id && mv.now == now && CanMove(w, book.maxAge, mv)
    ensures At(book, Moved(w, book.maxAge, book.capacity, mv)) && Paid(book, w.core, mv)
    ensures r == CancelResult(AfterExpiry(w, mv).core, id)
    ensures book.buy.nodes == old(book.buy.nodes) && book.sell.nodes == old(book.sell.nodes)
    ensures book.buy.entries == old(book.buy.entries) && book.sell.entries == old(book.sell.entries)
  {
    hide OrderBook.Indexed, OrderBook.Timed, OrderBook.Tracked, OrderBook.Numbered, BookSide.Linked,
         BookSide.LiveQueued, BookSide.Summed;
    hide CoreOk, AllIds, Forget, OrderBook.Ages, OrderBook.ExpiredIds, Distinct, TooOld, IdSet, Fills, Expiries,
         WorldOk, AgesAfter, BookSpec.Submit, BookSpec.Cancel, QuantityOf, OrderBook.Spent, OrderBook.Shelved,
         StruckAll, StrikeAll, ArrivalCost;
    AgesAreIndexed(book, now);
    ghost var gone;
    r, gone := book.Cancel(id, now);
    mv := DoCancel(id, now, gone);
    AfterMove(w, book.maxAge, book.capacity, mv);
  }

  /** A question expires what is too old first, and answers from the rest. */
  method Ask(book: OrderBook, query: Query, now: real, ghost w: World) returns (a: Answer, ghost mv: Move)
    requires At(book, w) && WorldOk(w) && w.clock <= now
    modifies book, book.buy, book.sell, book.buy.nodes, book.sell.nodes, book.buy.entries, book.sell.entries
    ensures mv.DoLook? && mv.now == now && CanMove(w, book.maxAge, mv)
    ensures At(book, Moved(w, book.maxAge, book.capacity, mv)) && Paid(book, w.core, mv)
    ensures a == AnswerOf(AfterExpiry(w, mv).core, query, book.symbol)
    ensures book.buy.nodes == old(book.buy.nodes) && book.sell.nodes == old(book.sell.nodes)
    ensures book.buy.entries == old(book.buy.entries) && book.sell.entries == old(book.sell.entries)
  {
    hide OrderBook.Indexed, OrderBook.Timed, OrderBook.Tracked, OrderBook.Numbered, BookSide.Linked,
         BookSide.LiveQueued, BookSide.Summed;
    hide CoreOk, AllIds, Forget, OrderBook.Ages, OrderBook.ExpiredIds, Distinct, TooOld, IdSet, Fills, Expiries,
         WorldOk, AgesAfter, BookSpec.Submit, BookSpec.Cancel, QuantityOf, OrderBook.Spent, OrderBook.Shelved,
         StruckAll, StrikeAll, ArrivalCost;
    AgesAreIndexed(book, now);
    ghost var gone;
    match query {
      case WholeBook =>
        var snapshot;
        snapshot, gone := book.TakeSnapshot(now);
        a := Levels(snapshot);
      case DepthOf(side) =>
        var quantity;
        quantity, gone := book.TotalQuantity(side, now);
        a := Depth(quantity);
      case BestOf(side) =>
        var price;
        price, gone := book.BestPrice(side, now);
        a := Price(price);
      case OrdersOf(side) =>
        var orders;
        orders, gone := book.OpenOrders(side, now);
        a := Listed(orders);
      case OrderOf(id) =>
        var order;
        order, gone := book.GetOpenOrder(id, now);
        a := Found(order);
    }
    mv := DoLook(now, gone);
    AfterMove(w, book.maxAge, book.capacity, mv);
  }

  /** An order for another symbol is refused and changes nothing. */
  method Refuse(book: OrderBook, order: Order, now: real, later: real, ghost w: World) returns (r: Result<MatchResult>)
    requires At(book, w) && WorldOk(w) && order.symbol != book.symbol && Servable(NewOrder(order, now, later), w)
    modifies book, book.buy, book.sell, book.buy.nodes, book.sell.nodes, book.buy.entries, book.sell.entries
    ensures r == Err(WrongSymbol) && At(book, w) && book.Spent() == old(book.Spent())
    ensures fresh(book.buy.nodes + book.sell.nodes - old(book.buy.nodes + book.sell.nodes))
    ensures fresh(book.buy.entries + book.sell.entries - old(book.buy.entries + book.sell.entries))
  {
    hide OrderBook.Indexed, OrderBook.Timed, OrderBook.Tracked, OrderBook.Numbered, BookSide.Linked,
         BookSide.LiveQueued, BookSide.Summed;
    hide CoreOk, AllIds, Forget, OrderBook.Ages, OrderBook.ExpiredIds, Distinct, TooOld, IdSet, Fills, Expiries,
         WorldOk, AgesAfter, BookSpec.Submit, QuantityOf, OrderBook.Spent;
    AgesAreIndexed(book, now);
    IdsAreUsed(w);
    ghost var gone;
    r, gone := book.Submit(order, now, later);
  }

  method GlanceAt(book: OrderBook, glance: Glance, ghost w: World) returns (g: Glimpse)
    requires At(book, w)
    ensures g == GlimpseOf(w.core, glance)
  {
    hide OrderBook.BooksOk, CoreOk, AllIds, OrderBook.Ages;
    match glance {
      case Tape(limit) =>
        var trades := book.RecentTrades(limit);
        if limit >= 1 {
          NewestFirst(book.recentTrades, limit, trades.value);
        }
        g := Trades(trades);
      case Count =>
        var n := book.OpenOrderCount();
        g := Resting(n);
    }
  }

  /** Serving one request is one move of the model, or none, and the reply is the model's. */
  method Serve(book: OrderBook, r: Request, ghost w: World) returns (reply: Reply, ghost m: Option<Move>)
    requires At(book, w) && WorldOk(w) && Servable(r, w)
    modifies book, book.buy, book.sell, book.buy.nodes, book.sell.nodes, book.buy.entries, book.sell.entries
    ensures Fits(r, book.symbol, m) && (m.Some? ==> CanMove(w, book.maxAge, m.value))
    ensures At(book, Stepped(w, book.maxAge, book.capacity, m))
    ensures if m.Some? then Paid(book, w.core, m.value) else book.Spent() == old(book.Spent())
    ensures reply == ReplyOf(Facing(w, m).core, r, book.symbol)
    ensures fresh(book.buy.nodes + book.sell.nodes - old(book.buy.nodes + book.sell.nodes))
    ensures fresh(book.buy.entries + book.sell.entries - old(book.buy.entries + book.sell.entries))
  {
    hide OrderBook.Valid, WorldOk, Moved, CanMove, AfterExpiry, At, SubmitResult, CancelResult, AnswerOf,
         GlimpseOf, Paid, OrderBook.Spent;
    match r
    case NewOrder(order, now, later) =>
      if order.symbol != book.symbol {
        var refusal := Refuse(book, order, now, later, w);
        reply, m := Matched(refusal), None;
      } else {
        var result;
        ghost var mv;
        result, mv := SubmitTo(book, order, now, later, w);
        reply, m := Matched(Ok(result)), Some(mv);
      }
    case CancelOrder(id, now) =>
      var result;
      ghost var mv;
      result, mv := CancelIn(book, id, now, w);
      reply, m := Withdrawn(result), Some(mv);
    case Look(query, now) =>
      var answer;
      ghost var mv;
      answer, mv := Ask(book, query, now, w);
      reply, m := Answered(answer), Some(mv);
    case Peek(glance) =>
      var glimpse := GlanceAt(book, glance, w);
      reply, m := Seen(glimpse), None;
  }

  lemma IdsAreUsed(w: World)
    requires WorldOk(w)
    ensures AllIds(w.core) <= w.used
  {
  }

  lemma AtStart(book: OrderBook, clock: real)
    requires book.Valid() && book.State() == EMPTY && book.index == map[] && book.notices == []
    requires book.lastRead == clock
    requires book.Removals() == 0
    ensures At(book, Start(clock))
  {
  }

  lemma NoticesAt(book: OrderBook, w: World)
    requires At(book, w)
    ensures book.notices == w.notices
  {
  }
}

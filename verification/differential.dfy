/**
 The differential test, for every input: the price-level book and the list-based
 oracle, fed the same submissions and cancels, answer alike at every step.
 */
module Differential {
  import opened OrderTypes
  import opened BookSpec
  import opened BookFacts
  import opened BookSides
  import opened OrderBooks
  import opened ReferenceBook

  datatype Command =
    | SubmitOrder(order: Order)
    | CancelOrder(id: OrderId)
    | AskSnapshot
    | AskOpenOrders(side: Side)
    | AskOpenOrder(id: OrderId)
    | AskRecentTrades(limit: int)

  datatype Reply =
    | Submitted(result: Result<MatchResult>)
    | Canceled(canceled: Result<OpenOrder>)
    | Levels(snapshot: BookSnapshot)
    | Orders(orders: seq<OpenOrder>)
    | Found(order: Option<OpenOrder>)
    | Trades(trades: Result<seq<Trade>>)

  ghost function SubmittedIds(cmds: seq<Command>): set<OrderId> {
    set cmd | cmd in cmds && cmd.SubmitOrder? :: cmd.order.orderId
  }

  /** Orders are well formed and no id is submitted twice, as random UUIDs promise. */
  ghost predicate FreshIds(cmds: seq<Command>) {
    forall i | 0 <= i < |cmds| && cmds[i].SubmitOrder? ::
      cmds[i].order.Valid() && cmds[i].order.orderId !in SubmittedIds(cmds[..i])
  }

  /** What one call does to the lists and what it answers. */
  ghost function Step(c: Core, symbol: string, capacity: nat, cmd: Command): (Core, Reply) {
    match cmd
    case SubmitOrder(order) =>
      if order.symbol != symbol then (c, Submitted(Err(WrongSymbol)))
      else (BookSpec.Submit(c, order, capacity), Submitted(Ok(SubmitResult(c, order))))
    case CancelOrder(id) =>
      (BookSpec.Cancel(c, id), Canceled(match Find(c, id) case Some(o) => Ok(o) case None => Err(OrderNotFound)))
    case AskSnapshot => (c, Levels(Snapshot(c, symbol)))
    case AskOpenOrders(side) => (c, Orders(c.Resting(side)))
    case AskOpenOrder(id) => (c, Found(Find(c, id)))
    case AskRecentTrades(limit) => (c, Trades(if limit < 1 then Err(BadLimit) else Ok(Recent(c.tape, limit))))
  }

  /** The lists after a run, and the answers along it. */
  ghost function Run(symbol: string, capacity: nat, cmds: seq<Command>): (Core, seq<Reply>) {
    if cmds == [] then (EMPTY, [])
    else
      var (c, replies) := Run(symbol, capacity, cmds[..|cmds| - 1]);
      var (c', reply) := Step(c, symbol, capacity, cmds[|cmds| - 1]);
      (c', replies + [reply])
  }

  /** Only submitted ids ever rest. */
  lemma {:induction false} StepIds(c: Core, symbol: string, capacity: nat, cmd: Command)
    requires CoreOk(c) && (cmd.SubmitOrder? ==> cmd.order.Valid() && cmd.order.orderId !in AllIds(c))
    ensures CoreOk(Step(c, symbol, capacity, cmd).0)
    ensures AllIds(Step(c, symbol, capacity, cmd).0) <= AllIds(c) + SubmittedIds([cmd])
  {
    hide CoreOk, AllIds, BookSpec.Submit, BookSpec.Cancel;
    match cmd {
      case SubmitOrder(order) =>
        SubmitOk(c, order, capacity);
        assert cmd in [cmd];
      case CancelOrder(id) =>
        CancelOk(c, id);
      case _ =>
    }
  }

  lemma SubmittedGrows(cmds: seq<Command>, i: nat)
    requires i < |cmds|
    ensures SubmittedIds(cmds[..i + 1]) == SubmittedIds(cmds[..i]) + SubmittedIds([cmds[i]])
  {
    assert cmds[..i + 1] == cmds[..i] + [cmds[i]];
  }

  /** With expiry off nothing ever expires. */
  lemma NothingExpires(book: OrderBook, now: real)
    requires book.maxAge == 0.0 && book.Valid()
    ensures book.ExpiredIds(now) == {} && Forget(book.State(), {}) == book.State()
  {
    ForgetNothing(book.State());
  }

  lemma Unindexed(book: OrderBook, id: OrderId)
    requires book.Valid() && id !in AllIds(book.State())
    ensures id !in book.index
  {
  }

  method StepFast(book: OrderBook, cmd: Command) returns (reply: Reply)
    requires book.Valid() && book.maxAge == 0.0 && book.lastRead == 0.0
    requires cmd.SubmitOrder? ==> cmd.order.Valid() && cmd.order.orderId !in AllIds(book.State())
    modifies book, book.buy, book.sell, book.buy.nodes, book.sell.nodes, book.buy.entries, book.sell.entries
    ensures book.Valid() && book.lastRead == 0.0
    ensures (book.State(), reply) == Step(old(book.State()), book.symbol, book.capacity, cmd)
    ensures fresh(book.buy.nodes + book.sell.nodes - old(book.buy.nodes + book.sell.nodes))
    ensures fresh(book.buy.entries + book.sell.entries - old(book.buy.entries + book.sell.entries))
  {
    hide OrderBook.Valid, BookSide.Summed, AllIds, Forget, BookSpec.Submit, BookSpec.Cancel, Find, IdSet, OrderBook.Ages,
         OrderBook.Spent, Billed, StruckAll, StrikeAll, ArrivalCost, OrderBook.ExpiredIds, Step;
    book.AreSummed();
    NothingExpires(book, 0.0);
    match cmd {
      case SubmitOrder(order) =>
        reply := SubmitFast(book, order);
      case CancelOrder(id) =>
        reply := CancelFast(book, id);
      case AskRecentTrades(limit) =>
        reply := TradesFast(book, limit);
      case _ =>
        reply := AskFast(book, cmd);
    }
  }

  method SubmitFast(book: OrderBook, order: Order) returns (reply: Reply)
    requires book.Valid() && book.maxAge == 0.0 && book.lastRead == 0.0
    requires order.Valid() && order.orderId !in AllIds(book.State())
    modifies book, book.buy, book.sell, book.buy.nodes, book.sell.nodes, book.buy.entries, book.sell.entries
    ensures book.Valid() && book.lastRead == 0.0
    ensures (book.State(), reply) == Step(old(book.State()), book.symbol, book.capacity, SubmitOrder(order))
    ensures fresh(book.buy.nodes + book.sell.nodes - old(book.buy.nodes + book.sell.nodes))
    ensures fresh(book.buy.entries + book.sell.entries - old(book.buy.entries + book.sell.entries))
  {
    hide OrderBook.Valid, BookSide.Summed, AllIds, Forget, BookSpec.Submit, BookSpec.Cancel, Find, IdSet, OrderBook.Ages,
         OrderBook.Spent, StruckAll, StrikeAll, ArrivalCost, OrderBook.ExpiredIds;
    book.AreSummed();
    NothingExpires(book, 0.0);
    Unindexed(book, order.orderId);
    ghost var gone;
    var result;
    result, gone := book.Submit(order, 0.0, 0.0);
    book.AreSummed();
    reply := Submitted(result);
  }

  method CancelFast(book: OrderBook, id: OrderId) returns (reply: Reply)
    requires book.Valid() && book.maxAge == 0.0 && book.lastRead == 0.0
    modifies book, book.buy, book.sell, book.buy.nodes, book.sell.nodes, book.buy.entries, book.sell.entries
    ensures book.Valid() && book.lastRead == 0.0
    ensures (book.State(), reply) == Step(old(book.State()), book.symbol, book.capacity, CancelOrder(id))
    ensures book.buy.nodes == old(book.buy.nodes) && book.sell.nodes == old(book.sell.nodes)
    ensures book.buy.entries == old(book.buy.entries) && book.sell.entries == old(book.sell.entries)
  {
    hide OrderBook.Valid, BookSide.Summed, AllIds, Forget, BookSpec.Submit, BookSpec.Cancel, Find, IdSet, OrderBook.Ages,
         OrderBook.Spent, Billed, OrderBook.ExpiredIds;
    book.AreSummed();
    NothingExpires(book, 0.0);
    ghost var gone;
    var result;
    result, gone := book.Cancel(id, 0.0);
    book.AreSummed();
    reply := Canceled(result);
  }

  method TradesFast(book: OrderBook, limit: int) returns (reply: Reply)
    requires book.Valid()
    ensures (book.State(), reply) == Step(book.State(), book.symbol, book.capacity, AskRecentTrades(limit))
  {
    hide OrderBook.BooksOk, CoreOk, AllIds;
    var trades := book.RecentTrades(limit);
    if limit >= 1 {
      NewestFirst(book.recentTrades, limit, trades.value);
    }
    reply := Trades(trades);
  }

  method AskFast(book: OrderBook, cmd: Command) returns (reply: Reply)
    requires book.Valid() && book.maxAge == 0.0 && book.lastRead == 0.0
    requires cmd.AskSnapshot? || cmd.AskOpenOrders? || cmd.AskOpenOrder?
    modifies book, book.buy, book.sell, book.buy.nodes, book.sell.nodes, book.buy.entries, book.sell.entries
    ensures book.Valid() && book.lastRead == 0.0
    ensures (book.State(), reply) == Step(old(book.State()), book.symbol, book.capacity, cmd)
    ensures book.buy.nodes == old(book.buy.nodes) && book.sell.nodes == old(book.sell.nodes)
    ensures book.buy.entries == old(book.buy.entries) && book.sell.entries == old(book.sell.entries)
  {
    hide OrderBook.BooksOk, CoreOk, AllIds, Forget, OrderBook.Ages, OrderBook.Spent, Billed, StruckAll, StrikeAll,
         ArrivalCost;
    ghost var gone;
    NothingExpires(book, 0.0);
    if cmd.AskSnapshot? {
      var snapshot;
      snapshot, gone := book.TakeSnapshot(0.0);
      reply := Levels(snapshot);
    } else if cmd.AskOpenOrders? {
      var orders;
      orders, gone := book.OpenOrders(cmd.side, 0.0);
      reply := Orders(orders);
    } else {
      var found;
      found, gone := book.GetOpenOrder(cmd.id, 0.0);
      reply := Found(found);
    }
  }

  method StepSlow(book: ReferenceOrderBook, cmd: Command) returns (reply: Reply)
    requires book.Valid()
    requires cmd.SubmitOrder? ==> cmd.order.Valid() && cmd.order.orderId !in AllIds(book.State())
    modifies book
    ensures book.Valid()
    ensures (book.State(), reply) == Step(old(book.State()), book.symbol, book.capacity, cmd)
  {
    hide CoreOk, AllIds;
    match cmd {
      case SubmitOrder(order) =>
        var result := book.Submit(order);
        reply := Submitted(result);
      case CancelOrder(id) =>
        var result := book.Cancel(id);
        reply := Canceled(result);
      case AskSnapshot =>
        var snapshot := book.TakeSnapshot();
        reply := Levels(snapshot);
      case AskOpenOrders(side) =>
        var orders := book.OpenOrders(side);
        reply := Orders(orders);
      case AskOpenOrder(id) =>
        var found := book.GetOpenOrder(id);
        reply := Found(found);
      case AskRecentTrades(limit) =>
        var trades := book.RecentTrades(limit);
        reply := Trades(trades);
    }
  }

  /** A whole run on fresh books: both give the answers of the sorted lists, so they agree. */
  method RunBoth(symbol: string, capacity: nat, cmds: seq<Command>) returns (fast: seq<Reply>, slow: seq<Reply>)
    requires capacity >= 1 && FreshIds(cmds)
    ensures fast == slow == Run(symbol, capacity, cmds).1
  {
    hide OrderBook.Indexed, OrderBook.Timed, OrderBook.Tracked, OrderBook.Numbered, BookSide.Linked,
         BookSide.LiveQueued, BookSide.Summed, CoreOk, AllIds, Step;
    var book := new OrderBook(symbol, capacity, 0.0, 0.0);
    var oracle := new ReferenceOrderBook(symbol, capacity);
    fast, slow := [], [];
    EmptyOk();
    for i := 0 to |cmds|
      invariant fresh(book) && fresh(book.buy) && fresh(book.sell) && fresh(oracle)
      invariant fresh(book.buy.nodes + book.sell.nodes) && fresh(book.buy.entries + book.sell.entries)
      invariant book.Valid() && oracle.Valid() && book.maxAge == 0.0 && book.lastRead == 0.0
      invariant book.symbol == oracle.symbol == symbol && book.capacity == oracle.capacity == capacity
      invariant CoreOk(oracle.State()) && AllIds(oracle.State()) <= SubmittedIds(cmds[..i])
      invariant book.State() == oracle.State()
      invariant fast == slow && (oracle.State(), fast) == Run(symbol, capacity, cmds[..i])
    {
      assert cmds[..i + 1][..i] == cmds[..i];
      StepIds(oracle.State(), symbol, capacity, cmds[i]);
      SubmittedGrows(cmds, i);
      var f := StepFast(book, cmds[i]);
      var s := StepSlow(oracle, cmds[i]);
      fast, slow := fast + [f], slow + [s];
    }
    assert cmds[..|cmds|] == cmds;
  }

  lemma EmptyOk()
    ensures CoreOk(EMPTY) && AllIds(EMPTY) == {}
  {
  }
}

/**
 The order endpoints over one registry: the market must be open, the session
 rolls over first, then the request is checked and served, and the depth gauges
 are read, which expires once more. Every reply and every state is that of a
 step on values. Whatever rests was accepted on the active session date, as long
 as the roll-over of every accepted order read a trading date, so no trade joins
 orders of two dates.
 */
module OrderEntry {
  import opened OrderTypes
  import opened ListBook
  import opened BookSpec
  import opened BookFacts
  import opened BookRuns
  import opened TradeDates
  import opened RegistryMap
  import opened MarketSessions
  import opened Registries
  import opened BookService

  datatype Reply = MarketClosed | InvalidOrder | UnsupportedSymbol | WrongShard | Created(result: MatchResult)

  datatype CancelReply = BadSymbol | OtherShard | AlreadyClosed | Canceled(quantity: int)

  /** When a request to create an order read the clocks: the wall clock twice, then the book's clock. */
  datatype Readings = Readings(checkedAt: int, rolledAt: int, now: real, later: real, buyAt: real, sellAt: real) {
    predicate From(seen: int, clock: real) {
      seen <= checkedAt <= rolledAt && clock <= now <= later <= buyAt <= sellAt
    }
  }

  // ----- One request, on values -----

  datatype Config = Config(mode: Mode, simulated: set<string>, owned: set<string>, capacity: nat, maxAge: real)

  datatype Site = Site(worlds: map<string, World>, symbols: Symbols, session: Option<int>)

  /** A later session date empties the site; without a date, or on the current one, nothing happens. */
  ghost function Rolled(cfg: Config, s: Site, wall: int): Site {
    var date := SessionDate(cfg.mode, wall);
    if cfg.mode.AlwaysOpen? || date.None? then s
    else if s.session.None? then s.(session := date)
    else if s.session.value < date.value then Site(map[], map[], date)
    else s
  }

  ghost function WorldFor(s: Site, symbol: string, now: real): World {
    if symbol in s.worlds then s.worlds[symbol] else Start(now)
  }

  /** The order's book has an opposing order that is not too old and crosses. */
  ghost predicate FindsMaker(s: Site, maxAge: real, order: Order, now: real) {
    Finds(WorldFor(s, order.symbol, now), maxAge, order, now)
  }

  /** The book of `symbol` has gone from `w` to `w'`, and the id map names exactly what rests. */
  ghost predicate Served(cfg: Config, s: Site, symbol: string, w: World, moves: seq<Move>, s': Site) {
    && Ran(cfg.maxAge, cfg.capacity, w, moves).Some? && s'.session == s.session
    && s'.worlds == s.worlds[symbol := Ran(cfg.maxAge, cfg.capacity, w, moves).value] && Exact(s'.symbols, s'.worlds)
  }

  /** The gauges look at the book twice. */
  ghost predicate Looks(moves: seq<Move>, buyAt: real, sellAt: real) {
    |moves| == 2 && moves[0].DoLook? && moves[0].now == buyAt && moves[1].DoLook? && moves[1].now == sellAt
  }

  ghost predicate Accepted(cfg: Config, s: Site, order: Order, t: Readings, result: MatchResult, moves: seq<Move>,
                           s': Site) {
    var w := WorldFor(s, order.symbol, t.now);
    && moves != [] && moves[0].DoSubmit? && moves[0].order == order && moves[0].now == t.now
       && moves[0].later == t.later
    && Looks(moves[1..], t.buyAt, t.sellAt)
    && result == SubmitResult(AfterExpiry(w, moves[0]).core, order)
    && Served(cfg, s, order.symbol, w, moves, s')
  }

  /** Why a request is refused, in the order of the checks; `None` is acceptance. */
  function Refusal(cfg: Config, order: Option<Order>, checkedAt: int): Option<Reply> {
    if !IsOpen(cfg.mode, checkedAt) then Some(MarketClosed)
    else if order.None? then Some(InvalidOrder)
    else if order.value.symbol !in cfg.simulated then Some(UnsupportedSymbol)
    else if order.value.symbol !in cfg.owned then Some(WrongShard)
    else None
  }

  /** `POST /orders` took the site from `s` to `s'` and answered `r`. */
  ghost predicate Ordered(cfg: Config, s: Site, order: Option<Order>, t: Readings, r: Reply, moves: seq<Move>,
                          s': Site) {
    match Refusal(cfg, order, t.checkedAt)
    case Some(reply) => r == reply && moves == [] && s' == if reply.MarketClosed? then s else Rolled(cfg, s, t.rolledAt)
    case None => r.Created? && Accepted(cfg, Rolled(cfg, s, t.rolledAt), order.value, t, r.result, moves, s')
  }

  /**
   A cancel that passed the checks: the book the id map names answers, and only a canceled order is
   followed by gauges.
   */
  ghost predicate TakenOut(cfg: Config, s: Site, id: OrderId, now: real, buyAt: real, sellAt: real, r: CancelReply,
                           moves: seq<Move>, s': Site) {
    if id !in s.symbols then r == AlreadyClosed && moves == [] && s' == s
    else
      s.symbols[id] in s.worlds &&
      var w := s.worlds[s.symbols[id]];
      && moves != [] && moves[0].DoCancel? && moves[0].id == id && moves[0].now == now
      && Served(cfg, s, s.symbols[id], w, moves, s')
      && match Find(AfterExpiry(w, moves[0]).core, id)
         case Some(o) => r == Canceled(o.remaining) && Looks(moves[1..], buyAt, sellAt)
         case None => r == AlreadyClosed && |moves| == 1
  }

  /** `DELETE /orders/<id>` took the site from `s` to `s'` and answered `r`. */
  ghost predicate CanceledAt(cfg: Config, s: Site, id: OrderId, symbol: string, wall: int, now: real, buyAt: real,
                             sellAt: real, r: CancelReply, moves: seq<Move>, s': Site)
  {
    var e := Rolled(cfg, s, wall);
    if symbol != "" && symbol !in cfg.simulated then r == BadSymbol && moves == [] && s' == e
    else if symbol != "" && symbol !in cfg.owned then r == OtherShard && moves == [] && s' == e
    else TakenOut(cfg, e, id, now, buyAt, sellAt, r, moves, s')
  }

  /** `GET /books/<symbol>` took the site from `s` to `s'` and showed `r`. */
  ghost predicate Shown(cfg: Config, s: Site, symbol: string, wall: int, now: real, r: Option<BookSnapshot>,
                        moves: seq<Move>, s': Site) {
    var e := Rolled(cfg, s, wall);
    if symbol !in cfg.owned then r == None && moves == [] && s' == e
    else
      var w := WorldFor(e, symbol, now);
      && |moves| == 1 && moves[0].DoLook? && moves[0].now == now
      && r == Some(Snapshot(AfterExpiry(w, moves[0]).core, symbol))
      && Served(cfg, e, symbol, w, moves, s')
  }

  // ----- Session dates -----

  /** Every resting order was accepted on this date. */
  ghost predicate AllFrom(worlds: map<string, World>, dates: Dates, date: int) {
    forall s, id | s in worlds && id in AllIds(worlds[s].core) :: id in dates && dates[id] == date
  }

  ghost predicate DatesOk(worlds: map<string, World>, dates: Dates, session: Option<int>) {
    match session
    case None => forall s | s in worlds :: AllIds(worlds[s].core) == {}
    case Some(date) => AllFrom(worlds, dates, date)
  }

  /** Sessions are trading dates that have begun. */
  ghost predicate SessionOk(mode: Mode, session: Option<int>, seen: int) {
    mode.Scheduled? && session.Some? ==> Weekday(session.value) < 5 && session.value <= DateOf(seen)
  }

  lemma {:induction false} IdsAfterMove(w: World, maxAge: real, capacity: nat, mv: Move)
    requires WorldOk(w) && CanMove(w, maxAge, mv)
    ensures AllIds(Moved(w, maxAge, capacity, mv).core) <= AllIds(w.core) + if mv.DoSubmit? then {mv.order.orderId}
              else {}
  {
    hide CoreOk, AllIds, Distinct, ClosedOnce, Conserved, Uncrossed, Forget, Submit, Cancel, MatchIn;
    CleanAfterExpiry(w, maxAge, mv);
    ExpiryKeeps(w, maxAge, mv);
    var e := AfterExpiry(w, mv);
    match mv
    case DoSubmit(order, now, later, gone) => SubmitOk(e.core, order, capacity);
    case DoCancel(id, now, gone) => CancelOk(e.core, id);
    case DoLook(now, gone) =>
  }

  /** A trade of this submission joins two orders accepted on the same session date. */
  lemma {:induction false} SameDate(w: World, maxAge: real, mv: Move, dates: Dates, date: int, i: nat)
    requires WorldOk(w) && CanMove(w, maxAge, mv) && mv.DoSubmit?
    requires forall id | id in AllIds(w.core) :: id in dates && dates[id] == date
    requires mv.order.orderId in dates && dates[mv.order.orderId] == date
    requires i < |MatchIn(AfterExpiry(w, mv).core, mv.order).trades|
    ensures var t := MatchIn(AfterExpiry(w, mv).core, mv.order).trades[i];
            && t.buyOrderId in dates && t.sellOrderId in dates && dates[t.buyOrderId] == dates[t.sellOrderId] == date
  {
    hide WorldOk, AllIds, CoreOk, MatchIn, AfterExpiry;
    var c := AfterExpiry(w, mv).core;
    CleanAfterExpiry(w, maxAge, mv);
    TradeParties(c, mv.order, i);
    var t, m := MatchIn(c, mv.order).trades[i], c.Resting(mv.order.side.Opposite())[i].order.orderId;
    assert t.buyOrderId in {mv.order.orderId, m} && t.sellOrderId in {mv.order.orderId, m};
  }

  lemma {:induction false} AllFromUpdate(worlds: map<string, World>, dates: Dates, date: int, symbol: string, w: World,
                                         maxAge: real, capacity: nat, mv: Move)
    requires AllFrom(worlds, dates, date) && WorldOk(w) && CanMove(w, maxAge, mv)
    requires forall id | id in AllIds(w.core) :: id in dates && dates[id] == date
    requires mv.DoSubmit? ==> mv.order.orderId in dates && dates[mv.order.orderId] == date
    ensures AllFrom(worlds[symbol := Moved(w, maxAge, capacity, mv)], dates, date)
  {
    hide WorldOk, AllIds, Moved, CanMove;
    IdsAfterMove(w, maxAge, capacity, mv);
  }

  /** Without a session for the order's date, its trades join one date exactly when there are none. */
  lemma {:induction false} OffDate(worlds: map<string, World>, dates: Dates, session: Option<int>, symbol: string,
                                   w: World, maxAge: real, mv: Move, date: int)
    requires DatesOk(worlds, dates, session) && WorldOk(w) && CanMove(w, maxAge, mv) && mv.DoSubmit?
    requires mv.order.orderId !in AllIds(w.core)
    requires if symbol in worlds then w == worlds[symbol] else AllIds(w.core) == {}
    requires session != Some(date)
    ensures SameDates(dates[mv.order.orderId := date], MatchIn(AfterExpiry(w, mv).core, mv.order).trades)
       <==> !Finds(w, maxAge, mv.order, mv.now)
  {
    hide WorldOk, AllIds, MatchIn, AfterExpiry, CanMove, Finds, SameDates;
    OtherDate(w, maxAge, mv, dates[mv.order.orderId := date], if session.Some? then session.value else date + 1, date);
  }

  lemma {:induction false} JoinedIsSame(dates: Dates, trades: seq<Trade>, date: int)
    requires Joined(dates, trades, date)
    ensures SameDates(dates, trades)
  {
  }

  /** A session is a trading date, so it is not the date of a reading without one. */
  lemma {:induction false} NoSuchSession(mode: Mode, session: Option<int>, seen: int)
    requires mode.Scheduled? && SessionOk(mode, session, seen) && SessionDate(mode, seen) == None
    ensures session != Some(DateOf(seen))
  {
    hide DateOf, Weekday;
  }

  /** An expiry or a cancel adds no ids. */
  lemma {:induction false} DatesKept(worlds: map<string, World>, dates: Dates, session: Option<int>, symbol: string,
                                     w: World, maxAge: real, capacity: nat, mv: Move)
    requires DatesOk(worlds, dates, session) && WorldOk(w) && CanMove(w, maxAge, mv) && !mv.DoSubmit?
    requires if symbol in worlds then w == worlds[symbol] else AllIds(w.core) == {}
    ensures DatesOk(worlds[symbol := Moved(w, maxAge, capacity, mv)], dates, session)
  {
    hide AllIds, Moved, CanMove, WorldOk;
    IdsAfterMove(w, maxAge, capacity, mv);
    if session.Some? {
      AllFromUpdate(worlds, dates, session.value, symbol, w, maxAge, capacity, mv);
    }
  }

  class MatcherApi {
    const mode: Mode
    const simulated: set<string>
    const registry: OrderBookRegistry
    ghost var acceptedOn: Dates
    ghost var seen: int       // the latest wall-clock reading
    ghost var onDate: bool    // the roll-over of every accepted order read a trading date

    ghost function Configuration(): Config {
      Config(mode, simulated, registry.owned, registry.capacity, registry.maxAge)
    }

    ghost function State(): Site
      reads registry
    {
      Site(registry.worlds, registry.orderSymbols, registry.session)
    }

    ghost predicate Valid()
      reads this, registry, registry.Repr
    {
      && registry.Valid() && this !in registry.Repr && SessionOk(mode, registry.session, seen)
      && (mode.Scheduled? && onDate ==> DatesOk(registry.worlds, acceptedOn, registry.session))
      && acceptedOn.Keys <= registry.used
    }

    constructor (mode: Mode, simulated: set<string>, owned: set<string>, capacity: nat, maxAge: real, ghost clock: real,
                 ghost seen: int)
      requires capacity >= 1 && maxAge >= 0.0
      ensures Valid() && fresh(registry) && this.mode == mode && this.seen == seen && acceptedOn == map[] && onDate
      ensures registry.Repr == {} && registry.clock == clock && registry.used == {}
      ensures Configuration() == Config(mode, simulated, owned, capacity, maxAge) && State() == Site(map[], map[], None)
    {
      this.mode, this.simulated, this.seen, acceptedOn, onDate := mode, simulated, seen, map[], true;
      var r := new OrderBookRegistry(owned, capacity, maxAge, clock);
      registry := r;
    }

    /** A new date empties the registry; on the current one nothing happens. */
    method RollOver(wall: int)
      requires Valid() && seen <= wall
      modifies this`seen, registry
      ensures Valid() && seen == wall && registry.Repr <= old(registry.Repr)
      ensures registry.used == old(registry.used) && registry.clock == old(registry.clock)
      ensures State() == Rolled(Configuration(), old(State()), wall)
      ensures mode.Scheduled? ==> (SessionDate(mode, wall).Some? <==> registry.session == Some(DateOf(wall)))
    {
      hide OrderBookRegistry.Holds, OrderBookRegistry.Apart, AllOk, Exact, AllIds, DateOf, Weekday;
      DatesGrow(seen, wall);
      seen := wall;
      if mode.AlwaysOpen? {
        return;
      }
      var cleared := registry.Rollover(SessionDate(mode, wall));
    }

    lemma NotItsOwnPart()
      requires Valid()
      ensures this !in registry.Repr
    {
    }

    /** One gauge: the total of a side of an open book, after expiry. */
    method ReadDepth(symbol: string, side: Side, at: real) returns (quantity: int, ghost mv: Move)
      requires Valid() && registry.clock <= at && symbol in registry.worlds
      modifies registry, registry.Repr
      ensures Valid() && State().session == old(State()).session && fresh(registry.Repr - old(registry.Repr))
      ensures registry.clock == at && registry.used == old(registry.used)
      ensures registry.orderSymbols.Keys <= old(registry.orderSymbols.Keys)
      ensures mv.DoLook? && mv.now == at && CanMove(old(registry.worlds[symbol]), registry.maxAge, mv)
      ensures registry.worlds ==
                old(registry.worlds)[symbol :=
                Moved(old(registry.worlds[symbol]), registry.maxAge, registry.capacity, mv)]
      ensures quantity == Total(registry.worlds[symbol].core.Resting(side))
    {
      hide OrderBookRegistry.Holds, OrderBookRegistry.Apart, AllOk, Exact, AllIds, DatesOk, SessionOk, CanMove,
           WorldOk, AfterExpiry, MapAfter, Total;
      ghost var w, before, used, clock := registry.worlds[symbol], registry.worlds, registry.used, registry.clock;
      registry.OpenIsOwned(symbol);
      var answer;
      ghost var done;
      answer, done := registry.Look(symbol, DepthOf(side), at);
      quantity, mv := answer.value.quantity, done.value;
      WorldIn(before, used, clock, symbol);
      LookHeard(old(registry.orderSymbols), w, mv, symbol);
      if mode.Scheduled? && onDate {
        DatesKept(before, acceptedOn, registry.session, symbol, w, registry.maxAge, registry.capacity, mv);
      }
    }

    /** The depth gauges of an open book; the second total is read after another expiry. */
    method UpdateDepth(symbol: string, buyAt: real, sellAt: real)
      returns (bought: int, sold: int, ghost moves: seq<Move>)
      requires Valid() && registry.clock <= buyAt <= sellAt && symbol in registry.worlds
      modifies registry, registry.Repr
      ensures Valid() && fresh(registry.Repr - old(registry.Repr))
      ensures registry.clock == sellAt && registry.used == old(registry.used)
      ensures registry.orderSymbols.Keys <= old(registry.orderSymbols.Keys)
      ensures Looks(moves, buyAt, sellAt)
      ensures Served(Configuration(), old(State()), symbol, old(registry.worlds[symbol]), moves, State())
      ensures sold == Total(registry.worlds[symbol].core.asks)
      ensures bought ==
                Total(Moved(old(registry.worlds[symbol]), registry.maxAge, registry.capacity, moves[0]).core.bids)
    {
      hide Valid, CanMove, Moved, Total;
      ghost var w, first, second := registry.worlds[symbol], DoLook(buyAt, []), DoLook(sellAt, []);
      bought, first := ReadDepth(symbol, BUY, buyAt);
      ghost var mid := registry.worlds[symbol];
      sold, second := ReadDepth(symbol, SELL, sellAt);
      moves := [first, second];
      RanTwo(registry.maxAge, registry.capacity, w, first, second);
      assert old(registry.worlds)[symbol := mid][symbol := registry.worlds[symbol]]
        == old(registry.worlds)[symbol := registry.worlds[symbol]];
      ExactNow();
    }

    lemma ExactNow()
      requires Valid()
      ensures Exact(registry.orderSymbols, registry.worlds)
    {
    }

    /**
     `POST /orders`: market open, roll-over, a well-formed order, a simulated symbol,
     a symbol of this shard, in that order. `None` is a request that does not parse.
     */
    method CreateOrder(order: Option<Order>, t: Readings) returns (r: Reply, ghost moves: seq<Move>)
      requires Valid() && t.From(seen, registry.clock)
      requires order.Some? ==> order.value.Valid() && order.value.orderId !in registry.used
      modifies this, registry, registry.Repr
      ensures Valid() && seen <= t.rolledAt && registry.clock <= t.sellAt && fresh(registry.Repr - old(registry.Repr))
      ensures Ordered(Configuration(), old(State()), order, t, r, moves, State())
      ensures registry.used == if r.Created? then old(registry.used) + {order.value.orderId} else old(registry.used)
      ensures acceptedOn == if r.Created? then old(acceptedOn)[order.value.orderId := DateOf(t.rolledAt)]
                else old(acceptedOn)
      ensures onDate == (old(onDate) && (r.Created? && mode.Scheduled? ==> SessionDate(mode, t.rolledAt).Some?))
      ensures r.Created? && mode.Scheduled? ==>
                (SessionDate(mode, t.rolledAt).Some? <==> registry.session == Some(DateOf(t.rolledAt)))
      ensures r.Created? && mode.Scheduled? && onDate ==> Joined(acceptedOn, r.result.trades, DateOf(t.rolledAt))
      ensures r.Created? && mode.Scheduled? && old(onDate) ==>
        (SameDates(acceptedOn, r.result.trades) <==>
           SessionDate(mode, t.rolledAt).Some?
             || !FindsMaker(Rolled(Configuration(), old(State()), t.rolledAt), registry.maxAge, order.value, t.now))
    {
      hide Valid, Rolled, IsOpen, DateOf, SessionDate, Accepted, Joined;
      moves := [];
      if !IsOpen(mode, t.checkedAt) {
        See(t.checkedAt);
        return MarketClosed, [];
      }
      RollOver(t.rolledAt);
      if order.None? {
        return InvalidOrder, [];
      }
      if order.value.symbol !in simulated {
        return UnsupportedSymbol, [];
      }
      if order.value.symbol !in registry.owned {
        return WrongShard, [];
      }
      NotItsOwnPart();
      var result;
      result, moves := CreateIn(order.value, t);
      r := Created(result);
    }

    ghost method See(wall: int)
      requires Valid() && seen <= wall
      modifies this`seen
      ensures Valid() && seen == wall
    {
      hide OrderBookRegistry.Valid, DatesOk, DateOf, Weekday;
      DatesGrow(seen, wall);
      seen := wall;
    }

    /** The request has passed every check: the book takes the order, then the gauges look at the book. */
    method CreateIn(order: Order, t: Readings) returns (r: MatchResult, ghost moves: seq<Move>)
      requires Valid() && t.From(t.checkedAt, registry.clock) && order.Valid() && order.orderId !in registry.used
      requires seen == t.rolledAt && order.symbol in registry.owned
      requires mode.Scheduled? ==> (SessionDate(mode, seen).Some? <==> registry.session == Some(DateOf(seen)))
      modifies this`acceptedOn, this`onDate, registry, registry.Repr
      ensures Valid() && registry.clock <= t.sellAt && fresh(registry.Repr - old(registry.Repr))
      ensures Accepted(Configuration(), old(State()), order, t, r, moves, State())
      ensures registry.session == old(registry.session) && registry.used == old(registry.used) + {order.orderId}
      ensures acceptedOn == old(acceptedOn)[order.orderId := DateOf(seen)]
      ensures onDate == (old(onDate) && (mode.Scheduled? ==> SessionDate(mode, seen).Some?))
      ensures mode.Scheduled? && onDate ==> Joined(acceptedOn, r.trades, DateOf(seen))
      ensures mode.Scheduled? && old(onDate) ==>
        (SameDates(acceptedOn, r.trades) <==>
          SessionDate(mode, seen).Some? || !FindsMaker(old(State()), registry.maxAge, order, t.now))
    {
      hide Valid, CanMove, Moved, AfterExpiry, MatchIn, DateOf, Joined, Start, SessionDate;
      ghost var w := WorldFor(State(), order.symbol, t.now);
      ghost var mv, looks := DoLook(t.now, []), [];
      r, mv := Accept(order, t.now, t.later);
      ghost var mid := registry.worlds[order.symbol];
      var bought, sold;
      NotItsOwnPart();
      bought, sold, looks := UpdateDepth(order.symbol, t.buyAt, t.sellAt);
      moves := [mv] + looks;
      assert moves[1..] == looks;
      RanFirst(registry.maxAge, registry.capacity, w, mv, looks);
      assert old(registry.worlds)[order.symbol := mid][order.symbol := registry.worlds[order.symbol]]
          == old(registry.worlds)[order.symbol := registry.worlds[order.symbol]];
    }

    /** The order goes to its book. */
    method Accept(order: Order, now: real, later: real) returns (r: MatchResult, ghost mv: Move)
      requires Valid() && registry.clock <= now <= later && order.Valid() && order.orderId !in registry.used
      requires order.symbol in registry.owned
      requires mode.Scheduled? ==> (SessionDate(mode, seen).Some? <==> registry.session == Some(DateOf(seen)))
      modifies this`acceptedOn, this`onDate, registry, registry.Repr
      ensures Valid() && registry.session == old(registry.session) && fresh(registry.Repr - old(registry.Repr))
      ensures registry.clock <= later && registry.used == old(registry.used) + {order.orderId}
      ensures acceptedOn == old(acceptedOn)[order.orderId := DateOf(seen)]
      ensures onDate == (old(onDate) && (mode.Scheduled? ==> SessionDate(mode, seen).Some?))
      ensures var w := WorldFor(old(State()), order.symbol, now);
              && mv.DoSubmit? && mv.order == order && mv.now == now && mv.later == later
                 && CanMove(w, registry.maxAge, mv)
              && r == SubmitResult(AfterExpiry(w, mv).core, order)
              && registry.worlds
                 == old(registry.worlds)[order.symbol := Moved(w, registry.maxAge, registry.capacity, mv)]
      ensures mode.Scheduled? && onDate ==> Joined(acceptedOn, r.trades, DateOf(seen))
      ensures mode.Scheduled? && old(onDate) ==>
        (SameDates(acceptedOn, r.trades) <==>
          SessionDate(mode, seen).Some? || !FindsMaker(old(State()), registry.maxAge, order, now))
    {
      hide OrderBookRegistry.Holds, OrderBookRegistry.Apart, Exact, AllIds, DateOf, Moved, CanMove, AfterExpiry,
           MapAfter, WorldOk, MatchIn;
      hide SessionDate, Weekday;
      ghost var w := registry.WorldOf(order.symbol, now);
      StartOk(now);
      StartEmpty(now);
      var result;
      ghost var done;
      result, done := registry.Submit(order, now, later);
      r, mv := result.value, done.value;
      acceptedOn := acceptedOn[order.orderId := DateOf(seen)];
      onDate := onDate && (mode.Scheduled? ==> SessionDate(mode, seen).Some?);
      if mode.Scheduled? && onDate {
        UnusedDate(old(registry.worlds), old(registry.used), old(registry.clock), old(acceptedOn), DateOf(seen),
          order.orderId);
        AllFromUpdate(old(registry.worlds), acceptedOn, DateOf(seen), order.symbol, w, registry.maxAge,
          registry.capacity, mv);
        AllSameDate(w, registry.maxAge, mv, acceptedOn, DateOf(seen));
        JoinedIsSame(acceptedOn, r.trades, DateOf(seen));
      } else if mode.Scheduled? && old(onDate) {
        NoSuchSession(mode, old(registry.session), seen);
        OffDate(old(registry.worlds), old(acceptedOn), old(registry.session), order.symbol, w, registry.maxAge, mv,
          DateOf(seen));
      }
    }

    /** The registry's cancel, keeping every resting order on the active date. */
    method CancelAt(id: OrderId, now: real) returns (r: Result<OpenOrder>, ghost moves: seq<Move>)
      requires Valid() && registry.clock <= now
      modifies registry, registry.Repr
      ensures Valid() && registry.clock == now && registry.used == old(registry.used)
      ensures registry.Repr <= old(registry.Repr)
      ensures id !in registry.orderSymbols && State().session == old(State()).session
      ensures id !in old(registry.orderSymbols) ==> r == Err(OrderNotFound) && moves == [] && State() == old(State())
      ensures id in old(registry.orderSymbols) ==>
        old(registry.orderSymbols[id]) in old(registry.worlds) &&
        var symbol := old(registry.orderSymbols[id]);
        var w := old(registry.worlds[symbol]);
        && |moves| == 1 && moves[0].DoCancel? && moves[0].id == id && moves[0].now == now
           && CanMove(w, registry.maxAge, moves[0])
        && r == CancelResult(AfterExpiry(w, moves[0]).core, id)
        && (r.Ok? ==> r.value.order.symbol == symbol)
        && registry.worlds == old(registry.worlds)[symbol := Moved(w, registry.maxAge, registry.capacity, moves[0])]
    {
      hide OrderBookRegistry.Holds, OrderBookRegistry.Apart, AllIds, SessionOk, Moved, CanMove, AfterExpiry, WorldOk,
           Find, Exact, AllOk, DatesOk, Hear, Reported, OfSymbol;
      ghost var before, used, clock, m := registry.worlds, registry.used, registry.clock, registry.orderSymbols;
      ghost var mv;
      r, mv := registry.Cancel(id, now);
      moves := [];
      if mv.Some? {
        moves := [mv.value];
        WorldIn(before, used, clock, m[id]);
        MoveFor(before[m[id]], registry.maxAge, registry.capacity, mv.value, m[id]);
        if r.Ok? {
          FoundFor(AfterExpiry(before[m[id]], mv.value).core, id, m[id]);
        }
        if mode.Scheduled? && onDate {
          DatesKept(before, acceptedOn, registry.session, m[id], before[m[id]], registry.maxAge, registry.capacity,
            mv.value);
        }
      }
    }

    /**
     `DELETE /orders/<id>`: roll-over, the checks on the optional symbol, the registry's cancel, the
     gauges of its book.
     */
    method CancelOrder(id: OrderId, symbol: string, wall: int, now: real, buyAt: real, sellAt: real)
      returns (r: CancelReply, ghost moves: seq<Move>)
      requires Valid() && seen <= wall && registry.clock <= now <= buyAt <= sellAt
      modifies this, registry, registry.Repr
      ensures Valid() && seen == wall && acceptedOn == old(acceptedOn) && onDate == old(onDate)
      ensures registry.clock <= sellAt && registry.used == old(registry.used)
      ensures fresh(registry.Repr - old(registry.Repr))
      ensures CanceledAt(Configuration(), old(State()), id, symbol, wall, now, buyAt, sellAt, r, moves, State())
      ensures r.Canceled? || r.AlreadyClosed? ==>
        id !in registry.orderSymbols && forall s | s in registry.worlds :: id !in AllIds(registry.worlds[s].core)
    {
      hide Valid, Rolled, DateOf, SessionDate, TakenOut, AllIds;
      RollOver(wall);
      if symbol != "" && symbol !in simulated {
        return BadSymbol, [];
      }
      if symbol != "" && symbol !in registry.owned {
        return OtherShard, [];
      }
      NotItsOwnPart();
      r, moves := Withdraw(id, now, buyAt, sellAt);
      ExactNow();
      GoneEverywhere(registry.orderSymbols, registry.worlds, id);
    }

    /** The cancel itself, and after a success the gauges. */
    method Withdraw(id: OrderId, now: real, buyAt: real, sellAt: real) returns (r: CancelReply, ghost moves: seq<Move>)
      requires Valid() && registry.clock <= now <= buyAt <= sellAt
      modifies registry, registry.Repr
      ensures Valid() && registry.clock <= sellAt && registry.used == old(registry.used)
      ensures fresh(registry.Repr - old(registry.Repr))
      ensures TakenOut(Configuration(), old(State()), id, now, buyAt, sellAt, r, moves, State())
      ensures (r.Canceled? || r.AlreadyClosed?) && id !in registry.orderSymbols
    {
      hide Valid, CanMove, Moved, AfterExpiry, Find;
      var canceled;
      canceled, moves := CancelAt(id, now);
      ExactNow();
      if canceled.Err? {
        if moves != [] {
          RanOne(registry.maxAge, registry.capacity, old(registry.worlds[registry.orderSymbols[id]]), moves[0]);
          assert moves == [moves[0]];
        }
        return AlreadyClosed, moves;
      }
      ghost var symbol, w, mv, mid := canceled.value.order.symbol, old(registry.worlds[registry.orderSymbols[id]]),
        moves[0], registry.worlds;
      var bought, sold;
      ghost var looks;
      bought, sold, looks := UpdateDepth(canceled.value.order.symbol, buyAt, sellAt);
      moves := [mv] + looks;
      assert moves[1..] == looks;
      RanFirst(registry.maxAge, registry.capacity, w, mv, looks);
      assert old(registry.worlds)[symbol := mid[symbol]][symbol := registry.worlds[symbol]]
        == old(registry.worlds)[symbol := registry.worlds[symbol]];
      r := Canceled(canceled.value.remaining);
    }

    /** `GET /books/<symbol>`: roll-over, then the snapshot, of a new book if need be. */
    method BookDetail(symbol: string, wall: int, now: real) returns (r: Option<BookSnapshot>, ghost moves: seq<Move>)
      requires Valid() && seen <= wall && registry.clock <= now
      modifies this, registry, registry.Repr
      ensures Valid() && seen == wall && acceptedOn == old(acceptedOn) && onDate == old(onDate)
      ensures fresh(registry.Repr - old(registry.Repr))
      ensures registry.clock <= now && registry.used == old(registry.used)
      ensures Shown(Configuration(), old(State()), symbol, wall, now, r, moves, State())
      ensures r.Some? ==> symbol in registry.worlds && r.value == Snapshot(registry.worlds[symbol].core, symbol)
    {
      hide Valid, Rolled, DateOf, SessionDate, AfterExpiry, CanMove, Snapshot, Start;
      RollOver(wall);
      NotItsOwnPart();
      r, moves := Detail(symbol, now);
    }

    method Detail(symbol: string, now: real) returns (r: Option<BookSnapshot>, ghost moves: seq<Move>)
      requires Valid() && registry.clock <= now
      modifies registry, registry.Repr
      ensures Valid() && registry.clock <= now && registry.used == old(registry.used)
      ensures fresh(registry.Repr - old(registry.Repr))
      ensures symbol !in registry.owned ==> r == None && moves == [] && State() == old(State())
      ensures symbol in registry.owned ==>
        var w := WorldFor(old(State()), symbol, now);
        && |moves| == 1 && moves[0].DoLook? && moves[0].now == now
        && r == Some(Snapshot(AfterExpiry(w, moves[0]).core, symbol))
        && Served(Configuration(), old(State()), symbol, w, moves, State())
      ensures r.Some? ==> symbol in registry.worlds && r.value == Snapshot(registry.worlds[symbol].core, symbol)
    {
      hide OrderBookRegistry.Holds, OrderBookRegistry.Apart, AllIds, SessionOk, AfterExpiry, WorldOk, CanMove;
      hide Exact, AllOk, DatesOk, Hear, Reported, Snapshot, Start;
      ghost var before, used, clock := registry.worlds, registry.used, registry.clock;
      ghost var w := registry.WorldOf(symbol, now);
      StartOk(now);
      StartEmpty(now);
      var answer;
      ghost var mv;
      answer, mv := registry.Look(symbol, WholeBook, now);
      r, moves := None, [];
      if answer.Some? {
        r, moves := Some(answer.value.snapshot), [mv.value];
        if symbol in before {
          WorldIn(before, used, clock, symbol);
        }
        RanOne(registry.maxAge, registry.capacity, w, mv.value);
        if mode.Scheduled? && onDate {
          DatesKept(before, acceptedOn, registry.session, symbol, w, registry.maxAge, registry.capacity, mv.value);
        }
      }
    }
  }

  lemma {:induction false} RanOne(maxAge: real, capacity: nat, w: World, mv: Move)
    requires CanMove(w, maxAge, mv)
    ensures Ran(maxAge, capacity, w, [mv]) == Some(Moved(w, maxAge, capacity, mv))
  {
    hide CanMove, Moved;
    assert [mv][1..] == [];
  }

  lemma {:induction false} RanFirst(maxAge: real, capacity: nat, w: World, mv: Move, moves: seq<Move>)
    requires CanMove(w, maxAge, mv)
    ensures Ran(maxAge, capacity, w, [mv] + moves) == Ran(maxAge, capacity, Moved(w, maxAge, capacity, mv), moves)
  {
    hide CanMove, Moved;
    assert ([mv] + moves)[1..] == moves;
  }

  lemma {:induction false} RanTwo(maxAge: real, capacity: nat, w: World, a: Move, b: Move)
    requires CanMove(w, maxAge, a) && CanMove(Moved(w, maxAge, capacity, a), maxAge, b)
    ensures Ran(maxAge, capacity, w, [a, b]) == Some(Moved(Moved(w, maxAge, capacity, a), maxAge, capacity, b))
  {
    hide CanMove, Moved;
    RanOne(maxAge, capacity, Moved(w, maxAge, capacity, a), b);
    RanFirst(maxAge, capacity, w, a, [b]);
    assert [a] + [b] == [a, b];
  }

  lemma {:induction false} StartEmpty(now: real)
    ensures AllIds(Start(now).core) == {}
  {
  }

  /** A new order's date does not touch the dates of resting orders. */
  lemma {:induction false} UnusedDate(worlds: map<string, World>, used: set<OrderId>, clock: real, dates: Dates,
                                      date: int, id: OrderId)
    requires AllFrom(worlds, dates, date) && AllOk(worlds, used, clock) && id !in used
    ensures AllFrom(worlds, dates[id := date], date)
  {
  }

  lemma {:induction false} AllSameDate(w: World, maxAge: real, mv: Move, dates: Dates, date: int)
    requires WorldOk(w) && CanMove(w, maxAge, mv) && mv.DoSubmit?
    requires forall id | id in AllIds(w.core) :: id in dates && dates[id] == date
    requires mv.order.orderId in dates && dates[mv.order.orderId] == date
    ensures Joined(dates, MatchIn(AfterExpiry(w, mv).core, mv.order).trades, date)
  {
    hide WorldOk, CanMove, AllIds, MatchIn, AfterExpiry;
    var ts := MatchIn(AfterExpiry(w, mv).core, mv.order).trades;
    forall t | t in ts
      ensures t.buyOrderId in dates && t.sellOrderId in dates && dates[t.buyOrderId] == dates[t.sellOrderId] == date
    {
      var i :| 0 <= i < |ts| && ts[i] == t;
      SameDate(w, maxAge, mv, dates, date, i);
    }
  }
}

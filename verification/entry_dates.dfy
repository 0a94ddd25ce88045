/**
 Which runs of the order endpoints mix session dates: exactly those in which some
 accepted order reaches, at its acceptance, an opposing order of another date.
 */
module EntryDates {
  import opened OrderTypes
  import opened ListBook
  import opened BookSpec
  import opened MatchFacts
  import opened BookRuns
  import opened TradeDates
  import opened MarketSessions
  import opened OrderEntry
  import opened EntryRuns

  /** No two requests of the run carry the same order id. */
  ghost predicate DistinctOrders(cs: seq<Call>) {
    forall i, j | 0 <= i < j < |cs| && cs[i].Create? && cs[j].Create? && cs[i].order.Some? && cs[j].order.Some? ::
      cs[i].order.value.orderId != cs[j].order.value.orderId
  }

  /** The book an accepted order finds, after the roll-over. */
  ghost function BookFor(cfg: Config, s: Site, c: Call): World
    requires c.Create? && c.order.Some?
  {
    WorldFor(Rolled(cfg, s, c.t.rolledAt), c.order.value.symbol, c.t.now)
  }

  /** If the order is accepted, every order it reaches in that book was accepted on the same date. */
  ghost predicate Meets(cfg: Config, s: Site, c: Call, o: Outcome, dates: Dates) {
    WasCreated(c, o) ==> MeetsOnly(BookFor(cfg, s, c), cfg.maxAge, c.order.value, c.t.now, dates, DateOf(c.t.rolledAt))
  }

  ghost predicate Unmixed(cfg: Config, cs: seq<Call>, os: seq<Outcome>, sites: seq<Site>)
    requires |os| == |cs| && |sites| == |cs| + 1
  {
    forall k | 0 <= k < |cs| :: Meets(cfg, sites[k], cs[k], os[k], DatesIn(cs[..k], os[..k]))
  }

  // ----- Only accepted orders rest and trade -----

  ghost predicate Inside(worlds: map<string, World>, ids: set<OrderId>) {
    forall s | s in worlds :: AllIds(worlds[s].core) <= ids
  }

  function Submissions(moves: seq<Move>): set<OrderId> {
    if moves == [] then {} else (if moves[0].DoSubmit? then {moves[0].order.orderId} else {}) + Submissions(moves[1..])
  }

  lemma {:induction false} RanIds(maxAge: real, capacity: nat, w: World, moves: seq<Move>)
    requires WorldOk(w) && Ran(maxAge, capacity, w, moves).Some?
    ensures AllIds(Ran(maxAge, capacity, w, moves).value.core) <= AllIds(w.core) + Submissions(moves)
    decreases |moves|
  {
    hide WorldOk, CanMove, Moved, AllIds;
    if moves != [] {
      IdsAfterMove(w, maxAge, capacity, moves[0]);
      MoveKeeps(w, maxAge, capacity, moves[0]);
      RanIds(maxAge, capacity, Moved(w, maxAge, capacity, moves[0]), moves[1..]);
    }
  }

  lemma {:induction false} ServedIds(cfg: Config, s: Site, symbol: string, w: World, moves: seq<Move>, s': Site,
                                     ids: set<OrderId>)
    requires Served(cfg, s, symbol, w, moves, s') && WorldOk(w) && Inside(s.worlds, ids) && AllIds(w.core) <= ids
    ensures Inside(s'.worlds, ids + Submissions(moves))
  {
    hide WorldOk, AllIds, Ran;
    RanIds(cfg.maxAge, cfg.capacity, w, moves);
  }

  lemma {:induction false} BookOk(s: Site, symbol: string, now: real, ids: set<OrderId>)
    requires SiteOk(s) && Inside(s.worlds, ids)
    ensures WorldOk(WorldFor(s, symbol, now)) && AllIds(WorldFor(s, symbol, now).core) <= ids
  {
    hide WorldOk, AllIds;
    StartOk(now);
    StartEmpty(now);
  }

  lemma {:induction false} RolledOk(cfg: Config, s: Site, wall: int, ids: set<OrderId>)
    requires SiteOk(s) && Inside(s.worlds, ids)
    ensures SiteOk(Rolled(cfg, s, wall)) && Inside(Rolled(cfg, s, wall).worlds, ids)
  {
    hide WorldOk, AllIds;
  }

  lemma {:induction false} CreateIds(cfg: Config, s: Site, order: Order, t: Readings, result: MatchResult,
                                     moves: seq<Move>, s': Site, ids: set<OrderId>)
    requires Accepted(cfg, s, order, t, result, moves, s') && SiteOk(s) && Inside(s.worlds, ids)
    ensures Inside(s'.worlds, ids + {order.orderId})
  {
    hide SiteOk, Inside, AllIds, Ran, Served, AfterExpiry, SubmitResult, WorldFor, WorldOk;
    BookOk(s, order.symbol, t.now, ids);
    ServedIds(cfg, s, order.symbol, WorldFor(s, order.symbol, t.now), moves, s', ids);
    QuietIds(moves[1..]);
    assert ids + Submissions(moves) == ids + {order.orderId};
  }

  lemma {:induction false} QuietIds(moves: seq<Move>)
    requires forall k | 0 <= k < |moves| :: !moves[k].DoSubmit?
    ensures Submissions(moves) == {}
  {
    if moves != [] {
      QuietIds(moves[1..]);
    }
  }

  lemma {:induction false} CancelIds(cfg: Config, s: Site, id: OrderId, now: real, buyAt: real, sellAt: real,
                                     r: CancelReply, moves: seq<Move>, s': Site, ids: set<OrderId>)
    requires TakenOut(cfg, s, id, now, buyAt, sellAt, r, moves, s') && SiteOk(s) && Inside(s.worlds, ids)
    ensures Inside(s'.worlds, ids)
  {
    hide Inside, AllIds, Ran, Served, AfterExpiry, WorldOk, Find;
    if id in s.symbols {
      var symbol := s.symbols[id];
      BookOk(s, symbol, now, ids);
      ServedIds(cfg, s, symbol, s.worlds[symbol], moves, s', ids);
      forall k | 0 < k < |moves|
        ensures !moves[k].DoSubmit?
      {
        assert moves[k] == moves[1..][k - 1];
      }
      QuietIds(moves);
      assert ids + {} == ids;
    }
  }

  lemma {:induction false} DetailIds(cfg: Config, s: Site, symbol: string, wall: int, now: real,
                                     r: Option<BookSnapshot>, moves: seq<Move>, s': Site, ids: set<OrderId>)
    requires Shown(cfg, s, symbol, wall, now, r, moves, s') && SiteOk(s) && Inside(s.worlds, ids)
    ensures Inside(s'.worlds, ids)
  {
    hide Inside, AllIds, Ran, Served, AfterExpiry, SiteOk, Rolled, Snapshot, WorldFor, WorldOk;
    RolledOk(cfg, s, wall, ids);
    if symbol in cfg.owned {
      var e := Rolled(cfg, s, wall);
      BookOk(e, symbol, now, ids);
      ServedIds(cfg, e, symbol, WorldFor(e, symbol, now), moves, s', ids);
      QuietIds(moves);
      assert ids + {} == ids;
    }
  }

  /** A request adds to the resting ids at most the one it was accepted for. */
  lemma {:induction false} AnsweredIds(cfg: Config, s: Site, c: Call, o: Outcome, moves: seq<Move>, s': Site,
                                       ids: set<OrderId>)
    requires Answered(cfg, s, c, o, moves, s') && SiteOk(s) && Inside(s.worlds, ids)
    ensures Inside(s'.worlds, if WasCreated(c, o) then ids + {c.order.value.orderId} else ids)
  {
    hide Inside, SiteOk, Rolled, Accepted, TakenOut, Shown, IsOpen, SessionDate;
    match c
    case Create(order, t) =>
      RolledOk(cfg, s, t.rolledAt, ids);
      if Refusal(cfg, order, t.checkedAt).None? {
        CreateIds(cfg, Rolled(cfg, s, t.rolledAt), order.value, t, o.reply.result, moves, s', ids);
      }
    case Withdraw(id, symbol, wall, now, buyAt, sellAt) =>
      RolledOk(cfg, s, wall, ids);
      if !(symbol != "" && symbol !in cfg.simulated) && !(symbol != "" && symbol !in cfg.owned) {
        CancelIds(cfg, Rolled(cfg, s, wall), id, now, buyAt, sellAt, o.closed, moves, s', ids);
      }
    case Detail(symbol, wall, now) => DetailIds(cfg, s, symbol, wall, now, o.shown, moves, s', ids);
  }

  /** On any run, whatever rests was accepted. */
  lemma {:induction false} RestingAccepted(cfg: Config, cs: seq<Call>, os: seq<Outcome>, moves: seq<seq<Move>>,
                                           sites: seq<Site>)
    requires IsRun(cfg, cs, os, moves, sites)
    ensures Inside(sites[|cs|].worlds, DatesIn(cs, os).Keys)
    decreases |cs|
  {
    hide Answered, SiteOk, Inside, WasCreated, DateOf;
    if cs == [] {
      NobodyInside(DatesIn(cs, os).Keys);
    } else {
      var n := |cs| - 1;
      Shorter(cfg, cs, os, moves, sites);
      RestingAccepted(cfg, cs[..n], os[..n], moves[..n], sites[..n + 1]);
      assert Answered(cfg, sites[n], cs[n], os[n], moves[n], sites[n + 1]) && sites[n] in sites;
      AnsweredIds(cfg, sites[n], cs[n], os[n], moves[n], sites[n + 1], DatesIn(cs[..n], os[..n]).Keys);
      DatedKeys(DatesIn(cs[..n], os[..n]), cs[n], os[n]);
    }
  }

  lemma {:induction false} NobodyInside(ids: set<OrderId>)
    ensures Inside(map[], ids)
  {
  }

  lemma {:induction false} DatedKeys(dates: Dates, c: Call, o: Outcome)
    ensures Dated(dates, c, o).Keys == if WasCreated(c, o) then dates.Keys + {c.order.value.orderId} else dates.Keys
  {
  }

  lemma {:induction false} Shorter(cfg: Config, cs: seq<Call>, os: seq<Outcome>, moves: seq<seq<Move>>,
                                   sites: seq<Site>)
    requires IsRun(cfg, cs, os, moves, sites) && cs != []
    ensures var n := |cs| - 1; IsRun(cfg, cs[..n], os[..n], moves[..n], sites[..n + 1])
  {
    hide Answered, SiteOk;
    var n := |cs| - 1;
    forall k | 0 <= k < n
      ensures Answered(cfg, sites[..n + 1][k], cs[..n][k], os[..n][k], moves[..n][k], sites[..n + 1][k + 1])
    {
      assert Answered(cfg, sites[k], cs[k], os[k], moves[k], sites[k + 1]);
    }
    forall s | s in sites[..n + 1]
      ensures SiteOk(s)
    {
      assert s in sites;
    }
  }

  lemma {:induction false} AcceptedOnes(cs: seq<Call>, os: seq<Outcome>)
    requires |os| == |cs|
    ensures forall id | id in DatesIn(cs, os) :: exists k ::
              0 <= k < |cs| && cs[k].Create? && cs[k].order.Some? && cs[k].order.value.orderId == id
  {
    hide DateOf;
    if cs != [] {
      var n := |cs| - 1;
      AcceptedOnes(cs[..n], os[..n]);
      forall id | id in DatesIn(cs, os)
        ensures exists k :: 0 <= k < |cs| && cs[k].Create? && cs[k].order.Some? && cs[k].order.value.orderId == id
      {
        if id in DatesIn(cs[..n], os[..n]) {
          var k :| 0 <= k < n && cs[..n][k].Create? && cs[..n][k].order.Some? && cs[..n][k].order.value.orderId == id;
          assert cs[k].order.value.orderId == id;
        } else {
          assert cs[n].order.value.orderId == id;
        }
      }
    }
  }

  // ----- One request -----

  /** What an accepted request brings to the question of dates. */
  lemma {:induction false} CreatedIs(cfg: Config, s: Site, c: Call, o: Outcome, moves: seq<Move>, s': Site)
    requires Answered(cfg, s, c, o, moves, s')
    ensures WasCreated(c, o) ==>
              var w := BookFor(cfg, s, c);
              && moves != [] && moves[0].DoSubmit? && moves[0].order == c.order.value && moves[0].now == c.t.now
              && CanMove(w, cfg.maxAge, moves[0])
              && TradesOf(o) == MatchIn(AfterExpiry(w, moves[0]).core, c.order.value).trades
    ensures !WasCreated(c, o) ==> TradesOf(o) == []
  {
    hide Rolled, IsOpen, SessionDate, WorldFor, MatchIn, AfterExpiry, CanMove, CanceledAt, Shown;
  }

  lemma {:induction false} AllAccepted(w: World, maxAge: real, mv: Move, dates: Dates)
    requires WorldOk(w) && mv.DoSubmit? && CanMove(w, maxAge, mv) && AllIds(w.core) <= dates.Keys
    ensures forall t | t in MatchIn(AfterExpiry(w, mv).core, mv.order).trades ::
              t.buyOrderId in dates.Keys + {mv.order.orderId} && t.sellOrderId in dates.Keys + {mv.order.orderId}
  {
    hide WorldOk, AllIds, CoreOk, MatchIn, AfterExpiry;
    var c := AfterExpiry(w, mv).core;
    var ts := MatchIn(c, mv.order).trades;
    CleanAfterExpiry(w, maxAge, mv);
    forall t | t in ts
      ensures t.buyOrderId in dates.Keys + {mv.order.orderId} && t.sellOrderId in dates.Keys + {mv.order.orderId}
    {
      var i :| 0 <= i < |ts| && ts[i] == t;
      TradeParties(c, mv.order, i);
      var m := c.Resting(mv.order.side.Opposite())[i].order.orderId;
      assert t.buyOrderId in {mv.order.orderId, m} && t.sellOrderId in {mv.order.orderId, m};
    }
  }

  /** The order's own date does not matter to the makers it reaches. */
  lemma {:induction false} MakersDated(w: World, maxAge: real, order: Order, now: real, dates: Dates, date: int)
    requires AllIds(w.core) <= dates.Keys && order.orderId !in dates
    ensures MeetsOnly(w, maxAge, order, now, dates[order.orderId := date], date) <==>
              MeetsOnly(w, maxAge, order, now, dates, date)
  {
    hide Reaches, TooOld, Without;
    var makers := Makers(w, maxAge, order, now);
    WithoutKeeps(w.core.Resting(order.side.Opposite()), TooOld(w.ages, maxAge, now));
    forall i: nat | Reaches(order, order.quantity, makers, i)
      ensures i < |makers| && makers[i].order.orderId in dates
    {
      InReach(order, makers, i);
      assert makers[i] in makers;
    }
  }

  lemma {:induction false} InReach(order: Order, makers: seq<OpenOrder>, i: nat)
    requires Reaches(order, order.quantity, makers, i)
    ensures i < |makers|
  {
  }

  /** More dates for new ids change nothing about old trades. */
  lemma {:induction false} OldTrades(dates: Dates, id: OrderId, date: int, trades: seq<Trade>)
    requires id !in dates && forall t | t in trades :: t.buyOrderId in dates && t.sellOrderId in dates
    ensures SameDates(dates[id := date], trades) <==> SameDates(dates, trades)
  {
  }

  lemma {:induction false} SameDatesBoth(dates: Dates, a: seq<Trade>, b: seq<Trade>)
    ensures SameDates(dates, a + b) <==> SameDates(dates, a) && SameDates(dates, b)
  {
    forall t
      ensures t in a + b <==> t in a || t in b
    {
    }
  }

  /**
   One more request: the trades so far are as they were, and its own join one date exactly when it
   meets only its own.
   */
  lemma {:induction false} OneMore(cfg: Config, s: Site, c: Call, o: Outcome, moves: seq<Move>, s': Site, dates: Dates,
                                   trades: seq<Trade>)
    requires Answered(cfg, s, c, o, moves, s') && SiteOk(s) && Inside(s.worlds, dates.Keys)
    requires forall t | t in trades :: t.buyOrderId in dates && t.sellOrderId in dates
    requires WasCreated(c, o) ==> c.order.value.orderId !in dates
    ensures SameDates(Dated(dates, c, o), trades + TradesOf(o)) <==>
              SameDates(dates, trades) && Meets(cfg, s, c, o, dates)
    ensures forall t | t in trades + TradesOf(o) ::
              t.buyOrderId in Dated(dates, c, o) && t.sellOrderId in Dated(dates, c, o)
  {
    hide Answered, SiteOk, Inside, WorldOk, AllIds, SameDates, MeetsOnly, MatchIn, AfterExpiry, CanMove, DateOf,
         Rolled, WorldFor, TradesOf;
    CreatedIs(cfg, s, c, o, moves, s');
    if WasCreated(c, o) {
      var w, order, date := BookFor(cfg, s, c), c.order.value, DateOf(c.t.rolledAt);
      RolledOk(cfg, s, c.t.rolledAt, dates.Keys);
      BookOk(Rolled(cfg, s, c.t.rolledAt), order.symbol, c.t.now, dates.Keys);
      var dates' := dates[order.orderId := date];
      DatesDecide(w, cfg.maxAge, moves[0], dates', date);
      MakersDated(w, cfg.maxAge, order, c.t.now, dates, date);
      AllAccepted(w, cfg.maxAge, moves[0], dates);
      OldTrades(dates, order.orderId, date, trades);
      SameDatesBoth(dates', trades, TradesOf(o));
    } else {
      assert trades + [] == trades;
    }
  }

  /** A new request's order id is not among those accepted before. */
  lemma {:induction false} LastIsNew(cs: seq<Call>, os: seq<Outcome>)
    requires |os| == |cs| && cs != [] && DistinctOrders(cs)
    ensures var n := |cs| - 1;
            DistinctOrders(cs[..n])
              && (WasCreated(cs[n], os[n]) ==> cs[n].order.value.orderId !in DatesIn(cs[..n], os[..n]))
  {
    hide DatesIn;
    var n := |cs| - 1;
    AcceptedOnes(cs[..n], os[..n]);
    assert forall k | 0 <= k < n :: cs[..n][k] == cs[k];
  }

  lemma {:induction false} UnmixedMore(cfg: Config, cs: seq<Call>, os: seq<Outcome>, sites: seq<Site>)
    requires |os| == |cs| && |sites| == |cs| + 1 && cs != []
    ensures var n := |cs| - 1;
            Unmixed(cfg, cs, os, sites) <==>
              Unmixed(cfg, cs[..n], os[..n], sites[..n + 1])
                && Meets(cfg, sites[n], cs[n], os[n], DatesIn(cs[..n], os[..n]))
  {
    hide Meets, DatesIn;
    var n := |cs| - 1;
    forall k | 0 <= k < n
      ensures cs[..n][..k] == cs[..k] && os[..n][..k] == os[..k] && cs[..n][k] == cs[k] && os[..n][k] == os[k]
      ensures sites[..n + 1][k] == sites[k]
    {
    }
  }

  /**
   A run of the endpoints, in either market mode, never joins orders of two dates exactly
   when no accepted order reached an opposing order of another date. Whom an order reaches
   is known before it is matched: opposing orders that cross, are not too old, and stand
   behind less quantity than it has.
   */
  lemma {:induction false} MixesExactly(cfg: Config, cs: seq<Call>, os: seq<Outcome>, moves: seq<seq<Move>>,
                                        sites: seq<Site>)
    requires IsRun(cfg, cs, os, moves, sites) && DistinctOrders(cs)
    ensures SameDates(DatesIn(cs, os), TradesIn(os)) <==> Unmixed(cfg, cs, os, sites)
    ensures forall t | t in TradesIn(os) :: t.buyOrderId in DatesIn(cs, os) && t.sellOrderId in DatesIn(cs, os)
    decreases |cs|
  {
    hide Answered, SiteOk, Inside, SameDates, DistinctOrders, Meets, Dated, TradesOf, WasCreated, Unmixed;
    if cs == [] {
      NoneMixed(cfg, os, sites);
    } else {
      var n := |cs| - 1;
      Shorter(cfg, cs, os, moves, sites);
      LastIsNew(cs, os);
      MixesExactly(cfg, cs[..n], os[..n], moves[..n], sites[..n + 1]);
      RestingAccepted(cfg, cs[..n], os[..n], moves[..n], sites[..n + 1]);
      assert Answered(cfg, sites[n], cs[n], os[n], moves[n], sites[n + 1]) && sites[n] in sites;
      OneMore(cfg, sites[n], cs[n], os[n], moves[n], sites[n + 1], DatesIn(cs[..n], os[..n]), TradesIn(os[..n]));
      UnmixedMore(cfg, cs, os, sites);
    }
  }

  lemma {:induction false} NoneMixed(cfg: Config, os: seq<Outcome>, sites: seq<Site>)
    requires os == [] && |sites| == 1
    ensures SameDates(DatesIn([], os), TradesIn(os)) && TradesIn(os) == [] && Unmixed(cfg, [], os, sites)
  {
  }

  /** Requests in order carry distinct order ids. */
  lemma {:induction false} InOrderIsDistinct(cs: seq<Call>, wall: int, clock: real, used: set<OrderId>)
    requires InOrder(cs, wall, clock, used)
    ensures DistinctOrders(cs)
    ensures forall k | 0 <= k < |cs| && cs[k].Create? && cs[k].order.Some? :: cs[k].order.value.orderId !in used
    decreases |cs|
  {
    if cs != [] {
      InOrderIsDistinct(cs[1..], WallAfter(cs[0]), TimeAfter(cs[0]), UsedAfter(cs[0], used));
      assert forall k | 1 <= k < |cs| :: cs[k] == cs[1..][k - 1];
    }
  }
}

/**
 Whole runs of requests to the order endpoints: every reply and every state is
 that of the step on values, and no trade ever joins orders accepted on two
 session dates, unless a roll-over read a date without trading.
 */
module EntryRuns {
  import opened OrderTypes
  import opened BookRuns
  import opened TradeDates
  import opened MarketSessions
  import opened Registries
  import opened RegistryMap
  import opened OrderEntry

  datatype Call =
    | Create(order: Option<Order>, t: Readings)
    | Withdraw(id: OrderId, symbol: string, wall: int, now: real, buyAt: real, sellAt: real)
    | Detail(symbol: string, wall: int, now: real)

  datatype Outcome =
    CreateAnswer(reply: Reply) | CancelAnswer(closed: CancelReply) | DetailAnswer(shown: Option<BookSnapshot>)

  function WallAfter(c: Call): int {
    if c.Create? then c.t.rolledAt else c.wall
  }

  function TimeAfter(c: Call): real {
    match c
    case Create(order, t) => t.sellAt
    case Withdraw(id, symbol, wall, now, buyAt, sellAt) => sellAt
    case Detail(symbol, wall, now) => now
  }

  function UsedAfter(c: Call, used: set<OrderId>): set<OrderId> {
    if c.Create? && c.order.Some? then used + {c.order.value.orderId} else used
  }

  /** Clock readings that never go back, and well-formed orders with ids never submitted before. */
  ghost predicate Starts(c: Call, wall: int, clock: real, used: set<OrderId>) {
    match c
    case Create(order, t) => t.From(wall, clock)
      && (order.Some? ==> order.value.Valid() && order.value.orderId !in used)
    case Withdraw(id, symbol, at, now, buyAt, sellAt) => wall <= at && clock <= now <= buyAt <= sellAt
    case Detail(symbol, at, now) => wall <= at && clock <= now
  }

  ghost predicate InOrder(cs: seq<Call>, wall: int, clock: real, used: set<OrderId>)
    decreases |cs|
  {
    cs == [] || (Starts(cs[0], wall, clock, used)
      && InOrder(cs[1..], WallAfter(cs[0]), TimeAfter(cs[0]), UsedAfter(cs[0], used)))
  }

  // ----- A run, on values -----

  ghost predicate Answered(cfg: Config, s: Site, c: Call, o: Outcome, moves: seq<Move>, s': Site) {
    match c
    case Create(order, t) => o.CreateAnswer? && Ordered(cfg, s, order, t, o.reply, moves, s')
    case Withdraw(id, symbol, wall, now, buyAt, sellAt) =>
      o.CancelAnswer? && CanceledAt(cfg, s, id, symbol, wall, now, buyAt, sellAt, o.closed, moves, s')
    case Detail(symbol, wall, now) => o.DetailAnswer? && Shown(cfg, s, symbol, wall, now, o.shown, moves, s')
  }

  /**
   The map names exactly what rests, and every book is uncrossed, conserves quantity and has closed
   no order twice.
   */
  ghost predicate SiteOk(s: Site) {
    Exact(s.symbols, s.worlds) && forall symbol | symbol in s.worlds :: WorldOk(s.worlds[symbol])
  }

  ghost predicate IsRun(cfg: Config, cs: seq<Call>, os: seq<Outcome>, moves: seq<seq<Move>>, sites: seq<Site>) {
    && |os| == |moves| == |cs| && |sites| == |cs| + 1 && sites[0] == Site(map[], map[], None)
    && (forall i | 0 <= i < |cs| :: Answered(cfg, sites[i], cs[i], os[i], moves[i], sites[i + 1]))
    && (forall s | s in sites :: SiteOk(s))
  }

  predicate WasCreated(c: Call, o: Outcome) {
    c.Create? && c.order.Some? && o.CreateAnswer? && o.reply.Created?
  }

  function TradesOf(o: Outcome): seq<Trade> {
    if o.CreateAnswer? && o.reply.Created? then o.reply.result.trades else []
  }

  function TradesIn(os: seq<Outcome>): seq<Trade> {
    if os == [] then [] else TradesIn(os[..|os| - 1]) + TradesOf(os[|os| - 1])
  }

  function Dated(dates: Dates, c: Call, o: Outcome): Dates {
    if WasCreated(c, o) then dates[c.order.value.orderId := DateOf(c.t.rolledAt)] else dates
  }

  /** The date on which each accepted order's session rolled over. */
  function DatesIn(cs: seq<Call>, os: seq<Outcome>): Dates
    requires |cs| == |os|
  {
    if cs == [] then map[] else Dated(DatesIn(cs[..|cs| - 1], os[..|os| - 1]), cs[|cs| - 1], os[|os| - 1])
  }

  /** The roll-over of every accepted order read a trading date. */
  ghost predicate OnDates(mode: Mode, cs: seq<Call>, os: seq<Outcome>)
    requires |cs| == |os|
  {
    forall i | 0 <= i < |cs| && WasCreated(cs[i], os[i]) :: SessionDate(mode, cs[i].t.rolledAt).Some?
  }

  lemma {:induction false} MoreDates(dates: Dates, trades: seq<Trade>, c: Call, o: Outcome)
    requires SameDates(dates, trades) && (TradesOf(o) != [] ==> WasCreated(c, o))
    requires WasCreated(c, o) ==>
               c.order.value.orderId !in dates && Joined(Dated(dates, c, o), TradesOf(o), DateOf(c.t.rolledAt))
    ensures SameDates(Dated(dates, c, o), trades + TradesOf(o))
  {
    hide DateOf;
  }

  /** If every request reads the wall clock once, the reading was checked to be in trading hours. */
  lemma {:induction false} OneReading(cfg: Config, cs: seq<Call>, os: seq<Outcome>, moves: seq<seq<Move>>,
                                      sites: seq<Site>)
    requires IsRun(cfg, cs, os, moves, sites)
    requires forall c | c in cs && c.Create? :: c.t.checkedAt == c.t.rolledAt
    ensures OnDates(cfg.mode, cs, os)
  {
    hide Accepted, Rolled, SiteOk, DateOf, Weekday, TimeOf;
    forall k | 0 <= k < |cs| && WasCreated(cs[k], os[k])
      ensures SessionDate(cfg.mode, cs[k].t.rolledAt).Some?
    {
      assert cs[k] in cs && Answered(cfg, sites[k], cs[k], os[k], moves[k], sites[k + 1]);
    }
  }

  lemma {:induction false} RunMore(cfg: Config, cs: seq<Call>, os: seq<Outcome>, moves: seq<seq<Move>>,
                                   sites: seq<Site>, c: Call, o: Outcome, made: seq<Move>, s: Site)
    requires IsRun(cfg, cs, os, moves, sites) && Answered(cfg, sites[|cs|], c, o, made, s) && SiteOk(s)
    ensures IsRun(cfg, cs + [c], os + [o], moves + [made], sites + [s])
  {
    hide Answered, SiteOk;
    var cs', os', moves', sites' := cs + [c], os + [o], moves + [made], sites + [s];
    forall i | 0 <= i < |cs'|
      ensures Answered(cfg, sites'[i], cs'[i], os'[i], moves'[i], sites'[i + 1])
    {
      if i < |cs| {
        assert Answered(cfg, sites[i], cs[i], os[i], moves[i], sites[i + 1]);
      }
    }
  }

  lemma {:induction false} FiguresMore(mode: Mode, cs: seq<Call>, os: seq<Outcome>, c: Call, o: Outcome)
    requires |cs| == |os|
    ensures TradesIn(os + [o]) == TradesIn(os) + TradesOf(o)
    ensures DatesIn(cs + [c], os + [o]) == Dated(DatesIn(cs, os), c, o)
    ensures OnDates(mode, cs + [c], os + [o]) <==>
              OnDates(mode, cs, os) && (WasCreated(c, o) ==> SessionDate(mode, c.t.rolledAt).Some?)
  {
    hide DateOf, SessionDate, Dated, TradesOf;
    var n := |cs|;
    assert (cs + [c])[..n] == cs && (os + [o])[..n] == os;
    assert forall i | 0 <= i < n :: (cs + [c])[i] == cs[i] && (os + [o])[i] == os[i];
    assert (cs + [c])[n] == c && (os + [o])[n] == o;
  }

  lemma {:induction false} NoRun(cfg: Config)
    ensures IsRun(cfg, [], [], [], [Site(map[], map[], None)])
  {
  }

  lemma SiteNow(api: MatcherApi)
    requires api.Valid()
    ensures SiteOk(api.State()) && api.acceptedOn.Keys <= api.registry.used
  {
    hide OrderBookRegistry.Holds, OrderBookRegistry.Apart, Exact, WorldOk, OfSymbol;
  }

  // ----- Serving -----

  /** One request. */
  method ServeOne(api: MatcherApi, c: Call) returns (o: Outcome, ghost moves: seq<Move>)
    requires api.Valid() && Starts(c, api.seen, api.registry.clock, api.registry.used)
    modifies api, api.registry, api.registry.Repr
    ensures api.Valid() && api.seen <= WallAfter(c) && api.registry.clock <= TimeAfter(c)
    ensures api.registry.used <= UsedAfter(c, old(api.registry.used))
    ensures fresh(api.registry.Repr - old(api.registry.Repr))
    ensures Answered(api.Configuration(), old(api.State()), c, o, moves, api.State())
    ensures api.acceptedOn == Dated(old(api.acceptedOn), c, o) && (TradesOf(o) != [] ==> WasCreated(c, o))
    ensures WasCreated(c, o) ==> c.order.value.orderId !in old(api.registry.used)
    ensures api.mode.Scheduled? ==>
              api.onDate == (old(api.onDate) && (WasCreated(c, o) ==> SessionDate(api.mode, c.t.rolledAt).Some?))
    ensures api.mode.Scheduled? && api.onDate && WasCreated(c, o) ==>
              Joined(api.acceptedOn, TradesOf(o), DateOf(c.t.rolledAt))
  {
    hide MatcherApi.Valid, Joined, DateOf, IsOpen, SessionDate, Rolled, Accepted, CanceledAt, Shown;
    match c
    case Create(order, t) =>
      var r;
      r, moves := api.CreateOrder(order, t);
      o := CreateAnswer(r);
    case Withdraw(id, symbol, wall, now, buyAt, sellAt) =>
      var r;
      r, moves := api.CancelOrder(id, symbol, wall, now, buyAt, sellAt);
      o := CancelAnswer(r);
    case Detail(symbol, wall, now) =>
      var r;
      r, moves := api.BookDetail(symbol, wall, now);
      o := DetailAnswer(r);
  }

  lemma {:induction false} LaterIsFine(cs: seq<Call>, wall: int, wall': int, clock: real, clock': real,
                                       used: set<OrderId>, used': set<OrderId>)
    requires InOrder(cs, wall, clock, used) && wall' <= wall && clock' <= clock && used' <= used
    ensures InOrder(cs, wall', clock', used')
    decreases |cs|
  {
    if cs != [] {
      LaterIsFine(cs[1..], WallAfter(cs[0]), WallAfter(cs[0]), TimeAfter(cs[0]), TimeAfter(cs[0]),
        UsedAfter(cs[0], used), UsedAfter(cs[0], used'));
    }
  }

  /**
   Any run of requests on a new process: one answer per request, all of them the
   model's; in scheduled mode every trade joins orders of one session date, as long
   as the roll-over of every accepted order read a trading date.
   */
  method ServeAll(mode: Mode, simulated: set<string>, owned: set<string>, capacity: nat, maxAge: real, clock: real,
                  wall: int, cs: seq<Call>)
    returns (api: MatcherApi, os: seq<Outcome>, ghost moves: seq<seq<Move>>, ghost sites: seq<Site>)
    requires capacity >= 1 && maxAge >= 0.0 && InOrder(cs, wall, clock, {})
    ensures api.Valid() && api.Configuration() == Config(mode, simulated, owned, capacity, maxAge)
    ensures IsRun(api.Configuration(), cs, os, moves, sites) && sites[|cs|] == api.State()
    ensures mode.Scheduled? && OnDates(mode, cs, os) ==> SameDates(DatesIn(cs, os), TradesIn(os))
    ensures mode.Scheduled? && (forall c | c in cs && c.Create? :: c.t.checkedAt == c.t.rolledAt) ==>
              SameDates(DatesIn(cs, os), TradesIn(os))
  {
    hide MatcherApi.Valid, Joined, DateOf, SameDates, IsRun, Answered, Starts, OnDates, Dated, TradesOf, DatesIn,
         TradesIn, SiteOk, SessionDate, WasCreated, UsedAfter;
    api := new MatcherApi(mode, simulated, owned, capacity, maxAge, clock, wall);
    os, moves, sites := [], [], [api.State()];
    ghost var cfg := api.Configuration();
    NoRun(cfg);
    NothingYet(mode);
    assert cs[..0] == [] && cs[0..] == cs;
    for i := 0 to |cs|
      invariant fresh(api) && fresh(api.registry) && fresh(api.registry.Repr) && api.mode == mode
      invariant api.Configuration() == cfg
      invariant api.Valid() && InOrder(cs[i..], api.seen, api.registry.clock, api.registry.used)
      invariant |os| == i && |sites| == i + 1 && IsRun(cfg, cs[..i], os, moves, sites) && sites[i] == api.State()
      invariant api.acceptedOn == DatesIn(cs[..i], os)
      invariant mode.Scheduled? ==> api.onDate == OnDates(mode, cs[..i], os)
      invariant mode.Scheduled? && api.onDate ==> SameDates(api.acceptedOn, TradesIn(os))
    {
      ghost var dates, used := api.acceptedOn, api.registry.used;
      SiteNow(api);
      assert cs[i..][0] == cs[i] && cs[i..][1..] == cs[i + 1..];
      var o;
      ghost var made;
      o, made := ServeOne(api, cs[i]);
      SiteNow(api);
      LaterIsFine(cs[i + 1..], WallAfter(cs[i]), api.seen, TimeAfter(cs[i]), api.registry.clock, UsedAfter(cs[i], used),
        api.registry.used);
      if mode.Scheduled? && api.onDate {
        DatedIs(dates, cs[i], o);
        MoreDates(dates, TradesIn(os), cs[i], o);
      }
      FiguresMore(mode, cs[..i], os, cs[i], o);
      RunMore(cfg, cs[..i], os, moves, sites, cs[i], o, made, api.State());
      assert cs[..i] + [cs[i]] == cs[..i + 1];
      os, moves, sites := os + [o], moves + [made], sites + [api.State()];
    }
    assert cs[..|cs|] == cs;
    if forall c | c in cs && c.Create? :: c.t.checkedAt == c.t.rolledAt {
      OneReading(cfg, cs, os, moves, sites);
    }
  }

  lemma {:induction false} DatedIs(dates: Dates, c: Call, o: Outcome)
    ensures WasCreated(c, o) ==> Dated(dates, c, o).Keys == dates.Keys + {c.order.value.orderId}
  {
  }

  lemma {:induction false} NothingYet(mode: Mode)
    ensures SameDates(map[], TradesIn([])) && DatesIn([], []) == map[] && OnDates(mode, [], [])
  {
  }
}

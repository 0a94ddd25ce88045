/**
 Two crossing orders on a new process: their trade joins two dates exactly when the
 dates differ and one of the two roll-overs read a date without trading. An order
 checked in the last microsecond of Friday whose roll-over reads Saturday rests
 without a session, and Monday's first order trades with it.
 */
module WeekendRollover {
  import opened OrderTypes
  import opened ListBook
  import opened BookSpec
  import opened MatchFacts
  import opened BookFacts
  import opened BookRuns
  import opened TradeDates
  import opened MarketSessions
  import opened OrderEntry
  import opened EntryRuns
  import opened EntryDates

  // ----- A book without an age limit -----

  /** A look changes no list, and a submission sees the lists as they are. */
  lemma {:induction false} NoExpiry(w: World, mv: Move)
    requires CanMove(w, 0.0, mv)
    ensures AfterExpiry(w, mv).core == w.core
  {
    assert IdSet(mv.gone) == {};
    ForgetNothing(w.core);
  }

  lemma {:induction false} QuietLook(capacity: nat, w: World, moves: seq<Move>)
    requires moves != [] && moves[0].DoLook? && Ran(0.0, capacity, w, moves).Some?
    ensures Ran(0.0, capacity, AfterExpiry(w, moves[0]), moves[1..]) == Ran(0.0, capacity, w, moves)
    ensures AfterExpiry(w, moves[0]).core == w.core
  {
    hide CanMove, AfterExpiry;
    NoExpiry(w, moves[0]);
  }

  lemma {:induction false} AfterOrder(capacity: nat, w: World, order: Order, t: Readings, moves: seq<Move>)
    requires moves != [] && moves[0].DoSubmit? && moves[0].order == order && Looks(moves[1..], t.buyAt, t.sellAt)
    requires Ran(0.0, capacity, w, moves).Some?
    ensures Ran(0.0, capacity, w, moves).value.core == Submit(w.core, order, capacity)
  {
    hide Submit, CanMove, AfterExpiry, Moved;
    NoExpiry(w, moves[0]);
    Submits(capacity, w, moves[0]);
    var w1 := Moved(w, 0.0, capacity, moves[0]);
    QuietLook(capacity, w1, moves[1..]);
    QuietLook(capacity, AfterExpiry(w1, moves[1]), moves[1..][1..]);
  }

  lemma {:induction false} Submits(capacity: nat, w: World, mv: Move)
    requires mv.DoSubmit?
    ensures Moved(w, 0.0, capacity, mv).core == Submit(AfterExpiry(w, mv).core, mv.order, capacity)
  {
  }

  // ----- Two orders -----

  function Pair(a: Order, t1: Readings, b: Order, t2: Readings): seq<Call> {
    [Create(Some(a), t1), Create(Some(b), t2)]
  }

  /** The second order crosses the first. */
  predicate Meet(a: Order, b: Order) {
    && a.Valid() && b.Valid() && a.orderId != b.orderId && a.symbol == b.symbol
    && b.side == a.side.Opposite() && Crosses(b, a)
  }

  lemma {:induction false} FirstSubmitted(a: Order, capacity: nat)
    requires a.Valid()
    ensures Submit(EMPTY, a, capacity).Resting(a.side) == [OpenOrder(a, a.quantity, 1)]
  {
    assert MatchIn(EMPTY, a) == Matching([], [], a.quantity, []);
  }

  lemma {:induction false} FirstRests(cfg: Config, a: Order, t: Readings, o: Outcome, moves: seq<Move>, s: Site,
                                      s': Site)
    requires cfg.mode.Scheduled? && cfg.maxAge == 0.0 && a.Valid() && s == Site(map[], map[], None)
    requires Answered(cfg, s, Create(Some(a), t), o, moves, s') && WasCreated(Create(Some(a), t), o)
    ensures s'.session == SessionDate(cfg.mode, t.rolledAt)
    ensures a.symbol in s'.worlds && s'.worlds[a.symbol].core.Resting(a.side) == [OpenOrder(a, a.quantity, 1)]
  {
    hide SessionDate, Submit, MatchIn, AfterExpiry, CanMove, Moved, Ran, IsOpen;
    FirstSubmitted(a, cfg.capacity);
    AfterOrder(cfg.capacity, Start(t.now), a, t, moves);
  }

  lemma {:induction false} NobodyMet(maxAge: real, order: Order, now: real, dates: Dates, date: int)
    ensures MeetsOnly(Start(now), maxAge, order, now, dates, date)
  {
  }

  lemma {:induction false} OneMet(w: World, a: Order, b: Order, now: real, dates: Dates, date: int)
    requires Meet(a, b) && w.core.Resting(a.side) == [OpenOrder(a, a.quantity, 1)] && a.orderId in dates
    ensures MeetsOnly(w, 0.0, b, now, dates, date) <==> dates[a.orderId] == date
  {
    var makers := Makers(w, 0.0, b, now);
    WithoutNothing(w.core.Resting(a.side), {});
    assert makers == [OpenOrder(a, a.quantity, 1)];
    assert makers[..0] == [];
    assert Reaches(b, b.quantity, makers, 0);
  }

  /**
   The first order is still there for the second unless both roll-overs read trading dates and the
   second is later.
   */
  lemma {:induction false} StillThere(cfg: Config, s: Site, t1: Readings, t2: Readings)
    requires cfg.mode.Scheduled? && s.session == SessionDate(cfg.mode, t1.rolledAt) && t1.rolledAt <= t2.rolledAt
    ensures var d1, d2 := SessionDate(cfg.mode, t1.rolledAt), SessionDate(cfg.mode, t2.rolledAt);
            Rolled(cfg, s, t2.rolledAt).worlds == if d1.Some? && d2.Some? && d1 != d2 then map[] else s.worlds
    ensures SessionDate(cfg.mode, t1.rolledAt).Some? && SessionDate(cfg.mode, t2.rolledAt).None? ==>
              DateOf(t1.rolledAt) != DateOf(t2.rolledAt)
  {
    hide DateOf, Weekday;
    DatesGrow(t1.rolledAt, t2.rolledAt);
  }

  lemma {:induction false} DatesOfPair(a: Order, t1: Readings, b: Order, t2: Readings, os: seq<Outcome>)
    requires |os| == 2 && WasCreated(Pair(a, t1, b, t2)[0], os[0])
    ensures var cs := Pair(a, t1, b, t2);
            && DatesIn(cs[..0], os[..0]) == map[] && DatesIn(cs[..1], os[..1]) == map[a.orderId := DateOf(t1.rolledAt)]
  {
    hide DateOf;
    var cs := Pair(a, t1, b, t2);
    assert cs[..1] == [cs[0]] && [cs[0]][..0] == [] && os[..1] == [os[0]] && [os[0]][..0] == [];
  }

  /** A trade of two dates needs different dates and a roll-over that read none. */
  lemma {:induction false} TwoOrders(cfg: Config, a: Order, t1: Readings, b: Order, t2: Readings, os: seq<Outcome>,
                                     moves: seq<seq<Move>>, sites: seq<Site>)
    requires cfg.mode.Scheduled? && cfg.maxAge == 0.0 && Meet(a, b) && t1.rolledAt <= t2.rolledAt
    requires IsRun(cfg, Pair(a, t1, b, t2), os, moves, sites)
    requires WasCreated(Pair(a, t1, b, t2)[0], os[0]) && WasCreated(Pair(a, t1, b, t2)[1], os[1])
    ensures SameDates(DatesIn(Pair(a, t1, b, t2), os), TradesIn(os)) <==>
              || DateOf(t1.rolledAt) == DateOf(t2.rolledAt)
              || (SessionDate(cfg.mode, t1.rolledAt).Some? && SessionDate(cfg.mode, t2.rolledAt).Some?)
  {
    hide DateOf, SessionDate, Answered, SiteOk, SameDates, DatesIn, TradesIn, MeetsOnly, WasCreated, Rolled;
    var cs := Pair(a, t1, b, t2);
    MixesExactly(cfg, cs, os, moves, sites);
    assert Answered(cfg, sites[0], cs[0], os[0], moves[0], sites[1]);
    FirstRests(cfg, a, t1, os[0], moves[0], sites[0], sites[1]);
    DatesOfPair(a, t1, b, t2, os);
    var first, second := DatesIn(cs[..0], os[..0]), DatesIn(cs[..1], os[..1]);
    EmptyFirst(cfg, t1.rolledAt);
    NobodyMet(0.0, a, t1.now, first, DateOf(t1.rolledAt));
    assert Meets(cfg, sites[0], cs[0], os[0], first);
    StillThere(cfg, sites[1], t1, t2);
    SomeDate(cfg.mode, t1.rolledAt);
    SomeDate(cfg.mode, t2.rolledAt);
    if Rolled(cfg, sites[1], t2.rolledAt).worlds == map[] {
      NobodyMet(0.0, b, t2.now, second, DateOf(t2.rolledAt));
    } else {
      OneMet(sites[1].worlds[a.symbol], a, b, t2.now, second, DateOf(t2.rolledAt));
    }
  }

  lemma {:induction false} EmptyFirst(cfg: Config, wall: int)
    ensures Rolled(cfg, Site(map[], map[], None), wall).worlds == map[]
  {
  }

  lemma {:induction false} SomeDate(mode: Mode, t: int)
    ensures SessionDate(mode, t).Some? ==> SessionDate(mode, t).value == DateOf(t)
  {
  }

  // ----- A run in which it happens -----

  /** Days since 1970-01-01, a Thursday. */
  const FRIDAY := 1
  const SATURDAY := 2
  const MONDAY := 4

  const SELL_ORDER := Order("u", "A", SELL, 10, 1, 1)
  const BUY_ORDER := Order("v", "A", BUY, 10, 1, 2)
  const OVERNIGHT := Readings(FRIDAY * DAY + MARKET_CLOSE - 1, SATURDAY * DAY, 0.0, 0.0, 0.0, 0.0)
  const MORNING := Readings(OpeningOf(MONDAY), OpeningOf(MONDAY), 1.0, 1.0, 1.0, 1.0)

  lemma {:induction false} Clocks()
    ensures IsOpen(Scheduled, OVERNIGHT.checkedAt) && SessionDate(Scheduled, OVERNIGHT.rolledAt) == None
    ensures IsOpen(Scheduled, MORNING.checkedAt) && SessionDate(Scheduled, MORNING.rolledAt) == Some(MONDAY)
    ensures DateOf(OVERNIGHT.rolledAt) == SATURDAY && DateOf(MORNING.rolledAt) == MONDAY
  {
    assert DateOf(OVERNIGHT.checkedAt) == FRIDAY;
    OpensOn(MONDAY);
  }

  lemma {:induction false} InTime()
    ensures InOrder(Pair(SELL_ORDER, OVERNIGHT, BUY_ORDER, MORNING), FRIDAY * DAY, 0.0, {})
  {
    var cs := Pair(SELL_ORDER, OVERNIGHT, BUY_ORDER, MORNING);
    assert cs[1..] == [cs[1]] && cs[1..][1..] == [];
    assert InOrder(cs[1..], WallAfter(cs[0]), TimeAfter(cs[0]), UsedAfter(cs[0], {}));
  }

  lemma {:induction false} NotRefused(cfg: Config, s: Site, c: Call, o: Outcome, moves: seq<Move>, s': Site)
    requires Answered(cfg, s, c, o, moves, s') && c.Create? && Refusal(cfg, c.order, c.t.checkedAt) == None
    ensures WasCreated(c, o)
  {
    hide Accepted, Rolled, IsOpen;
  }

  /** Monday's first order trades with one accepted on Saturday. */
  method Weekend() returns (api: MatcherApi, os: seq<Outcome>)
    ensures |os| == 2 && !SameDates(DatesIn(Pair(SELL_ORDER, OVERNIGHT, BUY_ORDER, MORNING), os), TradesIn(os))
  {
    hide MatcherApi.Valid, Answered, SiteOk, SameDates, DateOf, IsOpen, SessionDate, OnDates, WasCreated, InOrder,
         DatesIn, TradesIn;
    var cs := Pair(SELL_ORDER, OVERNIGHT, BUY_ORDER, MORNING);
    InTime();
    Clocks();
    ghost var moves, sites;
    api, os, moves, sites := ServeAll(Scheduled, {"A"}, {"A"}, 1, 0.0, 0.0, FRIDAY * DAY, cs);
    ghost var cfg := api.Configuration();
    NotRefused(cfg, sites[0], cs[0], os[0], moves[0], sites[1]);
    NotRefused(cfg, sites[1], cs[1], os[1], moves[1], sites[2]);
    TwoOrders(cfg, SELL_ORDER, OVERNIGHT, BUY_ORDER, MORNING, os, moves, sites);
  }
}

/**
 When the trades of one submission join orders of one date: the makers it reaches
 are known before it is matched, so their dates decide.
 */
module TradeDates {
  import opened OrderTypes
  import opened ListBook
  import opened BookSpec
  import opened MatchFacts
  import opened BookFacts
  import opened BookRuns

  /** The date on which each order was accepted. */
  type Dates = map<OrderId, int>

  /** Both orders of each trade were accepted, on the same date. */
  ghost predicate SameDates(dates: Dates, trades: seq<Trade>) {
    forall t | t in trades ::
      t.buyOrderId in dates && t.sellOrderId in dates && dates[t.buyOrderId] == dates[t.sellOrderId]
  }

  /** All these trades join orders accepted on this date. */
  ghost predicate Joined(dates: Dates, trades: seq<Trade>, date: int) {
    forall t | t in trades ::
      t.buyOrderId in dates && t.sellOrderId in dates && dates[t.buyOrderId] == dates[t.sellOrderId] == date
  }

  // ----- Before matching -----

  /** The opposing orders that are not too old, best first. */
  ghost function Makers(w: World, maxAge: real, order: Order, now: real): seq<OpenOrder> {
    Without(w.core.Resting(order.side.Opposite()), TooOld(w.ages, maxAge, now))
  }

  /** Some opposing order that is not too old crosses. */
  ghost predicate Finds(w: World, maxAge: real, order: Order, now: real) {
    exists o :: o in w.core.Resting(order.side.Opposite()) && o.order.orderId !in TooOld(w.ages, maxAge, now)
      && Crosses(order, o.order)
  }

  /** Every order it reaches was accepted on this date. */
  ghost predicate MeetsOnly(w: World, maxAge: real, order: Order, now: real, dates: Dates, date: int) {
    var makers := Makers(w, maxAge, order, now);
    forall i: nat | Reaches(order, order.quantity, makers, i) ::
      makers[i].order.orderId in dates && dates[makers[i].order.orderId] == date
  }

  // ----- What matching makes of it -----

  lemma {:induction false} MakersAre(w: World, maxAge: real, mv: Move)
    requires mv.DoSubmit? && CanMove(w, maxAge, mv)
    ensures AfterExpiry(w, mv).core.Resting(mv.order.side.Opposite()) == Makers(w, maxAge, mv.order, mv.now)
  {
    hide Without, Distinct, TooOld, QuantityOf, Expiries;
  }

  lemma {:induction false} MakersInOrder(c: Core, order: Order)
    requires CoreOk(c) && order.Valid()
    ensures var makers := c.Resting(order.side.Opposite());
            Positive(makers) && CrossingFirst(order, makers)
              && (forall m | m in makers :: m.order.side == order.side.Opposite())
  {
    hide DistinctIds;
    MakersOk(c, order.side.Opposite());
  }

  /** The i-th trade joins the taker and the i-th maker. */
  lemma {:induction false} TradeParties(c: Core, order: Order, i: nat)
    requires CoreOk(c) && order.Valid() && i < |MatchIn(c, order).trades|
    ensures var makers, t := c.Resting(order.side.Opposite()), MatchIn(c, order).trades[i];
            && i < |makers| && makers[i].order.orderId in AllIds(c)
            && {t.buyOrderId, t.sellOrderId} == {order.orderId, makers[i].order.orderId}
  {
    hide CoreOk, Match, AllIds;
    var side := order.side.Opposite();
    var makers := c.Resting(side);
    MakersOk(c, side);
    MatchTakesPrefix(order, order.quantity, makers);
    ListedIds(c, side, makers[i]);
  }

  lemma {:induction false} CleanAfterExpiry(w: World, maxAge: real, mv: Move)
    requires WorldOk(w) && CanMove(w, maxAge, mv)
    ensures CoreOk(AfterExpiry(w, mv).core) && AllIds(AfterExpiry(w, mv).core) <= AllIds(w.core) <= w.used
  {
    hide CoreOk, AllIds, Distinct, ClosedOnce, Conserved, Uncrossed, Forget;
    ForgetOk(w.core, IdSet(mv.gone));
  }

  /** A submission joins one date exactly when every order it reaches was accepted on its own date. */
  lemma {:induction false} DatesDecide(w: World, maxAge: real, mv: Move, dates: Dates, date: int)
    requires WorldOk(w) && mv.DoSubmit? && CanMove(w, maxAge, mv)
    requires mv.order.orderId in dates && dates[mv.order.orderId] == date
    ensures SameDates(dates, MatchIn(AfterExpiry(w, mv).core, mv.order).trades) <==>
              MeetsOnly(w, maxAge, mv.order, mv.now, dates, date)
  {
    hide WorldOk, CoreOk, AllIds, AfterExpiry, MatchIn, Makers, Reaches, TooOld;
    var c, order := AfterExpiry(w, mv).core, mv.order;
    var makers, ts := Makers(w, maxAge, order, mv.now), MatchIn(c, order).trades;
    CleanAfterExpiry(w, maxAge, mv);
    MakersAre(w, maxAge, mv);
    forall i: nat
      ensures i < |ts| <==> Reaches(order, order.quantity, makers, i)
      ensures i < |ts| ==>
                i < |makers| && {ts[i].buyOrderId, ts[i].sellOrderId} == {order.orderId, makers[i].order.orderId}
    {
      Reached(c, order, i);
    }
    if SameDates(dates, ts) {
      forall i: nat | Reaches(order, order.quantity, makers, i)
        ensures makers[i].order.orderId in dates && dates[makers[i].order.orderId] == date
      {
        assert ts[i] in ts;
        assert makers[i].order.orderId in {ts[i].buyOrderId, ts[i].sellOrderId}
          && order.orderId in {ts[i].buyOrderId, ts[i].sellOrderId};
      }
    }
    if MeetsOnly(w, maxAge, order, mv.now, dates, date) {
      forall t | t in ts
        ensures t.buyOrderId in dates && t.sellOrderId in dates && dates[t.buyOrderId] == dates[t.sellOrderId]
      {
        var i :| 0 <= i < |ts| && ts[i] == t;
        assert t.buyOrderId in {order.orderId, makers[i].order.orderId}
          && t.sellOrderId in {order.orderId, makers[i].order.orderId};
      }
    }
  }

  lemma {:induction false} Reached(c: Core, order: Order, i: nat)
    requires CoreOk(c) && order.Valid()
    ensures var makers, ts := c.Resting(order.side.Opposite()), MatchIn(c, order).trades;
            && (i < |ts| <==> Reaches(order, order.quantity, makers, i))
            && (i < |ts| ==>
               i < |makers| && {ts[i].buyOrderId, ts[i].sellOrderId} == {order.orderId, makers[i].order.orderId})
  {
    hide CoreOk, Match, Reaches;
    MakersInOrder(c, order);
    TradesWithReached(order, order.quantity, c.Resting(order.side.Opposite()), i);
    if i < |MatchIn(c, order).trades| {
      TradeParties(c, order, i);
    }
  }

  /** A submission trades exactly when it finds a maker. */
  lemma {:induction false} TradesIfFound(w: World, maxAge: real, mv: Move)
    requires WorldOk(w) && mv.DoSubmit? && CanMove(w, maxAge, mv)
    ensures MatchIn(AfterExpiry(w, mv).core, mv.order).trades != [] <==> Finds(w, maxAge, mv.order, mv.now)
  {
    hide WorldOk, CoreOk, AllIds, AfterExpiry, TooOld, Match;
    var c, order := AfterExpiry(w, mv).core, mv.order;
    var makers := Makers(w, maxAge, order, mv.now);
    CleanAfterExpiry(w, maxAge, mv);
    MakersAre(w, maxAge, mv);
    MakersInOrder(c, order);
    WithoutKeeps(w.core.Resting(order.side.Opposite()), TooOld(w.ages, maxAge, mv.now));
    TradesWithReached(order, order.quantity, makers, 0);
    if Finds(w, maxAge, order, mv.now) {
      var o :| o in makers && Crosses(order, o.order);
      var k :| 0 <= k < |makers| && makers[k] == o;
      assert Crosses(order, makers[0].order);
      assert Total(makers[..0]) == 0;
    }
    if makers != [] && Crosses(order, makers[0].order) {
      assert makers[0] in makers;
    }
  }

  /** Against a book of another date, a submission joins one date exactly when it finds no maker. */
  lemma {:induction false} OtherDate(w: World, maxAge: real, mv: Move, dates: Dates, d: int, date: int)
    requires WorldOk(w) && mv.DoSubmit? && CanMove(w, maxAge, mv) && d != date
    requires forall id | id in AllIds(w.core) :: id in dates && dates[id] == d
    requires mv.order.orderId in dates && dates[mv.order.orderId] == date
    ensures SameDates(dates, MatchIn(AfterExpiry(w, mv).core, mv.order).trades) <==> !Finds(w, maxAge, mv.order, mv.now)
  {
    hide WorldOk, CoreOk, AllIds, AfterExpiry, MatchIn, Finds;
    var c, order := AfterExpiry(w, mv).core, mv.order;
    var ts := MatchIn(c, order).trades;
    TradesIfFound(w, maxAge, mv);
    CleanAfterExpiry(w, maxAge, mv);
    if ts != [] {
      TradeParties(c, order, 0);
      assert ts[0] in ts;
      var m := c.Resting(order.side.Opposite())[0].order.orderId;
      assert m in {ts[0].buyOrderId, ts[0].sellOrderId} && order.orderId in {ts[0].buyOrderId, ts[0].sellOrderId};
    }
  }
}

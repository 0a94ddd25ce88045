/**
 Whole runs of one book: whatever is submitted, canceled or asked, at whatever
 non-decreasing times, the book is never crossed, quantity is conserved, and
 every order is reported closed at most once.
 */
module BookRuns {
  import opened OrderTypes
  import opened ListBook
  import opened BookSpec
  import opened MatchFacts
  import opened BookFacts

  /** One request, with the times it read and the order in which expiries were reported. */
  datatype Move =
    | DoSubmit(order: Order, now: real, later: real, gone: seq<OrderId>)
    | DoCancel(id: OrderId, now: real, gone: seq<OrderId>)
    | DoLook(now: real, gone: seq<OrderId>)

  /** Quantities added up along a run. */
  datatype Tally = Tally(submitted: int, traded: int, canceled: int, expired: int)

  datatype World = World(
    core: Core, ages: map<OrderId, real>, clock: real, notices: seq<Notice>, used: set<OrderId>, tally: Tally,
    removals: nat)   // orders canceled or expired

  ghost function Start(clock: real): World {
    World(EMPTY, map[], clock, [], {}, Tally(0, 0, 0, 0), 0)
  }

  ghost function TooOld(ages: map<OrderId, real>, maxAge: real, now: real): set<OrderId> {
    if maxAge == 0.0 then {} else set id | id in ages && now - ages[id] >= maxAge
  }

  /** The orders of `l` whose ids are in `ids`. */
  function Only(l: seq<OpenOrder>, ids: set<OrderId>): seq<OpenOrder> {
    if l == [] then [] else (if l[0].order.orderId in ids then [l[0]] else []) + Only(l[1..], ids)
  }

  function Quantity(c: Core): int {
    Total(c.bids) + Total(c.asks)
  }

  function QuantityOf(c: Core, ids: set<OrderId>): int {
    Total(Only(c.bids, ids)) + Total(Only(c.asks, ids))
  }

  // ----- One move -----

  ghost predicate CanMove(w: World, maxAge: real, mv: Move) {
    && w.clock <= mv.now && Distinct(mv.gone) && IdSet(mv.gone) == TooOld(w.ages, maxAge, mv.now)
    && (mv.DoSubmit? ==> mv.now <= mv.later && mv.order.Valid() && mv.order.orderId !in w.used)
  }

  ghost function AfterExpiry(w: World, mv: Move): World {
    var ids := IdSet(mv.gone);
    w.(core := Forget(w.core, ids), ages := w.ages - ids, clock := mv.now,
       notices := w.notices + Expiries(mv.gone),
       tally := w.tally.(expired := w.tally.expired + QuantityOf(w.core, ids)),
       removals := w.removals + |mv.gone|)
  }

  ghost function AfterSubmit(w: World, maxAge: real, capacity: nat, order: Order, later: real): World {
    var m := MatchIn(w.core, order);
    w.(core := Submit(w.core, order, capacity),
       ages := AgesAfter(w.ages, m, order.orderId, if maxAge == 0.0 then 0.0 else later), clock := later,
       notices := w.notices + Fills(m.filled) + (if m.remaining == 0 then [] else [Rested(order.orderId)]),
       used := w.used + {order.orderId},
       tally := w.tally.(submitted := w.tally.submitted + order.quantity, traded := w.tally.traded + Traded(m.trades)))
  }

  ghost function AfterCancel(w: World, id: OrderId): World {
    w.(core := Cancel(w.core, id), ages := w.ages - {id},
       tally := w.tally.(canceled := w.tally.canceled
         + match Find(w.core, id) case Some(o) => o.remaining case None => 0),
       removals := w.removals + if Find(w.core, id).Some? then 1 else 0)
  }

  ghost function Moved(w: World, maxAge: real, capacity: nat, mv: Move): World {
    var e := AfterExpiry(w, mv);
    match mv
    case DoSubmit(order, now, later, gone) => AfterSubmit(e, maxAge, capacity, order, later)
    case DoCancel(id, now, gone) => AfterCancel(e, id)
    case DoLook(now, gone) => e
  }

  // ----- What holds along every run -----

  /** Best bid strictly below best ask, and so for every pair. */
  ghost predicate Uncrossed(c: Core) {
    forall b, a | b in c.bids && a in c.asks :: b.order.price < a.order.price
  }

  ghost predicate Conserved(w: World) {
    w.tally.submitted == 2 * w.tally.traded + Quantity(w.core) + w.tally.canceled + w.tally.expired
  }

  /** No id is reported closed twice, and a closed id neither rests nor is free to be used again. */
  ghost predicate ClosedOnce(w: World) {
    && (forall i, j | 0 <= i < j < |w.notices| && w.notices[i].Closed? && w.notices[j].Closed? ::
       w.notices[i].id != w.notices[j].id)
    && (forall n | n in w.notices && n.Closed? :: n.id in w.used && n.id !in AllIds(w.core))
  }

  ghost predicate WorldOk(w: World) {
    && CoreOk(w.core) && Uncrossed(w.core) && Conserved(w) && ClosedOnce(w)
    && w.ages.Keys == AllIds(w.core) && AllIds(w.core) <= w.used
  }

  // ----- Expiry -----

  lemma {:induction false} TotalSplits(l: seq<OpenOrder>, ids: set<OrderId>)
    ensures Total(l) == Total(Without(l, ids)) + Total(Only(l, ids))
  {
    if l != [] {
      TotalSplits(l[1..], ids);
      TotalConcat(if l[0].order.orderId in ids then [] else [l[0]], Without(l[1..], ids));
      TotalConcat(if l[0].order.orderId in ids then [l[0]] else [], Only(l[1..], ids));
    }
  }

  /** Reporting a list of distinct, still resting ids keeps every close unique. */
  lemma {:induction false} CloseMore(w: World, w': World, ids: seq<OrderId>, more: seq<Notice>)
    requires ClosedOnce(w) && AllIds(w.core) <= w.used <= w'.used && Distinct(ids)
    requires IdSet(ids) <= AllIds(w.core) && AllIds(w'.core) !! IdSet(ids)
    requires forall id | id in AllIds(w'.core) :: id in AllIds(w.core) || id !in w.used
    requires |more| == |ids| && forall i | 0 <= i < |ids| :: more[i].Closed? && more[i].id == ids[i]
    requires w'.notices == w.notices + more
    ensures ClosedOnce(w')
  {
    var ns := w'.notices;
    forall i, j | 0 <= i < j < |ns| && ns[i].Closed? && ns[j].Closed?
      ensures ns[i].id != ns[j].id
    {
      if j >= |w.notices| {
        var id := ids[j - |w.notices|];
        assert ns[j] == more[j - |w.notices|] && id in ids && id in IdSet(ids);
        if i < |w.notices| {
          assert ns[i] in w.notices;
        } else {
          assert ns[i] == more[i - |w.notices|];
        }
      }
    }
    forall n | n in ns && n.Closed?
      ensures n.id in w'.used && n.id !in AllIds(w'.core)
    {
      if n !in w.notices {
        var i :| 0 <= i < |more| && more[i] == n;
        assert ids[i] in ids && ids[i] in IdSet(ids);
      }
    }
  }

  lemma {:induction false} ExpiryKeeps(w: World, maxAge: real, mv: Move)
    requires WorldOk(w) && CanMove(w, maxAge, mv)
    ensures WorldOk(AfterExpiry(w, mv))
  {
    hide CoreOk, Distinct, IdSet, ClosedOnce;
    var ids := IdSet(mv.gone);
    ForgetOk(w.core, ids);
    TotalSplits(w.core.bids, ids);
    TotalSplits(w.core.asks, ids);
    WithoutKeeps(w.core.bids, ids);
    WithoutKeeps(w.core.asks, ids);
    CloseMore(w, AfterExpiry(w, mv), mv.gone, Expiries(mv.gone));
  }

  // ----- Submission -----

  /** Whatever is left after matching is one of the old orders, perhaps reduced. */
  lemma {:induction false} LeftFrom(taker: Order, makers: seq<OpenOrder>, m: Matching)
    requires TakesPrefix(taker, makers, m)
    ensures forall x | x in m.left :: exists y :: y in makers && y.order == x.order
  {
    forall x | x in m.left
      ensures exists y :: y in makers && y.order == x.order
    {
      var i :| 0 <= i < |m.left| && m.left[i] == x;
      assert makers[|m.filled| + i] in makers;
    }
  }

  /** A resting remainder means no crossing maker is left anywhere in the list. */
  lemma {:induction false} NothingCrosses(taker: Order, side: Side, left: seq<OpenOrder>)
    requires taker.side == side.Opposite() && Sorted(left) && forall o | o in left :: o.order.side == side
    requires left == [] || !Crosses(taker, left[0].order)
    ensures forall o | o in left :: !Crosses(taker, o.order)
  {
    forall o | o in left
      ensures !Crosses(taker, o.order)
    {
      var i :| 0 <= i < |left| && left[i] == o;
      if i > 0 {
        assert Precedes(left[0], left[i]);
      }
      assert left[0].order.side == side;
    }
  }

  lemma {:induction false} MatchedUncrossed(c: Core, order: Order)
    requires CoreOk(c) && Uncrossed(c) && order.Valid()
    ensures var m := MatchIn(c, order);
            var side := order.side.Opposite();
            && Uncrossed(c.With(side, m.left))
            && (m.remaining > 0 ==> forall o | o in m.left :: !Crosses(order, o.order))
            && (forall o | o in m.left :: o.order.side == side)
  {
    var side := order.side.Opposite();
    var makers := c.Resting(side);
    var m := MatchIn(c, order);
    MakersPositive(side, makers, c.sequence);
    MatchTakesPrefix(order, order.quantity, makers);
    LeftFrom(order, makers, m);
    MatchOk(order, order.quantity, side, makers, c.sequence);
    MatchConserves(order, order.quantity, makers);
    if m.remaining > 0 {
      NothingCrosses(order, side, m.left);
    }
  }

  lemma {:induction false} SubmitUncrossed(c: Core, order: Order, capacity: nat)
    requires CoreOk(c) && Uncrossed(c) && order.Valid()
    ensures Uncrossed(Submit(c, order, capacity))
  {
    hide CoreOk, Match, InsertSorted;
    MatchedUncrossed(c, order);
    var side := order.side.Opposite();
    var m := MatchIn(c, order);
    var c1 := c.With(side, m.left);
    MatchConservesIn(c, order);
    if m.remaining != 0 {
      InsertMembers(c1.Resting(order.side), OpenOrder(order, m.remaining, c1.sequence + 1));
    }
  }

  lemma {:induction false} MatchConservesIn(c: Core, order: Order)
    requires CoreOk(c) && order.Valid()
    ensures var m := MatchIn(c, order);
            && 0 <= m.remaining && order.quantity == m.remaining + Traded(m.trades)
            && Total(c.Resting(order.side.Opposite())) == Total(m.left) + Traded(m.trades)
  {
    MakersPositive(order.side.Opposite(), c.Resting(order.side.Opposite()), c.sequence);
    MatchConserves(order, order.quantity, c.Resting(order.side.Opposite()));
  }

  /** What a trade takes from the taker it also takes from the makers. */
  lemma {:induction false} SubmitQuantity(c: Core, order: Order, capacity: nat)
    requires CoreOk(c) && order.Valid() && order.orderId !in AllIds(c)
    ensures Quantity(Submit(c, order, capacity)) + 2 * Traded(MatchIn(c, order).trades) == Quantity(c) + order.quantity
  {
    hide Match, InsertSorted, Total, SideListOk;
    MatchConservesIn(c, order);
    var m := MatchIn(c, order);
    if m.remaining != 0 {
      var l := c.With(order.side.Opposite(), m.left).Resting(order.side);
      assert l == c.Resting(order.side);
      InsertOk(order.side, l, OpenOrder(order, m.remaining, c.sequence + 1), c.sequence);
    }
  }

  /** The filled makers are different orders. */
  lemma {:induction false} FilledDistinct(c: Core, order: Order)
    requires CoreOk(c) && order.Valid()
    ensures Distinct(MatchIn(c, order).filled)
  {
    var makers := c.Resting(order.side.Opposite());
    MakersPositive(order.side.Opposite(), makers, c.sequence);
    MatchTakesPrefix(order, order.quantity, makers);
  }

  lemma {:induction false} SubmitKeeps(w: World, maxAge: real, capacity: nat, order: Order, later: real)
    requires WorldOk(w) && order.Valid() && order.orderId !in w.used
    ensures WorldOk(AfterSubmit(w, maxAge, capacity, order, later))
  {
    hide CoreOk, Match, Submit, IdSet, Distinct, ClosedOnce, Quantity, Uncrossed, Fills;
    var m := MatchIn(w.core, order);
    var w' := AfterSubmit(w, maxAge, capacity, order, later);
    SubmitOk(w.core, order, capacity);
    SubmitUncrossed(w.core, order, capacity);
    SubmitQuantity(w.core, order, capacity);
    FilledDistinct(w.core, order);
    var closed := w'.(notices := w.notices + Fills(m.filled));
    FillsClose(m.filled);
    CloseMore(w, closed, m.filled, Fills(m.filled));
    if m.remaining != 0 {
      RestedIsFine(closed, w', Rested(order.orderId));
    } else {
      assert w'.notices == closed.notices;
    }
    assert w'.ages.Keys == IdsAfterSubmit(w.core, order);
  }

  lemma {:induction false} FillsClose(ids: seq<OrderId>)
    ensures |Fills(ids)| == |ids| && forall i | 0 <= i < |ids| :: Fills(ids)[i].Closed? && Fills(ids)[i].id == ids[i]
  {
  }

  lemma {:induction false} RestedIsFine(w: World, w': World, n: Notice)
    requires ClosedOnce(w) && n.Rested? && w'.notices == w.notices + [n]
    requires w'.core == w.core && w'.used == w.used
    ensures ClosedOnce(w')
  {
  }

  // ----- Cancel -----

  lemma {:induction false} CancelQuantity(c: Core, id: OrderId)
    requires CoreOk(c)
    ensures Quantity(Cancel(c, id)) == Quantity(c) - match Find(c, id) case Some(o) => o.remaining case None => 0
  {
    match IndexOf(c.bids, id)
    case Some(i) => RemovedTotal(c.bids, i);
    case None =>
      match IndexOf(c.asks, id)
      case Some(i) => RemovedTotal(c.asks, i);
      case None =>
  }

  lemma {:induction false} ForgetUncrossed(c: Core, ids: set<OrderId>)
    requires Uncrossed(c)
    ensures Uncrossed(Forget(c, ids))
  {
    WithoutKeeps(c.bids, ids);
    WithoutKeeps(c.asks, ids);
  }

  /** Nothing is reported, and no id is added. */
  lemma {:induction false} QuietlyClosed(w: World, w': World)
    requires ClosedOnce(w) && w'.notices == w.notices && w'.used == w.used && AllIds(w'.core) <= AllIds(w.core)
    ensures ClosedOnce(w')
  {
    hide AllIds;
  }

  lemma {:induction false} CancelKeeps(w: World, id: OrderId)
    requires WorldOk(w)
    ensures WorldOk(AfterCancel(w, id))
  {
    hide CoreOk, Find, Cancel, Uncrossed, ClosedOnce, AllIds, Quantity;
    CancelOk(w.core, id);
    CancelQuantity(w.core, id);
    CancelIsForget(w.core, id);
    ForgetUncrossed(w.core, {id});
    QuietlyClosed(w, AfterCancel(w, id));
  }

  // ----- Runs -----

  lemma {:induction false} MoveKeeps(w: World, maxAge: real, capacity: nat, mv: Move)
    requires WorldOk(w) && CanMove(w, maxAge, mv)
    ensures WorldOk(Moved(w, maxAge, capacity, mv))
  {
    hide WorldOk;
    ExpiryKeeps(w, maxAge, mv);
    var e := AfterExpiry(w, mv);
    match mv
    case DoSubmit(order, now, later, gone) => SubmitKeeps(e, maxAge, capacity, order, later);
    case DoCancel(id, now, gone) => CancelKeeps(e, id);
    case DoLook(now, gone) =>
  }

  /** The worlds a run passes through; `None` once a move was not possible. */
  ghost function Ran(maxAge: real, capacity: nat, w: World, moves: seq<Move>): Option<World>
    decreases |moves|
  {
    if moves == [] then Some(w)
    else if !CanMove(w, maxAge, moves[0]) then None
    else Ran(maxAge, capacity, Moved(w, maxAge, capacity, moves[0]), moves[1..])
  }

  /** Every state of every run is uncrossed, conserves quantity and has closed no order twice. */
  lemma {:induction false} RunKeeps(maxAge: real, capacity: nat, w: World, moves: seq<Move>)
    requires WorldOk(w) && Ran(maxAge, capacity, w, moves).Some?
    ensures WorldOk(Ran(maxAge, capacity, w, moves).value)
    decreases |moves|
  {
    if moves != [] {
      hide WorldOk, Moved, CanMove;
      MoveKeeps(w, maxAge, capacity, moves[0]);
      RunKeeps(maxAge, capacity, Moved(w, maxAge, capacity, moves[0]), moves[1..]);
    }
  }

  lemma {:induction false} StartOk(clock: real)
    ensures WorldOk(Start(clock))
  {
    hide CoreOk, ClosedOnce, Conserved;
    EmptyCore();
    NothingYet(Start(clock));
    NothingClosed(Start(clock));
  }

  lemma {:induction false} EmptyCore()
    ensures CoreOk(EMPTY) && AllIds(EMPTY) == {} && Uncrossed(EMPTY)
  {
  }

  lemma {:induction false} NothingYet(w: World)
    requires w.core.bids == [] && w.core.asks == [] && w.tally == Tally(0, 0, 0, 0)
    ensures Conserved(w)
  {
  }

  lemma {:induction false} NothingClosed(w: World)
    requires w.notices == []
    ensures ClosedOnce(w)
  {
  }

  /** The best prices, read off the heads of the lists. */
  lemma {:induction false} NeverCrossed(maxAge: real, capacity: nat, clock: real, moves: seq<Move>)
    requires Ran(maxAge, capacity, Start(clock), moves).Some?
    ensures var c := Ran(maxAge, capacity, Start(clock), moves).value.core;
            c.bids != [] && c.asks != [] ==> c.bids[0].order.price < c.asks[0].order.price
  {
    hide Ran, CoreOk, ClosedOnce, Conserved, AllIds, Start;
    StartOk(clock);
    RunKeeps(maxAge, capacity, Start(clock), moves);
  }

  /** A submission never trades with an order whose age has reached the limit. */
  lemma {:induction false} NoStaleTrade(w: World, maxAge: real, order: Order, mv: Move, i: nat)
    requires WorldOk(w) && maxAge > 0.0 && mv.DoSubmit? && mv.order == order && CanMove(w, maxAge, mv)
    requires i < |MatchIn(AfterExpiry(w, mv).core, order).trades|
    ensures var t := MatchIn(AfterExpiry(w, mv).core, order).trades[i];
            var maker := if order.side.BUY? then t.sellOrderId else t.buyOrderId;
            maker in w.ages && mv.now - w.ages[maker] < maxAge
  {
    hide CoreOk, ClosedOnce, Distinct, IdSet, Uncrossed, Conserved, Forget, AllIds, Match;
    ExpiryKeeps(w, maxAge, mv);
    var e := AfterExpiry(w, mv).core;
    var makers := e.Resting(order.side.Opposite());
    MakersOk(e, order.side.Opposite());
    MatchTakesPrefix(order, order.quantity, makers);
    var m := MatchIn(e, order);
    ListedIds(e, order.side.Opposite(), makers[i]);
    ForgetOk(w.core, IdSet(mv.gone));
  }

  lemma {:induction false} ListedIds(c: Core, side: Side, o: OpenOrder)
    requires o in c.Resting(side)
    ensures o.order.orderId in AllIds(c)
  {
  }

  lemma {:induction false} MakersOk(c: Core, side: Side)
    requires CoreOk(c)
    ensures Positive(c.Resting(side))
  {
  }
}

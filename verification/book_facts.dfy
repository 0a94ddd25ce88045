/** Every operation keeps the lists sorted, positive and free of duplicate ids, and says which ids rest afterwards. */
module BookFacts {
  import opened OrderTypes
  import opened ListBook
  import opened BookSpec
  import opened MatchFacts

  ghost function IdSet(ids: seq<OrderId>): set<OrderId> {
    set x | x in ids
  }

  // ----- What a call reports, and resting times -----

  ghost predicate Distinct(ids: seq<OrderId>) {
    forall i, j | 0 <= i < j < |ids| :: ids[i] != ids[j]
  }

  ghost function Expiries(ids: seq<OrderId>): seq<Notice> {
    seq(|ids|, i requires 0 <= i < |ids| => Closed(ids[i], Expired))
  }

  ghost function Fills(ids: seq<OrderId>): seq<Notice> {
    seq(|ids|, i requires 0 <= i < |ids| => Closed(ids[i], Filled))
  }

  /** Resting times once the filled makers have left and the taker may have rested. */
  ghost function AgesAfter(ages: map<OrderId, real>, m: Matching, id: OrderId, now: real): map<OrderId, real> {
    var left := ages - IdSet(m.filled);
    if m.remaining == 0 then left else left[id := now]
  }

  lemma {:induction false} InsertOk(side: Side, l: seq<OpenOrder>, o: OpenOrder, n: nat)
    requires SideListOk(side, l, n) && o.order.side == side && o.remaining > 0 && o.sequence == n + 1
    requires o.order.orderId !in Ids(l)
    ensures SideListOk(side, InsertSorted(l, o), n + 1)
    ensures Ids(InsertSorted(l, o)) == Ids(l) + {o.order.orderId}
    ensures Total(InsertSorted(l, o)) == Total(l) + o.remaining
  {
    var i := InsertSplits(l, o);
    var a, b := l[..i], l[i..];
    assert l == a + b;
    InsertedBetween(a, o, b);
    TotalConcat(a, b);
    TotalConcat(a + [o], b);
    TotalConcat(a, [o]);
  }

  lemma {:induction false} InsertedBetween(a: seq<OpenOrder>, o: OpenOrder, b: seq<OpenOrder>)
    requires DistinctIds(a + b) && o.order.orderId !in Ids(a + b)
    ensures DistinctIds(a + [o] + b)
    ensures Ids(a + [o] + b) == Ids(a + b) + {o.order.orderId}
    ensures forall x | x in a + [o] + b :: x == o || x in a + b
  {
    var l, r := a + b, a + [o] + b;
    assert forall x | x in l :: x.order.orderId in Ids(l);
    forall i, j | 0 <= i < j < |r|
      ensures r[i].order.orderId != r[j].order.orderId
    {
      assert i < |a| ==> r[i] == l[i] && l[i] in l;
      assert j < |a| ==> r[j] == l[j];
      assert i > |a| ==> r[i] == l[i - 1];
      assert j > |a| ==> r[j] == l[j - 1] && l[j - 1] in l;
    }
    forall x | x in l
      ensures x in r
    {
      assert x in a || x in b;
    }
  }

  /** A sub-list in the same order stays well formed. */
  lemma {:induction false} ConsOk(side: Side, l: seq<OpenOrder>, r: seq<OpenOrder>, n: nat)
    requires SideListOk(side, l, n) && l != [] && SideListOk(side, r, n)
    requires forall x | x in r :: x in l[1..]
    ensures SideListOk(side, [l[0]] + r, n)
  {
    forall j | 0 <= j < |r|
      ensures Precedes(l[0], r[j]) && l[0].order.orderId != r[j].order.orderId
    {
      assert r[j] in l[1..];
    }
  }

  lemma {:induction false} WithoutOk(side: Side, l: seq<OpenOrder>, ids: set<OrderId>, n: nat)
    requires SideListOk(side, l, n)
    ensures SideListOk(side, Without(l, ids), n)
    ensures Ids(Without(l, ids)) == Ids(l) - ids
  {
    WithoutIds(l, ids);
    if l != [] {
      hide SideListOk;
      DropOk(side, l, 1, n);
      WithoutOk(side, l[1..], ids, n);
      WithoutKeeps(l[1..], ids);
      ConsOk(side, l, Without(l[1..], ids), n);
    }
  }

  lemma {:induction false} WithoutIds(l: seq<OpenOrder>, ids: set<OrderId>)
    ensures Ids(Without(l, ids)) == Ids(l) - ids
  {
    WithoutKeeps(l, ids);
  }

  lemma {:induction false} RemoveOk(side: Side, l: seq<OpenOrder>, i: nat, n: nat)
    requires SideListOk(side, l, n) && i < |l|
    ensures SideListOk(side, RemoveAt(l, i), n)
    ensures Ids(RemoveAt(l, i)) == Ids(l) - {l[i].order.orderId}
    ensures Total(RemoveAt(l, i)) == Total(l) - l[i].remaining
  {
    RemoveIsWithout(l, i);
    WithoutOk(side, l, {l[i].order.orderId}, n);
    RemovedTotal(l, i);
  }

  lemma {:induction false} RemovedTotal(l: seq<OpenOrder>, i: nat)
    requires i < |l|
    ensures Total(RemoveAt(l, i)) == Total(l) - l[i].remaining
  {
    assert l == l[..i] + [l[i]] + l[i + 1..];
    TotalConcat(l[..i] + [l[i]], l[i + 1..]);
    TotalConcat(l[..i], [l[i]]);
    TotalConcat(l[..i], l[i + 1..]);
  }

  lemma {:induction false} ReducedIds(l: seq<OpenOrder>, left: int)
    requires l != []
    ensures Ids([l[0].(remaining := left)] + l[1..]) == Ids(l)
  {
    var r := [l[0].(remaining := left)] + l[1..];
    assert forall i | 1 <= i < |l| :: r[i] == l[i];
    forall x | x in l
      ensures x.order.orderId in Ids(r)
    {
      var i :| 0 <= i < |l| && l[i] == x;
      assert r[i] in r;
    }
    forall x | x in r
      ensures x.order.orderId in Ids(l)
    {
      var i :| 0 <= i < |l| && r[i] == x;
      assert l[i] in l;
    }
  }

  lemma {:induction false} ReduceOk(side: Side, l: seq<OpenOrder>, left: int, n: nat)
    requires SideListOk(side, l, n) && l != [] && left > 0
    ensures SideListOk(side, [l[0].(remaining := left)] + l[1..], n)
    ensures Ids([l[0].(remaining := left)] + l[1..]) == Ids(l)
  {
    var r := [l[0].(remaining := left)] + l[1..];
    assert forall i | 0 <= i < |l| :: r[i].order == l[i].order && r[i].sequence == l[i].sequence;
    assert forall i | 1 <= i < |l| :: r[i] == l[i];
    ReducedIds(l, left);
  }

  lemma {:induction false} DropOk(side: Side, l: seq<OpenOrder>, k: nat, n: nat)
    requires SideListOk(side, l, n) && k <= |l|
    ensures SideListOk(side, l[k..], n)
    ensures Ids(l[k..]) == Ids(l) - Ids(l[..k])
  {
    assert l == l[..k] + l[k..];
  }

  /** Matching leaves a well-formed list without the filled ids. */
  lemma {:induction false} MatchOk(taker: Order, remaining: int, side: Side, makers: seq<OpenOrder>, n: nat)
    requires remaining >= 0 && SideListOk(side, makers, n)
    ensures var m := Match(taker, remaining, makers);
            && SideListOk(side, m.left, n)
            && Ids(m.left) == Ids(makers) - IdSet(m.filled)
            && IdSet(m.filled) <= Ids(makers)
  {
    hide SideListOk;
    MakersPositive(side, makers, n);
    MatchTakesPrefix(taker, remaining, makers);
    var m := Match(taker, remaining, makers);
    var k := |m.filled|;
    DropOk(side, makers, k, n);
    FilledIds(makers, m.filled);
    if |m.trades| != k {
      var rest := makers[k..];
      assert rest[1..] == makers[k + 1..];
      ReduceOk(side, rest, makers[k].remaining - m.trades[k].quantity, n);
    }
  }

  lemma {:induction false} MakersPositive(side: Side, makers: seq<OpenOrder>, n: nat)
    requires SideListOk(side, makers, n)
    ensures Positive(makers)
  {
  }

  lemma {:induction false} FilledIds(makers: seq<OpenOrder>, filled: seq<OrderId>)
    requires |filled| <= |makers| && forall i | 0 <= i < |filled| :: filled[i] == makers[i].order.orderId
    ensures IdSet(filled) == Ids(makers[..|filled|])
  {
    var a := makers[..|filled|];
    forall x | x in filled
      ensures x in Ids(a)
    {
      var i :| 0 <= i < |filled| && filled[i] == x;
      assert a[i] in a;
    }
    forall o | o in a
      ensures o.order.orderId in filled
    {
      var i :| 0 <= i < |a| && a[i] == o;
      assert filled[i] == o.order.orderId;
    }
  }

  // ----- Whole operations -----

  /** The ids a submission takes out of the book, and the one it may put in. */
  ghost function IdsAfterSubmit(c: Core, order: Order): set<OrderId> {
    var m := MatchIn(c, order);
    AllIds(c) - IdSet(m.filled) + if m.remaining == 0 then {} else {order.orderId}
  }

  lemma {:induction false} OlderIsFine(side: Side, l: seq<OpenOrder>, n: nat)
    requires SideListOk(side, l, n)
    ensures SideListOk(side, l, n + 1)
  {
  }

  lemma {:induction false} RestOk(c: Core, order: Order, remaining: int)
    requires CoreOk(c) && remaining > 0 && order.orderId !in AllIds(c)
    ensures CoreOk(Rest(c, order, remaining))
    ensures AllIds(Rest(c, order, remaining)) == AllIds(c) + {order.orderId}
  {
    hide SideListOk;
    var o := OpenOrder(order, remaining, c.sequence + 1);
    InsertOk(order.side, c.Resting(order.side), o, c.sequence);
    OlderIsFine(order.side.Opposite(), c.Resting(order.side.Opposite()), c.sequence);
  }

  lemma {:induction false} SubmitOk(c: Core, order: Order, capacity: nat)
    requires CoreOk(c) && order.Valid() && order.orderId !in AllIds(c)
    ensures CoreOk(Submit(c, order, capacity))
    ensures AllIds(Submit(c, order, capacity)) == IdsAfterSubmit(c, order)
    ensures MatchIn(c, order).remaining >= 0
    ensures IdSet(MatchIn(c, order).filled) <= AllIds(c)
  {
    hide SideListOk, Match, InsertSorted;
    var side := order.side.Opposite();
    var makers := c.Resting(side);
    var m := MatchIn(c, order);
    MatchOk(order, order.quantity, side, makers, c.sequence);
    MakersPositive(side, makers, c.sequence);
    MatchConserves(order, order.quantity, makers);
    var c1 := c.With(side, m.left);
    assert CoreOk(c1);
    assert AllIds(c1) == AllIds(c) - IdSet(m.filled);
    if m.remaining != 0 {
      RestOk(c1, order, m.remaining);
    }
  }

  lemma {:induction false} FindById(c: Core, id: OrderId)
    ensures Find(c, id).Some? <==> id in AllIds(c)
    ensures Find(c, id).Some? ==>
              Find(c, id).value.order.orderId == id && (Find(c, id).value in c.bids || Find(c, id).value in c.asks)
  {
  }

  lemma {:induction false} CancelMissing(c: Core, id: OrderId)
    requires id !in AllIds(c)
    ensures Cancel(c, id) == c
  {
    FindById(c, id);
  }

  lemma {:induction false} CancelOk(c: Core, id: OrderId)
    requires CoreOk(c)
    ensures CoreOk(Cancel(c, id)) && AllIds(Cancel(c, id)) == AllIds(c) - {id}
  {
    hide SideListOk;
    match IndexOf(c.bids, id)
    case Some(i) =>
      RemoveOk(BUY, c.bids, i, c.sequence);
      assert c.bids[i] in c.bids;
      assert id in Ids(c.bids);
    case None =>
      assert id !in Ids(c.bids);
      match IndexOf(c.asks, id)
      case Some(i) =>
        RemoveOk(SELL, c.asks, i, c.sequence);
      case None =>
        assert id !in Ids(c.asks);
  }

  /** Taking one order out of its list is forgetting its id. */
  lemma {:induction false} RemoveIsForget(c: Core, side: Side, n: nat)
    requires CoreOk(c) && n < |c.Resting(side)|
    ensures c.With(side, RemoveAt(c.Resting(side), n)) == Forget(c, {c.Resting(side)[n].order.orderId})
  {
    var l, other := c.Resting(side), c.Resting(side.Opposite());
    RemoveIsWithout(l, n);
    assert l[n].order.orderId in Ids(l);
    assert forall o | o in other :: o.order.orderId in Ids(other);
    WithoutNothing(other, {l[n].order.orderId});
  }

  /** Cancelling one resting order is forgetting its id. */
  lemma {:induction false} CancelIsForget(c: Core, id: OrderId)
    requires CoreOk(c)
    ensures Cancel(c, id) == Forget(c, {id})
  {
    match IndexOf(c.bids, id)
    case Some(i) =>
      RemoveIsWithout(c.bids, i);
      assert c.bids[i] in c.bids && id in Ids(c.bids);
      assert forall o | o in c.asks :: o.order.orderId in Ids(c.asks);
      WithoutNothing(c.asks, {id});
    case None =>
      WithoutNothing(c.bids, {id});
      match IndexOf(c.asks, id)
      case Some(i) =>
        RemoveIsWithout(c.asks, i);
      case None =>
        WithoutNothing(c.asks, {id});
  }

  lemma {:induction false} ForgetOk(c: Core, ids: set<OrderId>)
    requires CoreOk(c)
    ensures CoreOk(Forget(c, ids)) && AllIds(Forget(c, ids)) == AllIds(c) - ids
  {
    hide SideListOk;
    WithoutOk(BUY, c.bids, ids, c.sequence);
    WithoutOk(SELL, c.asks, ids, c.sequence);
  }

  /** With distinct ids, a listed order is the one its id finds. */
  lemma {:induction false} FindListed(c: Core, o: OpenOrder)
    requires CoreOk(c) && (o in c.bids || o in c.asks)
    ensures Find(c, o.order.orderId) == Some(o)
  {
    var id := o.order.orderId;
    if o in c.asks {
      assert id in Ids(c.asks);
      assert forall x | x in c.bids :: x.order.orderId in Ids(c.bids);
    }
  }

  lemma {:induction false} ForgetNothing(c: Core)
    ensures Forget(c, {}) == c
  {
    WithoutNothing(c.bids, {});
    WithoutNothing(c.asks, {});
  }

  lemma {:induction false} ForgetTwice(c: Core, a: set<OrderId>, b: set<OrderId>)
    ensures Forget(Forget(c, a), b) == Forget(c, a + b)
  {
    WithoutTwice(c.bids, a, b);
    WithoutTwice(c.asks, a, b);
  }

  /** One round of the matching loop. */
  lemma {:induction false} MatchStep(taker: Order, remaining: int, makers: seq<OpenOrder>)
    requires remaining != 0 && makers != [] && Crosses(taker, makers[0].order)
    ensures var maker := makers[0];
            var matched := Min(remaining, maker.remaining);
            var makers' := (if matched == maker.remaining then [] else [maker.(remaining := maker.remaining - matched)])
              + makers[1..];
            var m, m' := Match(taker, remaining, makers), Match(taker, remaining - matched, makers');
            && m.trades == [TradeOf(taker, maker.order, matched)] + m'.trades
            && m.filled == (if matched == maker.remaining then [maker.order.orderId] else []) + m'.filled
            && m.remaining == m'.remaining && m.left == m'.left
            && (matched != maker.remaining ==> remaining - matched == 0)
  {
    var maker := makers[0];
    var reduced := maker.(remaining := maker.remaining - Min(remaining, maker.remaining));
    assert makers[0 := reduced] == [reduced] + makers[1..];
    assert [] + makers[1..] == makers[1..];
  }

  lemma {:induction false} MatchDone(taker: Order, remaining: int, makers: seq<OpenOrder>)
    requires remaining == 0 || makers == [] || !Crosses(taker, makers[0].order)
    ensures Match(taker, remaining, makers) == Matching([], [], remaining, makers)
  {
  }

  /** After matching, both lists are still sorted. */
  lemma {:induction false} MatchedListOk(c: Core, order: Order)
    requires CoreOk(c) && order.Valid()
    ensures Sorted(c.With(order.side.Opposite(), MatchIn(c, order).left).Resting(order.side))
  {
  }
}

/**
 What matching promises: the makers of one submission are a prefix of the
 opposing list, each at its own price, all but the last filled whole.
 */
module MatchFacts {
  import opened OrderTypes
  import opened ListBook
  import opened BookSpec

  function Traded(trades: seq<Trade>): int {
    if trades == [] then 0 else trades[0].quantity + Traded(trades[1..])
  }

  lemma {:induction false} TradedConcat(a: seq<Trade>, b: seq<Trade>)
    ensures Traded(a + b) == Traded(a) + Traded(b)
  {
    if a == [] {
      assert a + b == b;
    } else {
      assert (a + b)[1..] == a[1..] + b;
      TradedConcat(a[1..], b);
    }
  }

  ghost predicate Positive(l: seq<OpenOrder>) {
    forall o | o in l :: o.remaining > 0
  }

  /** The last maker was only reduced. */
  ghost predicate Partial(m: Matching) {
    |m.trades| == |m.filled| + 1
  }

  /** Makers come off the front in order, whole, except perhaps the last one traded with. */
  ghost predicate TakesPrefix(taker: Order, makers: seq<OpenOrder>, m: Matching) {
    var k := |m.filled|;
    && k <= |makers| && (|m.trades| == k || (Partial(m) && k < |makers|))
    && (forall i | 0 <= i < k ::
       m.filled[i] == makers[i].order.orderId && m.trades[i] == TradeOf(taker, makers[i].order, makers[i].remaining))
    && (forall i | 0 <= i < |m.trades| :: Crosses(taker, makers[i].order))
    && (if |m.trades| == k then m.left == makers[k..]
        else
          var q := m.trades[k].quantity;
          && 0 < q < makers[k].remaining && m.trades[k] == TradeOf(taker, makers[k].order, q)
          && m.left == [makers[k].(remaining := makers[k].remaining - q)] + makers[k + 1..]
          && m.remaining == 0)
  }

  lemma {:induction false} MatchTakesPrefix(taker: Order, remaining: int, makers: seq<OpenOrder>)
    requires remaining >= 0 && Positive(makers)
    ensures TakesPrefix(taker, makers, Match(taker, remaining, makers))
    decreases |makers|
  {
    var m := Match(taker, remaining, makers);
    if remaining != 0 && makers != [] && Crosses(taker, makers[0].order) {
      var maker := makers[0];
      var matched := Min(remaining, maker.remaining);
      if matched == maker.remaining {
        MatchTakesPrefix(taker, remaining - matched, makers[1..]);
        PrefixStep(taker, makers, m, Match(taker, remaining - matched, makers[1..]));
      }
    }
  }

  lemma {:induction false} PrefixStep(taker: Order, makers: seq<OpenOrder>, m: Matching, rest: Matching)
    requires makers != [] && TakesPrefix(taker, makers[1..], rest) && Crosses(taker, makers[0].order)
    requires m == Matching([TradeOf(taker, makers[0].order, makers[0].remaining)] + rest.trades,
                           [makers[0].order.orderId] + rest.filled, rest.remaining, rest.left)
    ensures TakesPrefix(taker, makers, m)
  {
    var k := |m.filled|;
    forall i | 0 <= i < k
      ensures m.filled[i] == makers[i].order.orderId
      ensures m.trades[i] == TradeOf(taker, makers[i].order, makers[i].remaining)
    {
      if i > 0 {
        assert m.filled[i] == rest.filled[i - 1] && m.trades[i] == rest.trades[i - 1]
          && makers[i] == makers[1..][i - 1];
      }
    }
    forall i | 0 <= i < |m.trades|
      ensures Crosses(taker, makers[i].order)
    {
      if i > 0 {
        assert makers[i] == makers[1..][i - 1];
      }
    }
    assert makers[1..][k - 1..] == makers[k..];
    if Partial(rest) {
      assert makers[1..][k..] == makers[k + 1..];
    }
  }

  /** Quantity leaves the taker and the makers together, in positive trades, and stops only at a boundary. */
  lemma {:induction false} MatchConserves(taker: Order, remaining: int, makers: seq<OpenOrder>)
    requires remaining >= 0 && Positive(makers)
    ensures var m := Match(taker, remaining, makers);
            && 0 <= m.remaining && remaining == m.remaining + Traded(m.trades)
            && Total(makers) == Total(m.left) + Traded(m.trades)
            && (m.remaining > 0 ==> m.left == [] || !Crosses(taker, m.left[0].order))
            && (forall t | t in m.trades :: t.quantity > 0)
    decreases |makers|
  {
    if remaining != 0 && makers != [] && Crosses(taker, makers[0].order) {
      var m := Match(taker, remaining, makers);
      var matched := Min(remaining, makers[0].remaining);
      assert m.trades[0].quantity == matched;
      if matched == makers[0].remaining {
        MatchConserves(taker, remaining - matched, makers[1..]);
        assert m.trades[1..] == Match(taker, remaining - matched, makers[1..]).trades;
      } else {
        assert m.left[1..] == makers[1..];
      }
    }
  }

  // ----- Whom a submission trades with -----

  /** Crossing orders come before the others. */
  ghost predicate CrossingFirst(taker: Order, makers: seq<OpenOrder>) {
    forall i, j | 0 <= i < j < |makers| && Crosses(taker, makers[j].order) :: Crosses(taker, makers[i].order)
  }

  /** The i-th maker crosses, and those before it are not enough. */
  ghost predicate Reaches(taker: Order, remaining: int, makers: seq<OpenOrder>, i: nat) {
    i < |makers| && Crosses(taker, makers[i].order) && Total(makers[..i]) < remaining
  }

  lemma {:induction false} TotalPositive(l: seq<OpenOrder>)
    requires Positive(l)
    ensures Total(l) >= 0
  {
    if l != [] {
      TotalPositive(l[1..]);
    }
  }

  /** A submission trades with exactly the makers it reaches. */
  lemma {:induction false} TradesWithReached(taker: Order, remaining: int, makers: seq<OpenOrder>, i: nat)
    requires remaining >= 0 && Positive(makers) && CrossingFirst(taker, makers)
    ensures i < |Match(taker, remaining, makers).trades| <==> Reaches(taker, remaining, makers, i)
    decreases |makers|
  {
    if i > 0 && i < |makers| {
      TotalPositive(makers[1..i]);
      assert makers[..i][1..] == makers[1..i];
    }
    if remaining != 0 && makers != [] && Crosses(taker, makers[0].order) {
      var matched := Min(remaining, makers[0].remaining);
      if matched == makers[0].remaining {
        if i > 0 {
          TradesWithReached(taker, remaining - matched, makers[1..], i - 1);
          if i < |makers| {
            assert makers[1..][..i - 1] == makers[1..i];
          }
        }
      }
    }
  }
}

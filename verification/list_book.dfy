/**
 The order book as a pair of sorted lists: the meaning that both the list-based
 oracle and the price-level book are proved against.
 */
module ListBook {
  import opened OrderTypes

  /** Bids sort by descending price and asks by ascending price. */
  function Key(side: Side, price: int): int {
    if side.BUY? then -price else price
  }

  function KeyOf(o: OpenOrder): int {
    Key(o.order.side, o.order.price)
  }

  /** The order in which resting orders are matched: by price key, and by sequence at the same key. */
  predicate Precedes(a: OpenOrder, b: OpenOrder) {
    KeyOf(a) < KeyOf(b) || (KeyOf(a) == KeyOf(b) && a.sequence < b.sequence)
  }

  ghost predicate Sorted(l: seq<OpenOrder>) {
    forall i, j | 0 <= i < j < |l| :: Precedes(l[i], l[j])
  }

  ghost predicate DistinctIds(l: seq<OpenOrder>) {
    forall i, j | 0 <= i < j < |l| :: l[i].order.orderId != l[j].order.orderId
  }

  ghost function Ids(l: seq<OpenOrder>): set<OrderId> {
    set o | o in l :: o.order.orderId
  }

  // ----- Insertion -----

  function InsertSorted(l: seq<OpenOrder>, o: OpenOrder): seq<OpenOrder> {
    if l == [] || Precedes(o, l[0]) then [o] + l
    else [l[0]] + InsertSorted(l[1..], o)
  }

  /** `list.sort` with the key (signed price, sequence). */
  function SortOrders(l: seq<OpenOrder>): seq<OpenOrder> {
    if l == [] then [] else InsertSorted(SortOrders(l[..|l| - 1]), l[|l| - 1])
  }

  /** The insertion point is found by priority alone. */
  lemma {:induction false} InsertSortedAt(a: seq<OpenOrder>, b: seq<OpenOrder>, o: OpenOrder)
    requires forall x | x in a :: !Precedes(o, x)
    requires b != [] ==> Precedes(o, b[0])
    ensures InsertSorted(a + b, o) == a + [o] + b
  {
    hide Precedes;
    if a == [] {
      assert a + b == b;
    } else {
      InsertSortedAt(a[1..], b, o);
      assert (a + b)[1..] == a[1..] + b;
      assert a + [o] + b == [a[0]] + (a[1..] + [o] + b);
    }
  }

  /** An order goes behind the better prices and its own price's queue, ahead of the rest. */
  lemma {:induction false} InsertBehindQueue(a: seq<OpenOrder>, q: seq<OpenOrder>, b: seq<OpenOrder>, o: OpenOrder)
    requires forall x | x in a :: KeyOf(x) < KeyOf(o)
    requires forall x | x in q :: KeyOf(x) == KeyOf(o) && x.sequence < o.sequence
    requires forall x | x in b :: KeyOf(x) > KeyOf(o)
    ensures InsertSorted(a + q + b, o) == a + (q + [o]) + b
  {
    InsertSortedAt(a + q, b, o);
    assert a + q + [o] + b == a + (q + [o]) + b;
  }

  /** Sorting an already sorted list changes nothing. */
  lemma {:induction false} SortSorted(l: seq<OpenOrder>)
    requires Sorted(l)
    ensures SortOrders(l) == l
  {
    if l != [] {
      var a, o := l[..|l| - 1], l[|l| - 1];
      SortSorted(a);
      InsertSortedAt(a, [], o);
      assert a + [] == a && a + [o] + [] == l;
    }
  }

  /** So appending to a sorted list and sorting is one insertion. */
  lemma {:induction false} SortAppended(l: seq<OpenOrder>, o: OpenOrder)
    requires Sorted(l)
    ensures SortOrders(l + [o]) == InsertSorted(l, o)
  {
    SortSorted(l);
    assert (l + [o])[..|l|] == l;
  }

  lemma {:induction false} InsertMembers(l: seq<OpenOrder>, o: OpenOrder)
    ensures forall x :: x in InsertSorted(l, o) <==> x == o || x in l
  {
    hide Precedes;
    if l != [] && !Precedes(o, l[0]) {
      InsertMembers(l[1..], o);
      assert forall x :: x in l <==> x == l[0] || x in l[1..];
    }
  }

  lemma {:induction false} SortedCons(o: OpenOrder, l: seq<OpenOrder>)
    requires Sorted(l) && forall x | x in l :: Precedes(o, x)
    ensures Sorted([o] + l)
  {
    hide Precedes;
  }

  lemma {:induction false} HeadPrecedes(l: seq<OpenOrder>, o: OpenOrder)
    requires Sorted(l) && l != [] && forall x | x in l :: x.sequence < o.sequence
    ensures Sorted(l[1..]) && forall x | x in l[1..] :: Precedes(l[0], x)
    ensures Precedes(o, l[0]) ==> forall x | x in l :: Precedes(o, x)
    ensures !Precedes(o, l[0]) ==> Precedes(l[0], o)
  {
  }

  /** Where a newly arrived order (larger sequence than everything resting) goes. */
  lemma {:induction false} InsertSplits(l: seq<OpenOrder>, o: OpenOrder) returns (i: nat)
    requires Sorted(l)
    requires forall x | x in l :: x.sequence < o.sequence
    ensures i <= |l|
    ensures InsertSorted(l, o) == l[..i] + [o] + l[i..]
    ensures Sorted(InsertSorted(l, o))
  {
    hide Precedes, Sorted;
    if l == [] {
      i := 0;
      NothingSorted();
      SortedCons(o, l);
      assert l[..0] + [o] + l[0..] == [o] + l;
      return;
    }
    HeadPrecedes(l, o);
    if Precedes(o, l[0]) {
      i := 0;
      SortedCons(o, l);
      assert l[..0] + [o] + l[0..] == [o] + l;
    } else {
      var j := InsertSplits(l[1..], o);
      i := j + 1;
      InsertMembers(l[1..], o);
      SortedCons(l[0], InsertSorted(l[1..], o));
      assert l[..i] + [o] + l[i..] == [l[0]] + (l[1..][..j] + [o] + l[1..][j..]);
    }
  }

  lemma {:induction false} NothingSorted()
    ensures Sorted([])
  {
  }

  // ----- Removal -----

  function RemoveAt(l: seq<OpenOrder>, i: nat): seq<OpenOrder>
    requires i < |l|
  {
    l[..i] + l[i + 1..]
  }

  /** Position of the first order with this id. */
  function IndexOf(l: seq<OpenOrder>, id: OrderId): (r: Option<nat>)
    ensures r.None? ==> forall i | 0 <= i < |l| :: l[i].order.orderId != id
    ensures r.Some? ==> r.value < |l| && l[r.value].order.orderId == id
                        && forall i | 0 <= i < r.value :: l[i].order.orderId != id
  {
    if l == [] then None
    else if l[0].order.orderId == id then Some(0)
    else match IndexOf(l[1..], id)
      case None =>
        assert forall i | 1 <= i < |l| :: l[i] == l[1..][i - 1];
        None
      case Some(i) =>
        assert forall j | 1 <= j < |l| :: l[j] == l[1..][j - 1];
        Some(i + 1)
  }

  /** The orders whose ids are not in `ids`, in the same order. */
  function Without(l: seq<OpenOrder>, ids: set<OrderId>): seq<OpenOrder> {
    if l == [] then []
    else (if l[0].order.orderId in ids then [] else [l[0]]) + Without(l[1..], ids)
  }

  lemma {:induction false} WithoutConcat(a: seq<OpenOrder>, b: seq<OpenOrder>, ids: set<OrderId>)
    ensures Without(a + b, ids) == Without(a, ids) + Without(b, ids)
  {
    if a == [] {
      assert a + b == b;
    } else {
      assert (a + b)[1..] == a[1..] + b;
      WithoutConcat(a[1..], b, ids);
    }
  }

  lemma {:induction false} WithoutNothing(l: seq<OpenOrder>, ids: set<OrderId>)
    requires forall o | o in l :: o.order.orderId !in ids
    ensures Without(l, ids) == l
  {
    if l != [] {
      WithoutNothing(l[1..], ids);
    }
  }

  lemma {:induction false} WithoutTwice(l: seq<OpenOrder>, a: set<OrderId>, b: set<OrderId>)
    ensures Without(Without(l, a), b) == Without(l, a + b)
  {
    if l != [] {
      WithoutTwice(l[1..], a, b);
      var h := if l[0].order.orderId in a then [] else [l[0]];
      WithoutConcat(h, Without(l[1..], a), b);
      if h != [] {
        assert h[1..] == [];
      }
    }
  }

  /** Exactly the orders outside `ids` survive. */
  lemma {:induction false} WithoutKeeps(l: seq<OpenOrder>, ids: set<OrderId>)
    ensures forall o :: o in Without(l, ids) <==> o in l && o.order.orderId !in ids
  {
    if l != [] {
      WithoutKeeps(l[1..], ids);
      assert forall o :: o in l <==> o == l[0] || o in l[1..];
    }
  }

  /** Dropping one position is dropping its id, when ids are distinct. */
  lemma {:induction false} RemoveIsWithout(l: seq<OpenOrder>, i: nat)
    requires i < |l| && DistinctIds(l)
    ensures RemoveAt(l, i) == Without(l, {l[i].order.orderId})
  {
    var a, o, b := l[..i], l[i], l[i + 1..];
    assert forall x | x in a :: x.order.orderId != o.order.orderId;
    assert forall x | x in b :: x.order.orderId != o.order.orderId;
    WithoutOne(a, o, b);
    assert l == a + [o] + b;
  }

  lemma {:induction false} WithoutSingle(o: OpenOrder)
    ensures Without([o], {o.order.orderId}) == []
  {
    assert [o][1..] == [];
  }

  lemma {:induction false} WithoutOne(a: seq<OpenOrder>, o: OpenOrder, b: seq<OpenOrder>)
    requires forall x | x in a + b :: x.order.orderId != o.order.orderId
    ensures Without(a + [o] + b, {o.order.orderId}) == a + b
  {
    hide Without;
    var ids := {o.order.orderId};
    assert forall x | x in a :: x in a + b;
    assert forall x | x in b :: x in a + b;
    WithoutConcat(a + [o], b, ids);
    WithoutConcat(a, [o], ids);
    WithoutNothing(a, ids);
    WithoutNothing(b, ids);
    WithoutSingle(o);
  }

  // ----- Snapshot levels -----

  /** `quantities[price] = quantities.get(price, 0) + quantity` on an insertion-ordered dict. */
  function AddToLevels(levels: seq<BookLevel>, price: int, quantity: int): seq<BookLevel> {
    if levels == [] then [BookLevel(price, quantity)]
    else if levels[0].price == price then [BookLevel(price, levels[0].quantity + quantity)] + levels[1..]
    else [levels[0]] + AddToLevels(levels[1..], price, quantity)
  }

  /** Quantity per price, prices in the order in which they first appear. */
  function LevelsOf(l: seq<OpenOrder>): seq<BookLevel> {
    if l == [] then []
    else AddToLevels(LevelsOf(l[..|l| - 1]), l[|l| - 1].order.price, l[|l| - 1].remaining)
  }

  function Total(l: seq<OpenOrder>): int {
    if l == [] then 0 else l[0].remaining + Total(l[1..])
  }

  lemma {:induction false} TotalConcat(a: seq<OpenOrder>, b: seq<OpenOrder>)
    ensures Total(a + b) == Total(a) + Total(b)
  {
    if a == [] {
      assert a + b == b;
    } else {
      assert (a + b)[1..] == a[1..] + b;
      TotalConcat(a[1..], b);
    }
  }

  lemma {:induction false} AddToNewLevel(levels: seq<BookLevel>, price: int, quantity: int)
    requires forall v | v in levels :: v.price != price
    ensures AddToLevels(levels, price, quantity) == levels + [BookLevel(price, quantity)]
  {
    if levels != [] {
      AddToNewLevel(levels[1..], price, quantity);
    }
  }

  lemma {:induction false} AddToLastLevel(levels: seq<BookLevel>, price: int, have: int, quantity: int)
    requires forall v | v in levels :: v.price != price
    ensures AddToLevels(levels + [BookLevel(price, have)], price, quantity)
              == levels + [BookLevel(price, have + quantity)]
  {
    var all := levels + [BookLevel(price, have)];
    if levels == [] {
      assert all[1..] == [];
    } else {
      assert all[1..] == levels[1..] + [BookLevel(price, have)];
      AddToLastLevel(levels[1..], price, have, quantity);
    }
  }

  /** A non-empty run of orders at one new price adds one level holding their total. */
  lemma {:induction false} LevelsOfRun(a: seq<OpenOrder>, run: seq<OpenOrder>, price: int)
    requires run != [] && forall o | o in run :: o.order.price == price
    requires forall v | v in LevelsOf(a) :: v.price != price
    ensures LevelsOf(a + run) == LevelsOf(a) + [BookLevel(price, Total(run))]
  {
    var n := |run| - 1;
    var init, last := run[..n], run[n];
    assert (a + run)[..|a + run| - 1] == a + init;
    assert run == init + [last];
    TotalConcat(init, [last]);
    if init == [] {
      assert a + init == a;
      AddToNewLevel(LevelsOf(a), price, last.remaining);
    } else {
      LevelsOfRun(a, init, price);
      AddToLastLevel(LevelsOf(a), price, Total(init), last.remaining);
    }
  }
}

/**
 Each update the price-level book makes to one side, as a lemma about values:
 it keeps the side's invariant, and on the sorted list of live orders it is an
 insertion, a change of the head, a removal, or nothing at all.
 */
module SideUpdates {
  import opened OrderTypes
  import opened ListBook
  import opened PriceLevels

  /** Every listed order sits at one of the keys, on this side, with quantity left. */
  lemma {:induction false} ListedAt(side: Side, keys: seq<int>, qs: Queues)
    requires Covered(side, keys, qs)
    requires forall k | k in keys :: QueueOk(side, Key(side, k), qs[Key(side, k)])
    ensures forall o | o in View(side, keys, qs) :: KeyOf(o) in keys && o.order.side == side && o.remaining > 0
  {
    if keys != [] {
      var q := qs[Key(side, keys[0])];
      assert keys[0] in keys;
      LiveSorted(side, Key(side, keys[0]), q);
      ListedAt(side, keys[1..], qs);
      Concat(q, Slots(side, keys[1..], qs));
    }
  }

  lemma {:induction false} SortedConcat(a: seq<OpenOrder>, b: seq<OpenOrder>)
    requires Sorted(a) && Sorted(b)
    requires forall x, y | x in a && y in b :: Precedes(x, y)
    ensures Sorted(a + b)
  {
  }

  /** The live orders of a side, read level by level, are in price-time priority. */
  lemma {:induction false} ViewSorted(side: Side, keys: seq<int>, qs: Queues)
    requires Ascending(keys) && Covered(side, keys, qs)
    requires forall k | k in keys :: QueueOk(side, Key(side, k), qs[Key(side, k)])
    ensures Sorted(View(side, keys, qs))
  {
    if keys != [] {
      var q, rest := qs[Key(side, keys[0])], keys[1..];
      assert keys[0] in keys;
      ViewSorted(side, rest, qs);
      ListedAt(side, rest, qs);
      LiveSorted(side, Key(side, keys[0]), q);
      Concat(q, Slots(side, rest, qs));
      SortedConcat(Live(q), View(side, rest, qs));
    }
  }

  // ----- Arrival -----

  ghost predicate SequencesBelow(qs: Queues, n: nat) {
    forall p, i | p in qs && 0 <= i < |qs[p]| :: qs[p][i].open.sequence < n
  }

  ghost predicate Arrives(side: Side, price: int, s: Slot) {
    s.alive && s.open.order.price == price && s.open.order.side == side && s.open.remaining > 0
  }

  lemma {:induction false} AppendOk(side: Side, price: int, q: seq<Slot>, s: Slot)
    requires QueueOk(side, price, q) && Arrives(side, price, s)
    requires forall i | 0 <= i < |q| :: q[i].open.sequence < s.open.sequence
    ensures QueueOk(side, price, q + [s])
    ensures Live(q + [s]) == Live(q) + [s.open]
    ensures Qty(q + [s]) == Qty(q) + s.open.remaining && Qty(q) >= 0
    ensures Dead(q + [s]) == Dead(q)
  {
    Concat(q, [s]);
    Single(s);
    NoQtyNoLive(side, price, q);
  }

  /** The three parts of a side around key position `i`, in priority order. */
  lemma {:induction false} PartsApart(side: Side, keys: seq<int>, qs: Queues, i: nat, j: nat, k: int)
    requires SideOk(side, keys, qs) && i <= j <= |keys|
    requires (forall x | 0 <= x < i :: keys[x] < k) && (forall x | j <= x < |keys| :: keys[x] > k)
    ensures forall o | o in Live(Before(side, keys, qs, i)) :: KeyOf(o) < k
    ensures forall o | o in Live(After(side, keys, qs, j)) :: KeyOf(o) > k
  {
    ListedAt(side, keys[..i], qs);
    ListedAt(side, keys[j..], qs);
  }

  lemma {:induction false} QueueAt(side: Side, keys: seq<int>, qs: Queues, i: nat)
    requires SideOk(side, keys, qs) && i < |keys|
    ensures keys[i] in keys && Key(side, keys[i]) in qs
    ensures QueueOk(side, Key(side, keys[i]), qs[Key(side, keys[i])]) && Qty(qs[Key(side, keys[i])]) > 0
  {
    assert keys[i] in keys;
  }

  /** A price has a level exactly when its key is listed. */
  lemma {:induction false} KeyOfPrice(side: Side, keys: seq<int>, qs: Queues, price: int)
    requires SideOk(side, keys, qs)
    ensures Ascending(keys) && Covered(side, keys, qs)
    ensures Key(side, Key(side, price)) == price
    ensures price in qs <==> Key(side, price) in keys
    ensures price in qs ==> QueueOk(side, price, qs[price])
  {
    if price in qs {
      assert qs[price] == qs[price];
    }
  }

  /** An arrival at an existing price. */
  lemma {:induction false} AddToQueue(side: Side, keys: seq<int>, qs: Queues, i: nat, s: Slot)
    requires SideOk(side, keys, qs) && i < |keys| && Arrives(side, Key(side, keys[i]), s)
    requires SequencesBelow(qs, s.open.sequence)
    ensures keys[i] in keys
    ensures var p := Key(side, keys[i]);
            var qs' := qs[p := qs[p] + [s]];
            && SideOk(side, keys, qs')
            && View(side, keys, qs') == InsertSorted(View(side, keys, qs), s.open)
            && Dead(Slots(side, keys, qs')) == Dead(Slots(side, keys, qs))
            && Qty(Slots(side, keys, qs')) == Qty(Slots(side, keys, qs)) + s.open.remaining
  {
    hide SideOk, Slots, PriceLevels.View, QueueOk, Qty, Dead, Live;
    QueueAt(side, keys, qs, i);
    var p := Key(side, keys[i]);
    var q := qs[p];
    AppendOk(side, p, q, s);
    ReplaceQueueCounts(side, keys, qs, i, q + [s]);
    KeysAround(side, keys, qs, i);
    PartsApart(side, keys, qs, i, i + 1, keys[i]);
    BehindQueue(side, p, q, s);
    InsertBehindQueue(Live(Before(side, keys, qs, i)), Live(q), Live(After(side, keys, qs, i + 1)), s.open);
  }

  lemma {:induction false} KeysAround(side: Side, keys: seq<int>, qs: Queues, i: nat)
    requires SideOk(side, keys, qs) && i < |keys|
    ensures (forall x | 0 <= x < i :: keys[x] < keys[i]) && (forall x | i + 1 <= x < |keys| :: keys[x] > keys[i])
  {
  }

  lemma {:induction false} BehindQueue(side: Side, price: int, q: seq<Slot>, s: Slot)
    requires QueueOk(side, price, q) && Arrives(side, price, s)
    requires forall i | 0 <= i < |q| :: q[i].open.sequence < s.open.sequence
    ensures forall x | x in Live(q) :: KeyOf(x) == KeyOf(s.open) && x.sequence < s.open.sequence
  {
    LiveSorted(side, price, q);
    LiveFrom(q);
  }

  /** An arrival at a new price, whose key belongs at position `i`. */
  lemma {:induction false} AddQueue(side: Side, keys: seq<int>, qs: Queues, i: nat, k: int, s: Slot)
    requires SideOk(side, keys, qs) && i <= |keys| && Arrives(side, Key(side, k), s)
    requires (forall x | 0 <= x < i :: keys[x] < k) && (forall x | i <= x < |keys| :: keys[x] > k)
    ensures SideOk(side, keys[..i] + [k] + keys[i..], qs[Key(side, k) := [s]])
    ensures var keys' := keys[..i] + [k] + keys[i..];
            var qs' := qs[Key(side, k) := [s]];
            && View(side, keys', qs') == InsertSorted(View(side, keys, qs), s.open)
            && Dead(Slots(side, keys', qs')) == Dead(Slots(side, keys, qs))
            && Qty(Slots(side, keys', qs')) == Qty(Slots(side, keys, qs)) + s.open.remaining
  {
    hide SideOk, QueueOk, Ascending, Slots, PriceLevels.View, Qty, Dead, Live;
    KeyOfPrice(side, keys, qs, Key(side, k));
    NewKeyAt(side, keys, qs, i, k, s);
    PartsApart(side, keys, qs, i, i, k);
    assert k !in keys;
    AddQueueCounts(side, keys, qs, i, k, s);
    InsertSortedAt(Live(Before(side, keys, qs, i)), Live(After(side, keys, qs, i)), s.open);
  }

  lemma {:induction false} NewKeyAt(side: Side, keys: seq<int>, qs: Queues, i: nat, k: int, s: Slot)
    requires SideOk(side, keys, qs) && i <= |keys| && Arrives(side, Key(side, k), s)
    requires (forall x | 0 <= x < i :: keys[x] < k) && (forall x | i <= x < |keys| :: keys[x] > k)
    ensures SideOk(side, keys[..i] + [k] + keys[i..], qs[Key(side, k) := [s]])
  {
    hide QueueOk, Qty, Ascending;
    assert Ascending(keys);
    Spliced(keys, i, k);
    NewKeyOk(side, keys, qs, k, keys[..i] + [k] + keys[i..], s);
  }

  lemma {:induction false} AddQueueCounts(side: Side, keys: seq<int>, qs: Queues, i: nat, k: int, s: Slot)
    requires Covered(side, keys, qs) && i <= |keys| && k !in keys && s.alive
    ensures var keys' := keys[..i] + [k] + keys[i..];
            var qs' := qs[Key(side, k) := [s]];
            var a, b := Live(Before(side, keys, qs, i)), Live(After(side, keys, qs, i));
            && Covered(side, keys', qs')
            && View(side, keys, qs) == a + b
            && View(side, keys', qs') == a + [s.open] + b
            && Dead(Slots(side, keys', qs')) == Dead(Slots(side, keys, qs))
            && Qty(Slots(side, keys', qs')) == Qty(Slots(side, keys, qs)) + s.open.remaining
  {
    var a, b := Before(side, keys, qs, i), After(side, keys, qs, i);
    InsertQueue(side, keys, qs, i, k, [s]);
    SlotsConcat(side, keys[..i], keys[i..], qs);
    assert keys[..i] + keys[i..] == keys;
    Single(s);
    Concat3(a, [s], b);
    Concat(a, b);
  }

  lemma {:induction false} Spliced(keys: seq<int>, i: nat, k: int)
    requires Ascending(keys) && i <= |keys|
    requires (forall x | 0 <= x < i :: keys[x] < k) && (forall x | i <= x < |keys| :: keys[x] > k)
    ensures Ascending(keys[..i] + [k] + keys[i..])
    ensures forall x :: x in keys[..i] + [k] + keys[i..] <==> x == k || x in keys
  {
    assert keys == keys[..i] + keys[i..];
  }

  lemma {:induction false} NewKeyOk(side: Side, keys: seq<int>, qs: Queues, k: int, keys': seq<int>, s: Slot)
    requires SideOk(side, keys, qs) && Arrives(side, Key(side, k), s) && Ascending(keys')
    requires forall x :: x in keys' <==> x == k || x in keys
    ensures SideOk(side, keys', qs[Key(side, k) := [s]])
  {
    hide Qty, Ascending;
    Single(s);
    var qs' := qs[Key(side, k) := [s]];
    KeyOfPrice(side, keys, qs, Key(side, k));
    assert Qty([s]) > 0 && QueueOk(side, Key(side, k), [s]);
    hide QueueOk;
    forall p | p in qs'
      ensures Key(side, p) in keys' && QueueOk(side, p, qs'[p]) && Qty(qs'[p]) > 0
    {
      assert p != Key(side, k) ==> qs'[p] == qs[p];
    }
  }

  /** Where an order of the list is queued. */
  lemma {:induction false} SlotIn(side: Side, keys: seq<int>, qs: Queues, o: OpenOrder) returns (i: nat, j: nat)
    requires Covered(side, keys, qs) && o in View(side, keys, qs)
    ensures i < |keys| && Key(side, keys[i]) in qs
    ensures j < |qs[Key(side, keys[i])]| && qs[Key(side, keys[i])][j].alive && qs[Key(side, keys[i])][j].open == o
  {
    assert keys != [] by { NoSlots(); }
    assert keys[0] in keys;
    var q := qs[Key(side, keys[0])];
    Concat(q, Slots(side, keys[1..], qs));
    if o in Live(q) {
      LiveFrom(q);
      i := 0;
      j :| 0 <= j < |q| && q[j].alive && q[j].open == o;
    } else {
      i, j := SlotIn(side, keys[1..], qs, o);
      i := i + 1;
    }
  }

  // ----- The best price -----

  lemma {:induction false} EmptySide(side: Side, qs: Queues)
    requires Covered(side, [], qs)
    ensures View(side, [], qs) == []
  {
  }

  /** The front slot of the best queue, once live, is the head of the list. */
  lemma {:induction false} FrontIsHead(side: Side, keys: seq<int>, qs: Queues)
    requires SideOk(side, keys, qs) && keys != []
    ensures keys[0] in keys
    ensures var q := qs[Key(side, keys[0])];
            q != [] && (q[0].alive ==>
              View(side, keys, qs) == [q[0].open] + Live(q[1..]) + Live(After(side, keys, qs, 1)))
  {
    assert keys[0] in keys;
    var q := qs[Key(side, keys[0])];
    SplitQueue(side, keys, qs, 0);
    assert Before(side, keys, qs, 0) + q == q;
    Concat(q, After(side, keys, qs, 1));
  }

  lemma {:induction false} TailOk(side: Side, price: int, q: seq<Slot>)
    requires QueueOk(side, price, q) && q != []
    ensures QueueOk(side, price, q[1..])
  {
  }

  lemma {:induction false} PopDeadCounts(q: seq<Slot>)
    requires q != [] && !q[0].alive
    ensures Live(q[1..]) == Live(q) && Qty(q[1..]) == Qty(q) && Dead(q[1..]) == Dead(q) - 1
  {
  }

  lemma {:induction false} ShapedQueueAt(side: Side, keys: seq<int>, qs: Queues, i: nat)
    requires Shaped(side, keys, qs) && i < |keys|
    ensures keys[i] in keys && Key(side, keys[i]) in qs && QueueOk(side, Key(side, keys[i]), qs[Key(side, keys[i])])
    ensures Ascending(keys) && Covered(side, keys, qs)
  {
    assert keys[i] in keys;
  }

  lemma {:induction false} SameShape(side: Side, keys: seq<int>, qs: Queues, p: int, q: seq<Slot>)
    requires Shaped(side, keys, qs) && p in qs && QueueOk(side, p, q) && Qty(q) == Qty(qs[p])
    ensures Shaped(side, keys, qs[p := q]) && (Busy(qs) ==> Busy(qs[p := q]))
  {
    hide QueueOk, Qty, Ascending;
    assert qs[p] == qs[p];
  }

  /** Dropping a dead entry from the front of a queue is invisible in the list. */
  lemma {:induction false} PopDead(side: Side, keys: seq<int>, qs: Queues, i: nat)
    requires Shaped(side, keys, qs) && i < |keys|
    requires Key(side, keys[i]) in qs && qs[Key(side, keys[i])] != [] && !qs[Key(side, keys[i])][0].alive
    ensures var p := Key(side, keys[i]);
            var qs' := qs[p := qs[p][1..]];
            && Shaped(side, keys, qs') && (Busy(qs) ==> Busy(qs'))
            && View(side, keys, qs') == View(side, keys, qs)
            && Dead(Slots(side, keys, qs')) == Dead(Slots(side, keys, qs)) - 1
            && Qty(Slots(side, keys, qs')) == Qty(Slots(side, keys, qs))
            && |Slots(side, keys, qs')| == |Slots(side, keys, qs)| - 1
  {
    hide Slots, Qty, Live, Dead, Shaped, Busy, QueueOk;
    ShapedQueueAt(side, keys, qs, i);
    var p := Key(side, keys[i]);
    var q := qs[p];
    TailOk(side, p, q);
    PopDeadCounts(q);
    SameShape(side, keys, qs, p, q[1..]);
    SplitQueue(side, keys, qs, i);
    ReplaceQueue(side, keys, qs, i, q[1..]);
    var a, b := Before(side, keys, qs, i), After(side, keys, qs, i + 1);
    Concat3(a, q, b);
    Concat3(a, q[1..], b);
  }

  /** Dropping the best level once its queue is empty is invisible as well. */
  lemma {:induction false} DropEmpty(side: Side, keys: seq<int>, qs: Queues)
    requires Shaped(side, keys, qs) && keys != [] && Key(side, keys[0]) in qs && qs[Key(side, keys[0])] == []
    ensures var keys', qs' := keys[..0] + keys[1..], qs - {Key(side, keys[0])};
            && Shaped(side, keys', qs') && !Busy(qs)
            && Slots(side, keys', qs') == Slots(side, keys, qs) && View(side, keys', qs') == View(side, keys, qs)
  {
    hide Slots, Qty, QueueOk, Shaped;
    ShapedQueueAt(side, keys, qs, 0);
    SplitQueue(side, keys, qs, 0);
    DropQueue(side, keys, qs, 0);
    var a, b := Before(side, keys, qs, 0), After(side, keys, qs, 1);
    assert a + [] + b == a + b;
    DropShape(side, keys, qs);
    NoSlots();
  }

  lemma {:induction false} DropShape(side: Side, keys: seq<int>, qs: Queues)
    requires Shaped(side, keys, qs) && keys != []
    ensures var keys', qs' := keys[..0] + keys[1..], qs - {Key(side, keys[0])};
            Shaped(side, keys', qs') && (Busy(qs) ==> Busy(qs'))
  {
    hide Qty, QueueOk, Ascending, Shaped, Busy;
    ShapedQueueAt(side, keys, qs, 0);
    KeysAscend(side, keys, qs);
    CutOut(keys, 0);
    FewerQueues(side, keys, qs, keys[0], keys[..0] + keys[1..]);
  }

  lemma {:induction false} KeysAscend(side: Side, keys: seq<int>, qs: Queues)
    requires Shaped(side, keys, qs)
    ensures Ascending(keys)
  {
  }

  lemma {:induction false} FewerQueues(side: Side, keys: seq<int>, qs: Queues, k: int, keys': seq<int>)
    requires Shaped(side, keys, qs) && Ascending(keys')
    requires forall x :: x in keys' <==> x != k && x in keys
    ensures Shaped(side, keys', qs - {Key(side, k)}) && (Busy(qs) ==> Busy(qs - {Key(side, k)}))
  {
    hide QueueOk, Qty, Ascending;
    var qs' := qs - {Key(side, k)};
    forall p | p in qs'
      ensures Key(side, p) in keys' && QueueOk(side, p, qs'[p]) && (Busy(qs) ==> Qty(qs'[p]) > 0)
    {
      assert qs'[p] == qs[p];
    }
    forall x | x in keys'
      ensures Key(side, x) in qs'
    {
      assert Key(side, x) in qs;
    }
  }

  /** The front slot of the best queue, once live, is the head of the list. */
  lemma {:induction false} LiveFront(side: Side, keys: seq<int>, qs: Queues)
    requires Shaped(side, keys, qs) && keys != []
    ensures keys[0] in keys && Key(side, keys[0]) in qs
    ensures var q := qs[Key(side, keys[0])];
            q != [] && q[0].alive ==> View(side, keys, qs) != [] && View(side, keys, qs)[0] == q[0].open
  {
    ShapedQueueAt(side, keys, qs, 0);
    var q := qs[Key(side, keys[0])];
    SplitQueue(side, keys, qs, 0);
    assert Before(side, keys, qs, 0) + q == q;
    Concat(q, After(side, keys, qs, 1));
  }

  lemma {:induction false} ReplaceOk(side: Side, keys: seq<int>, qs: Queues, p: int, q: seq<Slot>)
    requires SideOk(side, keys, qs) && p in qs
    ensures QueueOk(side, p, q) && Qty(q) > 0 ==> SideOk(side, keys, qs[p := q])
  {
    hide QueueOk, Qty, Ascending;
    assert qs[p] == qs[p];
  }

  /** What a new queue at key `i` means for the list, the quantities and the dead entries. */
  lemma {:induction false} ReplaceQueueCounts(side: Side, keys: seq<int>, qs: Queues, i: nat, q': seq<Slot>)
    requires SideOk(side, keys, qs) && i < |keys|
    ensures keys[i] in keys
    ensures var p := Key(side, keys[i]);
            var qs' := qs[p := q'];
            var a, b := Live(Before(side, keys, qs, i)), Live(After(side, keys, qs, i + 1));
            && Covered(side, keys, qs')
            && View(side, keys, qs) == a + Live(qs[p]) + b
            && View(side, keys, qs') == a + Live(q') + b
            && Dead(Slots(side, keys, qs')) == Dead(Slots(side, keys, qs)) - Dead(qs[p]) + Dead(q')
            && Qty(Slots(side, keys, qs')) == Qty(Slots(side, keys, qs)) - Qty(qs[p]) + Qty(q')
            && (QueueOk(side, p, q') && Qty(q') > 0 ==> SideOk(side, keys, qs'))
  {
    hide SideOk, QueueOk, Slots, Live, Dead, Qty, Ascending;
    assert keys[i] in keys;
    var p := Key(side, keys[i]);
    KeyOfPrice(side, keys, qs, p);
    ReplaceOk(side, keys, qs, p, q');
    SplitQueue(side, keys, qs, i);
    ReplaceQueue(side, keys, qs, i, q');
    var a, b := Before(side, keys, qs, i), After(side, keys, qs, i + 1);
    Concat3(a, qs[p], b);
    Concat3(a, q', b);
  }

  /** Dropping a whole level removes exactly its live orders. */
  lemma {:induction false} DropQueueCounts(side: Side, keys: seq<int>, qs: Queues, i: nat)
    requires SideOk(side, keys, qs) && i < |keys|
    ensures keys[i] in keys
    ensures var p := Key(side, keys[i]);
            var keys', qs' := keys[..i] + keys[i + 1..], qs - {p};
            var a, b := Live(Before(side, keys, qs, i)), Live(After(side, keys, qs, i + 1));
            && SideOk(side, keys', qs')
            && View(side, keys', qs') == a + b
            && Dead(Slots(side, keys', qs')) == Dead(Slots(side, keys, qs)) - Dead(qs[p])
            && Qty(Slots(side, keys', qs')) == Qty(Slots(side, keys, qs)) - Qty(qs[p])
  {
    assert keys[i] in keys;
    var p := Key(side, keys[i]);
    SplitQueue(side, keys, qs, i);
    DropQueue(side, keys, qs, i);
    var a, b := Before(side, keys, qs, i), After(side, keys, qs, i + 1);
    Concat3(a, qs[p], b);
    Concat(a, b);
    CutOut(keys, i);
    DropKeyOk(side, keys, qs, keys[i], keys[..i] + keys[i + 1..]);
  }

  lemma {:induction false} CutOut(keys: seq<int>, i: nat)
    requires Ascending(keys) && i < |keys|
    ensures Ascending(keys[..i] + keys[i + 1..])
    ensures forall x :: x in keys[..i] + keys[i + 1..] <==> x != keys[i] && x in keys
  {
    assert keys == keys[..i] + [keys[i]] + keys[i + 1..];
  }

  lemma {:induction false} DropKeyOk(side: Side, keys: seq<int>, qs: Queues, k: int, keys': seq<int>)
    requires SideOk(side, keys, qs) && Ascending(keys')
    requires forall x :: x in keys' <==> x != k && x in keys
    ensures SideOk(side, keys', qs - {Key(side, k)})
  {
    hide Shaped, Busy;
    FewerQueues(side, keys, qs, k, keys');
  }

  // ----- One queue: reduce, pop, kill, compact -----

  lemma {:induction false} SetFrontCounts(q: seq<Slot>, s: Slot)
    requires q != [] && q[0].alive && s.alive
    ensures Qty(q[0 := s]) == Qty(q) - q[0].open.remaining + s.open.remaining
    ensures Dead(q[0 := s]) == Dead(q)
  {
    assert q[0 := s][1..] == q[1..];
  }

  /** A partial fill of the front order. */
  lemma {:induction false} ReduceFront(side: Side, price: int, q: seq<Slot>, left: int)
    requires QueueOk(side, price, q) && q != [] && q[0].alive && left > 0
    ensures var q' := q[0 := Slot(q[0].open.(remaining := left), true)];
            && QueueOk(side, price, q')
            && Live(q') == [q[0].open.(remaining := left)] + Live(q[1..])
            && Qty(q') == Qty(q) - q[0].open.remaining + left
            && Dead(q') == Dead(q)
  {
    var q' := q[0 := Slot(q[0].open.(remaining := left), true)];
    assert q'[1..] == q[1..];
  }

  /** Cancelling slot `j` takes its order out of the middle of the queue's live orders. */
  lemma {:induction false} KillSlot(side: Side, price: int, q: seq<Slot>, j: nat, dead: Slot)
    requires QueueOk(side, price, q) && j < |q| && q[j].alive
    requires dead == q[j].(alive := false)
    ensures QueueOk(side, price, q[j := dead])
  {
  }

  lemma {:induction false} KillCounts(q: seq<Slot>, j: nat)
    requires j < |q| && q[j].alive
    ensures Qty(q[j := q[j].(alive := false)]) == Qty(q) - q[j].open.remaining
    ensures Dead(q[j := q[j].(alive := false)]) == Dead(q) + 1
    ensures Live(q) == Live(q[..j]) + [q[j].open] + Live(q[j + 1..])
    ensures Live(q[j := q[j].(alive := false)]) == Live(q[..j]) + Live(q[j + 1..])
  {
    hide Live, Qty, Dead;
    var dead := q[j].(alive := false);
    assert q == q[..j] + [q[j]] + q[j + 1..];
    assert q[j := dead] == q[..j] + [dead] + q[j + 1..];
    Concat3(q[..j], [q[j]], q[j + 1..]);
    Concat3(q[..j], [dead], q[j + 1..]);
    Single(q[j]);
    Single(dead);
    assert Live(q[..j]) + [] + Live(q[j + 1..]) == Live(q[..j]) + Live(q[j + 1..]);
  }

  function Compacted(q: seq<Slot>): seq<Slot> {
    if q == [] then [] else (if q[0].alive then [q[0]] else []) + Compacted(q[1..])
  }

  /** Rebuilding a queue from its live entries keeps its orders and leaves no dead ones. */
  lemma {:induction false} CompactCounts(q: seq<Slot>)
    ensures Live(Compacted(q)) == Live(q) && Qty(Compacted(q)) == Qty(q) && Dead(Compacted(q)) == 0
    ensures forall s | s in Compacted(q) :: s in q
  {
    if q != [] {
      CompactCounts(q[1..]);
      Concat(if q[0].alive then [q[0]] else [], Compacted(q[1..]));
      Single(q[0]);
    }
  }

  lemma {:induction false} CompactOk(side: Side, price: int, q: seq<Slot>)
    requires QueueOk(side, price, q)
    ensures QueueOk(side, price, Compacted(q))
  {
    if q != [] {
      TailOk(side, price, q);
      CompactOk(side, price, q[1..]);
      CompactCounts(q[1..]);
      if q[0].alive {
        FrontOk(side, price, q, Compacted(q[1..]));
      }
    }
  }

  lemma {:induction false} FrontOk(side: Side, price: int, q: seq<Slot>, r: seq<Slot>)
    requires QueueOk(side, price, q) && q != [] && QueueOk(side, price, r)
    requires forall s | s in r :: s in q[1..]
    ensures QueueOk(side, price, [q[0]] + r)
  {
    forall i | 0 <= i < |r|
      ensures q[0].open.sequence < r[i].open.sequence
    {
      assert r[i] in q[1..];
    }
    var l := [q[0]] + r;
    assert forall i | 1 <= i < |l| :: l[i] == r[i - 1];
  }

  // ----- Fills and removals, on the whole side -----

  /** A partial fill reduces the head of the list. */
  lemma {:induction false} FillHead(side: Side, keys: seq<int>, qs: Queues, left: int, s: Slot)
    returns (rest: seq<OpenOrder>)
    requires SideOk(side, keys, qs) && keys != [] && Key(side, keys[0]) in qs
    requires var q := qs[Key(side, keys[0])]; q != [] && q[0].alive && s == Slot(q[0].open.(remaining := left), true)
    requires left > 0
    ensures var q := qs[Key(side, keys[0])];
            var qs' := qs[Key(side, keys[0]) := q[0 := s]];
            && SideOk(side, keys, qs')
            && View(side, keys, qs) == [q[0].open] + rest
            && View(side, keys, qs') == [s.open] + rest
            && Qty(Slots(side, keys, qs')) == Qty(Slots(side, keys, qs)) - q[0].open.remaining + left
            && Dead(Slots(side, keys, qs')) == Dead(Slots(side, keys, qs))
  {
    hide SideOk, Slots, PriceLevels.View, QueueOk, Qty, Live, Dead;
    QueueAt(side, keys, qs, 0);
    var p := Key(side, keys[0]);
    var q := qs[p];
    ReduceFront(side, p, q, left);
    var q' := q[0 := s];
    QtySplit(side, p, q);
    FrontIsHead(side, keys, qs);
    ReplaceQueueCounts(side, keys, qs, 0, q');
    NoneBefore(side, keys, qs);
    rest := View(side, keys, qs)[1..];
  }

  lemma {:induction false} NoneBefore(side: Side, keys: seq<int>, qs: Queues)
    requires SideOk(side, keys, qs)
    ensures Live(Before(side, keys, qs, 0)) == []
  {
  }

  /** The front order's quantity is part of its queue's. */
  lemma {:induction false} QtySplit(side: Side, price: int, q: seq<Slot>)
    requires QueueOk(side, price, q) && q != [] && q[0].alive
    ensures Qty(q) == q[0].open.remaining + Qty(q[1..])
    ensures Dead(q) == Dead(q[1..])
    ensures Qty(q[1..]) >= 0
    ensures Qty(q[1..]) == 0 ==> Live(q[1..]) == []
    ensures q[0].open.remaining > 0
  {
    NoQtyNoLive(side, price, q[1..]);
  }

  /** A full fill, when the level keeps other live orders, removes the head. */
  lemma {:induction false} PopHead(side: Side, keys: seq<int>, qs: Queues)
    requires SideOk(side, keys, qs) && keys != [] && Key(side, keys[0]) in qs
    requires var q := qs[Key(side, keys[0])]; q != [] && q[0].alive && Qty(q[1..]) != 0
    ensures var q := qs[Key(side, keys[0])];
            var qs' := qs[Key(side, keys[0]) := q[1..]];
            && SideOk(side, keys, qs')
            && View(side, keys, qs) == [q[0].open] + View(side, keys, qs')
            && Qty(Slots(side, keys, qs')) == Qty(Slots(side, keys, qs)) - q[0].open.remaining
            && Dead(Slots(side, keys, qs')) == Dead(Slots(side, keys, qs))
  {
    hide SideOk, Slots, PriceLevels.View, QueueOk, Qty, Live, Dead;
    QueueAt(side, keys, qs, 0);
    var p := Key(side, keys[0]);
    var q := qs[p];
    QtySplit(side, p, q);
    TailOk(side, p, q);
    FrontIsHead(side, keys, qs);
    ReplaceQueueCounts(side, keys, qs, 0, q[1..]);
    NoneBefore(side, keys, qs);
  }

  /** A full fill of the level's last live order removes the head and the level. */
  lemma {:induction false} DropHead(side: Side, keys: seq<int>, qs: Queues)
    requires SideOk(side, keys, qs) && keys != [] && Key(side, keys[0]) in qs
    requires var q := qs[Key(side, keys[0])]; q != [] && q[0].alive && Qty(q[1..]) == 0
    ensures var q := qs[Key(side, keys[0])];
            var keys', qs' := keys[..0] + keys[1..], qs - {Key(side, keys[0])};
            && SideOk(side, keys', qs')
            && View(side, keys, qs) == [q[0].open] + View(side, keys', qs')
            && Qty(Slots(side, keys', qs')) == Qty(Slots(side, keys, qs)) - q[0].open.remaining
            && Dead(Slots(side, keys', qs')) <= Dead(Slots(side, keys, qs))
  {
    hide SideOk, Slots, PriceLevels.View, QueueOk, Qty, Live, Dead;
    QueueAt(side, keys, qs, 0);
    var q := qs[Key(side, keys[0])];
    QtySplit(side, Key(side, keys[0]), q);
    FrontIsHead(side, keys, qs);
    DropQueueCounts(side, keys, qs, 0);
    NoneBefore(side, keys, qs);
  }

  /** Where slot `j` of the queue at key `i` stands in the list. */
  ghost function Rank(side: Side, keys: seq<int>, qs: Queues, i: nat, j: nat): nat
    requires i < |keys| && Covered(side, keys, qs) && Key(side, keys[i]) in qs && j < |qs[Key(side, keys[i])]|
  {
    |Live(Before(side, keys, qs, i)) + Live(qs[Key(side, keys[i])][..j])|
  }

  lemma {:induction false} RemovedFrom(a: seq<OpenOrder>, b: seq<OpenOrder>, o: OpenOrder, c: seq<OpenOrder>,
                                       d: seq<OpenOrder>)
    ensures var l := a + (b + [o] + c) + d;
            |a + b| < |l| && l[|a + b|] == o && RemoveAt(l, |a + b|) == a + (b + c) + d
  {
    var l := a + (b + [o] + c) + d;
    assert l == (a + b) + [o] + (c + d);
    assert a + (b + c) + d == (a + b) + (c + d);
  }

  /** Killing a slot while its level keeps other live orders. */
  lemma {:induction false} KillInSide(side: Side, keys: seq<int>, qs: Queues, i: nat, j: nat, q': seq<Slot>)
    requires SideOk(side, keys, qs) && i < |keys| && Key(side, keys[i]) in qs
    requires var q := qs[Key(side, keys[i])]; j < |q| && q[j].alive && q' == q[j := q[j].(alive := false)]
    ensures var p := Key(side, keys[i]);
            var n, o := Rank(side, keys, qs, i, j), qs[p][j].open;
            && QueueOk(side, p, q') && o.remaining > 0
            && Qty(q') == Qty(qs[p]) - o.remaining && Dead(q') == Dead(qs[p]) + 1
            && n < |View(side, keys, qs)| && View(side, keys, qs)[n] == o
            && RemoveAt(View(side, keys, qs), n)
               == Live(Before(side, keys, qs, i)) + Live(q') + Live(After(side, keys, qs, i + 1))
  {
    hide SideOk, Slots, PriceLevels.View, Qty, Live, Dead;
    QueueAt(side, keys, qs, i);
    var p := Key(side, keys[i]);
    var q := qs[p];
    var o := q[j].open;
    assert o.remaining > 0;
    hide QueueOk;
    KillSlot(side, p, q, j, q[j].(alive := false));
    KillCounts(q, j);
    ReplaceQueueCounts(side, keys, qs, i, q);
    RemovedFrom(Live(Before(side, keys, qs, i)), Live(q[..j]), o, Live(q[j + 1..]), Live(After(side, keys, qs, i + 1)));
  }

  lemma {:induction false} RemoveKeepingLevel(side: Side, keys: seq<int>, qs: Queues, i: nat, j: nat, q': seq<Slot>)
    requires SideOk(side, keys, qs) && i < |keys| && Key(side, keys[i]) in qs
    requires var q := qs[Key(side, keys[i])]; j < |q| && q[j].alive && q' == q[j := q[j].(alive := false)]
    requires Qty(q') != 0
    ensures var p := Key(side, keys[i]);
            var n := Rank(side, keys, qs, i, j);
            var qs', qs'' := qs[p := q'], qs[p := Compacted(q')];
            && n < |View(side, keys, qs)| && View(side, keys, qs)[n] == qs[p][j].open
            && SideOk(side, keys, qs') && SideOk(side, keys, qs'')
            && View(side, keys, qs') == View(side, keys, qs'') == RemoveAt(View(side, keys, qs), n)
            && Qty(Slots(side, keys, qs')) == Qty(Slots(side, keys, qs''))
               == Qty(Slots(side, keys, qs)) - qs[p][j].open.remaining
            && Dead(Slots(side, keys, qs')) == Dead(Slots(side, keys, qs)) + 1
            && Dead(Slots(side, keys, qs'')) == Dead(Slots(side, keys, qs)) + 1 - Dead(q')
  {
    hide SideOk, Slots, PriceLevels.View, QueueOk, Qty, Live, Dead, Compacted;
    QueueAt(side, keys, qs, i);
    var p := Key(side, keys[i]);
    KillInSide(side, keys, qs, i, j, q');
    NoQtyNoLive(side, p, q');
    CompactOk(side, p, q');
    CompactCounts(q');
    ReplaceQueueCounts(side, keys, qs, i, q');
    ReplaceQueueCounts(side, keys, qs, i, Compacted(q'));
  }

  /** Killing the level's last live order drops the level, dead entries and all. */
  lemma {:induction false} RemoveWithLevel(side: Side, keys: seq<int>, qs: Queues, i: nat, j: nat, q': seq<Slot>)
    requires SideOk(side, keys, qs) && i < |keys| && Key(side, keys[i]) in qs
    requires var q := qs[Key(side, keys[i])]; j < |q| && q[j].alive && q' == q[j := q[j].(alive := false)]
    requires Qty(q') == 0
    ensures var p := Key(side, keys[i]);
            var n := Rank(side, keys, qs, i, j);
            var keys', qs' := keys[..i] + keys[i + 1..], qs - {p};
            && n < |View(side, keys, qs)| && View(side, keys, qs)[n] == qs[p][j].open
            && SideOk(side, keys', qs')
            && View(side, keys', qs') == RemoveAt(View(side, keys, qs), n)
            && Qty(Slots(side, keys', qs')) == Qty(Slots(side, keys, qs)) - qs[p][j].open.remaining
            && Dead(Slots(side, keys', qs')) <= Dead(Slots(side, keys, qs))
  {
    hide SideOk, Slots, PriceLevels.View, QueueOk, Qty, Live, Dead;
    QueueAt(side, keys, qs, i);
    var p := Key(side, keys[i]);
    KillInSide(side, keys, qs, i, j, q');
    NoQtyNoLive(side, p, q');
    DropQueueCounts(side, keys, qs, i);
  }
}

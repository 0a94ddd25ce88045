/**
 The value of one side of the price-level book: ascending keys and one queue of
 slots per price, dead slots included, and how each change of that value shows
 in the sorted list of live orders.
 */
module PriceLevels {
  import opened OrderTypes
  import opened ListBook

  /** An entry's value: what it would report as an open order, and whether it is live. */
  datatype Slot = Slot(open: OpenOrder, alive: bool)

  type Queues = map<int, seq<Slot>>

  function Live(q: seq<Slot>): seq<OpenOrder> {
    if q == [] then [] else (if q[0].alive then [q[0].open] else []) + Live(q[1..])
  }

  function Qty(q: seq<Slot>): int {
    if q == [] then 0 else (if q[0].alive then q[0].open.remaining else 0) + Qty(q[1..])
  }

  function Dead(q: seq<Slot>): nat {
    if q == [] then 0 else (if q[0].alive then 0 else 1) + Dead(q[1..])
  }

  lemma {:induction false} Concat(a: seq<Slot>, b: seq<Slot>)
    ensures Live(a + b) == Live(a) + Live(b)
    ensures Qty(a + b) == Qty(a) + Qty(b)
    ensures Dead(a + b) == Dead(a) + Dead(b)
  {
    if a == [] {
      assert a + b == b;
    } else {
      assert (a + b)[1..] == a[1..] + b;
      Concat(a[1..], b);
    }
  }

  lemma {:induction false} Concat3(a: seq<Slot>, b: seq<Slot>, c: seq<Slot>)
    ensures Live(a + b + c) == Live(a) + Live(b) + Live(c)
    ensures Qty(a + b + c) == Qty(a) + Qty(b) + Qty(c)
    ensures Dead(a + b + c) == Dead(a) + Dead(b) + Dead(c)
  {
    Concat(a + b, c);
    Concat(a, b);
  }

  lemma {:induction false} Single(s: Slot)
    ensures Live([s]) == (if s.alive then [s.open] else [])
    ensures Qty([s]) == if s.alive then s.open.remaining else 0
    ensures Dead([s]) == if s.alive then 0 else 1
  {
    assert [s][1..] == [];
  }

  lemma {:induction false} NoSlots()
    ensures Live([]) == [] && Qty([]) == 0 && Dead([]) == 0
  {
  }

  lemma {:induction false} LiveUpTo(q: seq<Slot>, j: nat)
    requires j < |q|
    ensures Live(q[..j + 1]) == Live(q[..j]) + if q[j].alive then [q[j].open] else []
  {
    assert q[..j + 1] == q[..j] + [q[j]];
    Concat(q[..j], [q[j]]);
    Single(q[j]);
  }

  /** Every live order comes from a live slot. */
  lemma {:induction false} LiveFrom(q: seq<Slot>)
    ensures forall o :: o in Live(q) <==> exists i :: 0 <= i < |q| && q[i].alive && q[i].open == o
  {
    if q != [] {
      LiveFrom(q[1..]);
      forall o
        ensures o in Live(q) <==> exists i :: 0 <= i < |q| && q[i].alive && q[i].open == o
      {
        if o in Live(q[1..]) {
          var i :| 0 <= i < |q[1..]| && q[1..][i].alive && q[1..][i].open == o;
          assert q[i + 1].alive && q[i + 1].open == o;
        }
        if i :| 0 <= i < |q| && q[i].alive && q[i].open == o {
          if i > 0 {
            assert q[1..][i - 1].alive && q[1..][i - 1].open == o;
          }
        }
      }
    }
  }

  lemma {:induction false} QtyIsTotal(q: seq<Slot>)
    ensures Qty(q) == Total(Live(q))
  {
    if q != [] {
      QtyIsTotal(q[1..]);
      TotalConcat(if q[0].alive then [q[0].open] else [], Live(q[1..]));
    }
  }

  /** The queue at one price: right price and side, arrival order, positive live quantities. */
  ghost predicate QueueOk(side: Side, price: int, q: seq<Slot>) {
    && (forall i | 0 <= i < |q| :: q[i].open.order.price == price && q[i].open.order.side == side)
    && (forall i | 0 <= i < |q| :: q[i].alive ==> q[i].open.remaining > 0)
    && (forall i, j | 0 <= i < j < |q| :: q[i].open.sequence < q[j].open.sequence)
  }

  /** A queue has no live quantity exactly when it has no live order. */
  lemma {:induction false} NoQtyNoLive(side: Side, price: int, q: seq<Slot>)
    requires QueueOk(side, price, q)
    ensures Qty(q) >= 0
    ensures Qty(q) == 0 <==> Live(q) == []
    ensures Qty(q) == 0 <==> forall i | 0 <= i < |q| :: !q[i].alive
  {
    if q != [] {
      NoQtyNoLive(side, price, q[1..]);
      assert forall i | 1 <= i < |q| :: q[i] == q[1..][i - 1];
    }
  }

  /** Live orders of one queue are in arrival order. */
  lemma {:induction false} LiveSorted(side: Side, price: int, q: seq<Slot>)
    requires QueueOk(side, price, q)
    ensures Sorted(Live(q))
    ensures forall o | o in Live(q) :: o.order.price == price && o.order.side == side && o.remaining > 0
  {
    if q != [] {
      LiveSorted(side, price, q[1..]);
      LiveFrom(q[1..]);
      forall o | q[0].alive && o in Live(q[1..])
        ensures Precedes(q[0].open, o)
      {
        var i :| 0 <= i < |q[1..]| && q[1..][i].alive && q[1..][i].open == o;
        assert q[i + 1] == q[1..][i];
      }
    }
  }

  // ----- One side -----

  ghost predicate Ascending(keys: seq<int>) {
    forall i, j | 0 <= i < j < |keys| :: keys[i] < keys[j]
  }

  ghost predicate Covered(side: Side, keys: seq<int>, qs: Queues) {
    forall k | k in keys :: Key(side, k) in qs
  }

  /** All slots, best price first. `Key` is its own inverse, so it also maps a key to its price. */
  ghost function Slots(side: Side, keys: seq<int>, qs: Queues): seq<Slot>
    requires Covered(side, keys, qs)
  {
    if keys == [] then [] else
      assert keys[0] in keys;
      qs[Key(side, keys[0])] + Slots(side, keys[1..], qs)
  }

  ghost function View(side: Side, keys: seq<int>, qs: Queues): seq<OpenOrder>
    requires Covered(side, keys, qs)
  {
    Live(Slots(side, keys, qs))
  }

  /** Keys in order, exactly the prices with a queue, each queue well formed, perhaps with nothing live in it. */
  ghost predicate Shaped(side: Side, keys: seq<int>, qs: Queues) {
    && Ascending(keys)
    && Covered(side, keys, qs)
    && (forall p {:trigger qs[p]} | p in qs :: Key(side, p) in keys)
    && (forall p {:trigger qs[p]} | p in qs :: QueueOk(side, p, qs[p]))
  }

  /** Every queue holds a live order. */
  ghost predicate Busy(qs: Queues) {
    forall p {:trigger qs[p]} | p in qs :: Qty(qs[p]) > 0
  }

  /** The representation invariant of one side, without the heap. */
  ghost predicate SideOk(side: Side, keys: seq<int>, qs: Queues) {
    Shaped(side, keys, qs) && Busy(qs)
  }

  lemma {:induction false} SlotsConcat(side: Side, a: seq<int>, b: seq<int>, qs: Queues)
    requires Covered(side, a, qs) && Covered(side, b, qs)
    ensures Covered(side, a + b, qs)
    ensures Slots(side, a + b, qs) == Slots(side, a, qs) + Slots(side, b, qs)
  {
    if a == [] {
      assert a + b == b;
    } else {
      assert (a + b)[1..] == a[1..] + b;
      SlotsConcat(side, a[1..], b, qs);
    }
  }

  lemma {:induction false} SlotsFrame(side: Side, keys: seq<int>, qs: Queues, qs': Queues)
    requires Covered(side, keys, qs)
    requires forall k | k in keys :: Key(side, k) in qs' && qs'[Key(side, k)] == qs[Key(side, k)]
    ensures Covered(side, keys, qs') && Slots(side, keys, qs') == Slots(side, keys, qs)
  {
    if keys != [] {
      SlotsFrame(side, keys[1..], qs, qs');
    }
  }

  /** Slots at better prices than key `i`, and at worse ones. */
  ghost function Before(side: Side, keys: seq<int>, qs: Queues, i: nat): seq<Slot>
    requires i <= |keys| && Covered(side, keys, qs)
  {
    Slots(side, keys[..i], qs)
  }

  ghost function After(side: Side, keys: seq<int>, qs: Queues, i: nat): seq<Slot>
    requires i <= |keys| && Covered(side, keys, qs)
  {
    Slots(side, keys[i..], qs)
  }

  lemma {:induction false} SlotsSingle(side: Side, k: int, qs: Queues)
    requires Key(side, k) in qs
    ensures Covered(side, [k], qs) && Slots(side, [k], qs) == qs[Key(side, k)]
  {
    assert [k][1..] == [];
  }

  lemma {:induction false} InsertQueue(side: Side, keys: seq<int>, qs: Queues, i: nat, k: int, q: seq<Slot>)
    requires Covered(side, keys, qs) && i <= |keys| && k !in keys
    ensures var keys' := keys[..i] + [k] + keys[i..];
            var qs' := qs[Key(side, k) := q];
            Covered(side, keys', qs')
              && Slots(side, keys', qs') == Before(side, keys, qs, i) + q + After(side, keys, qs, i)
  {
    hide Slots;
    var qs' := qs[Key(side, k) := q];
    SlotsFrame(side, keys[..i], qs, qs');
    SlotsFrame(side, keys[i..], qs, qs');
    SlotsSingle(side, k, qs');
    SlotsConcat(side, keys[..i], [k], qs');
    SlotsConcat(side, keys[..i] + [k], keys[i..], qs');
  }

  /** Changing the queue at key `i` changes only that part of the side. */
  lemma {:induction false} ReplaceQueue(side: Side, keys: seq<int>, qs: Queues, i: nat, q: seq<Slot>)
    requires Ascending(keys) && Covered(side, keys, qs) && i < |keys|
    ensures var qs' := qs[Key(side, keys[i]) := q];
            Covered(side, keys, qs')
              && Slots(side, keys, qs') == Before(side, keys, qs, i) + q + After(side, keys, qs, i + 1)
  {
    var a, k, b := keys[..i], keys[i], keys[i + 1..];
    var rest := a + b;
    assert rest[..i] == a && rest[i..] == b;
    InsertQueue(side, rest, qs, i, k, q);
    assert a + [k] + b == keys;
  }

  lemma {:induction false} SplitQueue(side: Side, keys: seq<int>, qs: Queues, i: nat)
    requires Ascending(keys) && Covered(side, keys, qs) && i < |keys|
    ensures keys[i] in keys
    ensures Slots(side, keys, qs) == Before(side, keys, qs, i) + qs[Key(side, keys[i])] + After(side, keys, qs, i + 1)
  {
    assert keys[i] in keys;
    var p := Key(side, keys[i]);
    ReplaceQueue(side, keys, qs, i, qs[p]);
    assert qs[p := qs[p]] == qs;
  }

  lemma {:induction false} DropQueue(side: Side, keys: seq<int>, qs: Queues, i: nat)
    requires Ascending(keys) && Covered(side, keys, qs) && i < |keys|
    ensures var keys' := keys[..i] + keys[i + 1..];
            var qs' := qs - {Key(side, keys[i])};
            Covered(side, keys', qs')
              && Slots(side, keys', qs') == Before(side, keys, qs, i) + After(side, keys, qs, i + 1)
  {
    var qs' := qs - {Key(side, keys[i])};
    SlotsFrame(side, keys[..i], qs, qs');
    SlotsFrame(side, keys[i + 1..], qs, qs');
    SlotsConcat(side, keys[..i], keys[i + 1..], qs');
  }
}

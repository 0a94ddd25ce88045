/**
 What lazy deletion is bound to cost: a dead slot with a live one behind it is popped
 some day, unless its queue is rebuilt or dropped first. Each removal and each arrival
 changes that amount by a figure read off the queue at its price.
 */
module LazyCost {
  import opened OrderTypes
  import opened ListBook
  import opened PriceLevels
  import opened SideUpdates

  /** A level's queue is left alone up to this many dead entries. */
  const COMPACT_MIN_DEAD := 64

  /** The dead slots of a queue that a live one waits behind. */
  function Lead(q: seq<Slot>): nat {
    if Live(q) == [] then 0 else (if q[0].alive then 0 else 1) + Lead(q[1..])
  }

  /** The dead slots behind the last live one; the next arrival puts them in the lead. */
  function Trail(q: seq<Slot>): int {
    Dead(q) - Lead(q)
  }

  function Leads(side: Side, keys: seq<int>, qs: Queues): nat
    requires Covered(side, keys, qs)
  {
    if keys == [] then 0 else
      assert keys[0] in keys;
      Lead(qs[Key(side, keys[0])]) + Leads(side, keys[1..], qs)
  }

  // ----- One queue -----

  lemma {:induction false} LeadOfPopped(q: seq<Slot>)
    requires q != [] && Live(q) != []
    ensures Lead(q[1..]) == Lead(q) - if q[0].alive then 0 else 1
  {
  }

  lemma {:induction false} LeadOfReduced(q: seq<Slot>, s: Slot)
    requires q != [] && q[0].alive && s.alive
    ensures Lead(q[0 := s]) == Lead(q)
  {
    assert q[0 := s][1..] == q[1..];
  }

  /** A live slot at the back puts every dead one in the lead. */
  lemma {:induction false} LeadOfAppended(q: seq<Slot>, s: Slot)
    requires s.alive
    ensures Lead(q + [s]) == Dead(q)
  {
    Concat(q, [s]);
    Single(s);
    if q == [] {
      assert [] + [s] == [s] && [s][1..] == [];
    } else {
      assert (q + [s])[1..] == q[1..] + [s];
      LeadOfAppended(q[1..], s);
    }
  }

  lemma {:induction false} LeadOfCompacted(q: seq<Slot>)
    ensures Lead(Compacted(q)) == 0
  {
    if q != [] {
      LeadOfCompacted(q[1..]);
      if q[0].alive {
        assert ([q[0]] + Compacted(q[1..]))[1..] == Compacted(q[1..]);
      } else {
        assert Compacted(q) == Compacted(q[1..]);
      }
    }
  }

  // ----- One side -----

  lemma {:induction false} LeadsConcat(side: Side, a: seq<int>, b: seq<int>, qs: Queues)
    requires Covered(side, a, qs) && Covered(side, b, qs)
    ensures Covered(side, a + b, qs) && Leads(side, a + b, qs) == Leads(side, a, qs) + Leads(side, b, qs)
  {
    hide Lead;
    if a == [] {
      assert a + b == b;
    } else {
      assert (a + b)[1..] == a[1..] + b;
      LeadsConcat(side, a[1..], b, qs);
    }
  }

  lemma {:induction false} LeadsFrame(side: Side, keys: seq<int>, qs: Queues, qs': Queues)
    requires Covered(side, keys, qs)
    requires forall k | k in keys :: Key(side, k) in qs' && qs'[Key(side, k)] == qs[Key(side, k)]
    ensures Covered(side, keys, qs') && Leads(side, keys, qs') == Leads(side, keys, qs)
  {
    hide Lead;
    if keys != [] {
      LeadsFrame(side, keys[1..], qs, qs');
    }
  }

  lemma {:induction false} LeadsSingle(side: Side, k: int, qs: Queues)
    requires Key(side, k) in qs
    ensures Covered(side, [k], qs) && Leads(side, [k], qs) == Lead(qs[Key(side, k)])
  {
    hide Lead;
    assert [k][1..] == [];
  }

  lemma {:induction false} LeadsInserted(side: Side, keys: seq<int>, qs: Queues, i: nat, k: int, q: seq<Slot>)
    requires Covered(side, keys, qs) && i <= |keys| && k !in keys
    ensures var keys', qs' := keys[..i] + [k] + keys[i..], qs[Key(side, k) := q];
            Covered(side, keys', qs') && Leads(side, keys', qs') == Leads(side, keys, qs) + Lead(q)
  {
    hide Lead, Leads;
    var qs' := qs[Key(side, k) := q];
    LeadsFrame(side, keys[..i], qs, qs');
    LeadsFrame(side, keys[i..], qs, qs');
    LeadsSingle(side, k, qs');
    LeadsConcat(side, keys[..i], [k], qs');
    LeadsConcat(side, keys[..i] + [k], keys[i..], qs');
    LeadsConcat(side, keys[..i], keys[i..], qs);
    assert keys[..i] + keys[i..] == keys;
  }

  lemma {:induction false} LeadsDropped(side: Side, keys: seq<int>, qs: Queues, i: nat)
    requires Ascending(keys) && Covered(side, keys, qs) && i < |keys|
    ensures keys[i] in keys
    ensures var keys', qs' := keys[..i] + keys[i + 1..], qs - {Key(side, keys[i])};
            Covered(side, keys', qs') && Leads(side, keys', qs') == Leads(side, keys, qs) - Lead(qs[Key(side, keys[i])])
  {
    hide Lead, Leads;
    var k := keys[i];
    assert k in keys;
    var qs' := qs - {Key(side, k)};
    LeadsFrame(side, keys[..i], qs, qs');
    LeadsFrame(side, keys[i + 1..], qs, qs');
    LeadsConcat(side, keys[..i], keys[i + 1..], qs');
    var rest := keys[..i] + keys[i + 1..];
    LeadsInserted(side, rest, qs', i, k, qs[Key(side, k)]);
    assert rest[..i] + [k] + rest[i..] == keys;
    assert qs'[Key(side, k) := qs[Key(side, k)]] == qs;
  }

  lemma {:induction false} LeadsReplaced(side: Side, keys: seq<int>, qs: Queues, i: nat, q: seq<Slot>)
    requires Ascending(keys) && Covered(side, keys, qs) && i < |keys|
    ensures keys[i] in keys
    ensures var p := Key(side, keys[i]);
            && Covered(side, keys, qs[p := q])
            && Leads(side, keys, qs[p := q]) == Leads(side, keys, qs) - Lead(qs[p]) + Lead(q)
  {
    hide Lead, Leads;
    var k := keys[i];
    LeadsDropped(side, keys, qs, i);
    var rest, qs' := keys[..i] + keys[i + 1..], qs - {Key(side, k)};
    LeadsInserted(side, rest, qs', i, k, q);
    assert rest[..i] + [k] + rest[i..] == keys;
    assert qs'[Key(side, k) := q] == qs[Key(side, k) := q];
  }

  // ----- Removal and arrival, on the queues alone -----

  /** The queue with the slot of this sequence dead. */
  function Killed(q: seq<Slot>, n: nat): seq<Slot> {
    if q == [] then []
    else if q[0].open.sequence == n then [q[0].(alive := false)] + q[1..]
    else [q[0]] + Killed(q[1..], n)
  }

  lemma {:induction false} KilledIs(side: Side, price: int, q: seq<Slot>, j: nat)
    requires QueueOk(side, price, q) && j < |q|
    ensures Killed(q, q[j].open.sequence) == q[j := q[j].(alive := false)]
  {
    if j == 0 {
      assert q[0 := q[0].(alive := false)] == [q[0].(alive := false)] + q[1..];
    } else {
      TailOk(side, price, q);
      KilledIs(side, price, q[1..], j - 1);
      assert q[1..][j - 1] == q[j];
      assert q[j := q[j].(alive := false)] == [q[0]] + q[1..][j - 1 := q[j].(alive := false)];
    }
  }

  predicate Crowded(q: seq<Slot>) {
    Dead(q) > COMPACT_MIN_DEAD && 2 * Dead(q) > |q|
  }

  /** The queues once the order of this price and sequence is removed. */
  function Struck(qs: Queues, price: int, n: nat): Queues {
    if price !in qs then qs
    else
      var q := Killed(qs[price], n);
      if Qty(q) == 0 then qs - {price} else qs[price := if Crowded(q) then Compacted(q) else q]
  }

  /** How a removal changes what has been or is bound to be spent. */
  function StrikeCost(qs: Queues, price: int, n: nat): int {
    if price !in qs then 0
    else
      var q := Killed(qs[price], n);
      (if Qty(q) == 0 then 0 else if Crowded(q) then |q| else Lead(q)) - Lead(qs[price])
  }

  /** How an arrival does. */
  function RestCost(qs: Queues, price: int): int {
    if price in qs then Trail(qs[price]) else 0
  }

  /** A removal, level by level: dropped, rebuilt, or left with one more dead slot. */
  lemma {:induction false} StrikeAt(side: Side, keys: seq<int>, qs: Queues, i: nat, j: nat, q': seq<Slot>)
    requires Ascending(keys) && Covered(side, keys, qs) && i < |keys| && Key(side, keys[i]) in qs
    requires var q := qs[Key(side, keys[i])];
             QueueOk(side, Key(side, keys[i]), q) && j < |q| && q' == q[j := q[j].(alive := false)]
    ensures var p := Key(side, keys[i]);
            var n, cut := qs[p][j].open.sequence, keys[..i] + keys[i + 1..];
            && Struck(qs, p, n)
               == (if Qty(q') == 0 then qs - {p} else qs[p := if Crowded(q') then Compacted(q') else q'])
            && Covered(side, if Qty(q') == 0 then cut else keys, Struck(qs, p, n))
            && Leads(side, if Qty(q') == 0 then cut else keys, Struck(qs, p, n))
               + (if Qty(q') != 0 && Crowded(q') then |q'| else 0) == Leads(side, keys, qs) + StrikeCost(qs, p, n)
  {
    hide Lead, Leads, QueueOk, Compacted, Qty, Dead;
    var p := Key(side, keys[i]);
    KilledIs(side, p, qs[p], j);
    LeadsDropped(side, keys, qs, i);
    LeadOfCompacted(q');
    LeadsReplaced(side, keys, qs, i, if Crowded(q') then Compacted(q') else q');
  }

  /** Popping a dead slot off the best queue spends what was bound to be spent, if something live is behind it. */
  lemma {:induction false} PopLeads(side: Side, keys: seq<int>, qs: Queues)
    requires Shaped(side, keys, qs) && keys != [] && Key(side, keys[0]) in qs
    requires qs[Key(side, keys[0])] != [] && !qs[Key(side, keys[0])][0].alive
    ensures var p := Key(side, keys[0]);
            && Covered(side, keys, qs) && Covered(side, keys, qs[p := qs[p][1..]])
            && (Busy(qs) ==> Leads(side, keys, qs[p := qs[p][1..]]) == Leads(side, keys, qs) - 1)
  {
    hide Lead, Leads, QueueOk;
    var p := Key(side, keys[0]);
    var q := qs[p];
    LeadsReplaced(side, keys, qs, 0, q[1..]);
    if Busy(qs) {
      NoQtyNoLive(side, p, q);
      LeadOfPopped(q);
    }
  }

  lemma {:induction false} FillLead(side: Side, price: int, q: seq<Slot>, s: Slot)
    requires QueueOk(side, price, q) && q != [] && q[0].alive && s.alive
    ensures Lead(q[0 := s]) == Lead(q[1..]) == Lead(q) && (Qty(q[1..]) == 0 ==> Lead(q) == 0)
  {
    hide QueueOk, Qty, Dead;
    LeadOfReduced(q, s);
    LeadOfPopped(q);
    QtySplit(side, price, q);
  }

  /** A fill of the front order changes nothing, whether the order, or even its level, goes or stays. */
  lemma {:induction false} FillLeads(side: Side, keys: seq<int>, qs: Queues, s: Slot)
    requires SideOk(side, keys, qs) && keys != [] && Key(side, keys[0]) in qs && s.alive
    requires qs[Key(side, keys[0])] != [] && qs[Key(side, keys[0])][0].alive
    ensures var p, cut := Key(side, keys[0]), keys[..0] + keys[1..];
            var q := qs[p];
            && Covered(side, keys, qs) && Covered(side, keys, qs[p := q[0 := s]])
               && Covered(side, keys, qs[p := q[1..]])
            && Covered(side, cut, qs - {p})
            && Leads(side, keys, qs[p := q[0 := s]]) == Leads(side, keys, qs)
            && Leads(side, if Qty(q[1..]) == 0 then cut else keys, if Qty(q[1..]) == 0 then qs - {p}
               else qs[p := q[1..]])
               == Leads(side, keys, qs)
  {
    hide Leads, Lead, SideOk, Ascending, Covered, QueueOk, Qty, Live;
    var p := Key(side, keys[0]);
    var q := qs[p];
    KeyOfPrice(side, keys, qs, p);
    QueueAt(side, keys, qs, 0);
    FillLead(side, p, q, s);
    LeadsReplaced(side, keys, qs, 0, q[0 := s]);
    LeadsReplaced(side, keys, qs, 0, q[1..]);
    LeadsDropped(side, keys, qs, 0);
  }

  /** An arrival puts what trails in its queue in the lead. */
  lemma {:induction false} ArrivalLeads(side: Side, keys: seq<int>, qs: Queues, i: nat, k: int, s: Slot)
    requires SideOk(side, keys, qs) && s.alive
    requires if Key(side, k) in qs then i < |keys| && keys[i] == k else i <= |keys| && k !in keys
    ensures Covered(side, keys, qs)
    ensures var p := Key(side, k);
            var keys' := if p in qs then keys else keys[..i] + [k] + keys[i..];
            var qs' := qs[p := (if p in qs then qs[p] else []) + [s]];
            Covered(side, keys', qs') && Leads(side, keys', qs') == Leads(side, keys, qs) + RestCost(qs, p)
  {
    hide Lead, Leads, QueueOk, Qty;
    var q := if Key(side, k) in qs then qs[Key(side, k)] else [];
    LeadOfAppended(q, s);
    if Key(side, k) in qs {
      LeadsReplaced(side, keys, qs, i, q + [s]);
    } else {
      LeadsInserted(side, keys, qs, i, k, q + [s]);
    }
  }
}

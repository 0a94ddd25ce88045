/**
 One side of the price-level book as objects: entries shared by reference,
 a level per price with lazily deleted entries, and running totals.
 */
module BookSides {
  import opened OrderTypes
  import opened ListBook
  import opened PriceLevels
  import opened SideUpdates
  import opened LazyCost

  class Entry {
    const order: Order
    const sequence: nat
    const restedAt: real
    var remaining: int
    var alive: bool

    constructor (order: Order, remaining: int, sequence: nat, restedAt: real)
      ensures this.order == order && this.remaining == remaining
      ensures this.sequence == sequence && this.restedAt == restedAt && alive
    {
      this.order := order;
      this.remaining := remaining;
      this.sequence := sequence;
      this.restedAt := restedAt;
      alive := true;
    }

    function AsOpenOrder(): OpenOrder
      reads this
    {
      OpenOrder(order, remaining, sequence)
    }

    ghost function AsSlot(): Slot
      reads this
    {
      Slot(AsOpenOrder(), alive)
    }
  }

  class Level {
    var queue: seq<Entry>
    var quantity: int
    var dead: int

    constructor ()
      ensures queue == [] && quantity == 0 && dead == 0
    {
      queue := [];
      quantity := 0;
      dead := 0;
    }

    /** The queue's entries have the values `q`, and `quantity` is what is live among them. */
    ghost predicate Queues(q: seq<Slot>, entries: set<Entry>)
      reads this, entries
    {
      && |queue| == |q|
      && (forall i | 0 <= i < |q| :: queue[i] in entries && queue[i].AsSlot() == q[i])
      && quantity == Qty(q)
    }

    /** This level holds exactly the slots `q`, and both counters agree with them. */
    ghost predicate Holds(q: seq<Slot>, entries: set<Entry>)
      reads this, entries
    {
      Queues(q, entries) && dead == Dead(q)
    }
  }

  /** Where `k` is, or would be inserted, in ascending keys. */
  function BisectLeft(keys: seq<int>, k: int): (i: nat)
    requires Ascending(keys)
    ensures i <= |keys|
    ensures (forall x | 0 <= x < i :: keys[x] < k) && (forall x | i <= x < |keys| :: keys[x] >= k)
  {
    if keys == [] || keys[0] >= k then 0
    else
      var i := BisectLeft(keys[1..], k);
      assert forall x | 1 <= x < |keys| :: keys[x] == keys[1..][x - 1];
      i + 1
  }

  /** The entries of a queue that are still live, in order. */
  function LiveOnly(q: seq<Entry>): seq<Entry>
    reads q
  {
    if q == [] then [] else (if q[0].alive then [q[0]] else []) + LiveOnly(q[1..])
  }

  lemma {:induction false} LiveOnlySlots(q: seq<Entry>, s: seq<Slot>)
    requires |q| == |s| && forall i | 0 <= i < |q| :: q[i].AsSlot() == s[i]
    ensures |LiveOnly(q)| == |Compacted(s)|
    ensures forall i | 0 <= i < |LiveOnly(q)| :: LiveOnly(q)[i].AsSlot() == Compacted(s)[i]
    ensures forall e | e in q && e.alive :: e in LiveOnly(q)
    ensures forall e | e in LiveOnly(q) :: e in q
  {
    if q != [] {
      LiveOnlySlots(q[1..], s[1..]);
      assert forall e | e in q :: e == q[0] || e in q[1..];
    }
  }

  /** What one removal costs: the length of the queue if it is rebuilt, and nothing otherwise. */
  function CompactionCost(length: nat, dead: int, quantityLeft: int): nat {
    if quantityLeft != 0 && dead + 1 > COMPACT_MIN_DEAD && 2 * (dead + 1) > length then length else 0
  }

  class BookSide {
    const side: Side
    var keys: seq<int>
    var levels: map<int, Level>
    var totalQuantity: int

    ghost var queues: Queues          // the slots each level holds
    ghost var entries: set<Entry>     // every entry ever added
    ghost var nodes: set<Level>       // every level ever used
    ghost var removals: nat           // calls of Remove
    ghost var work: nat               // dead entries popped one by one, plus queue lengths compacted

    /** Every level is its own object and, outside `but`, holds its price's slots. */
    ghost predicate LinkedBut(but: set<int>)
      reads this, nodes, entries
    {
      && levels.Keys == queues.Keys
      && (forall p | p in levels :: levels[p] in nodes && (p !in but ==> levels[p].Holds(queues[p], entries)))
      && (forall p, r | p in levels && r in levels && p != r :: levels[p] != levels[r])
    }

    ghost predicate Linked()
      reads this, nodes, entries
    {
      LinkedBut({})
    }

    ghost predicate LevelsKnown()
      reads this
    {
      forall p | p in levels :: levels[p] in nodes
    }

    ghost predicate InQueue(e: Entry)
      reads this, nodes, entries
      requires LevelsKnown()
    {
      e.order.price in levels && e in levels[e.order.price].queue
    }

    /** An entry that left the book by a fill, a cancel or expiry is dead. */
    ghost predicate LiveQueued()
      reads this, nodes, entries
      requires LevelsKnown()
    {
      forall e | e in entries :: e.order.side == side && (e.alive ==> InQueue(e))
    }

    ghost predicate Summed()
      reads this
    {
      && SideOk(side, keys, queues)
      && totalQuantity == Qty(Slots(side, keys, queues))
      && work + 2 * Dead(Slots(side, keys, queues)) <= 2 * removals
    }

    ghost predicate Valid()
      reads this, nodes, entries
    {
      Linked() && LiveQueued() && Summed()
    }

    /** The live orders in priority order. */
    ghost function View(): seq<OpenOrder>
      reads this
      requires Summed()
    {
      PriceLevels.View(side, keys, queues)
    }

    /** How many dead entries are still queued. */
    ghost function DeadQueued(): nat
      reads this
      requires Summed()
    {
      Dead(Slots(side, keys, queues))
    }

    /** How many dead entries a live one waits behind. */
    ghost function Leading(): nat
      reads this
      requires Covered(side, keys, queues)
    {
      Leads(side, keys, queues)
    }

    constructor (side: Side)
      ensures Valid() && this.side == side && Leading() == 0 && queues == map[]
      ensures View() == [] && entries == {} && nodes == {} && removals == 0 && work == 0
    {
      this.side := side;
      keys := [];
      levels := map[];
      totalQuantity := 0;
      queues := map[];
      entries := {};
      nodes := {};
      removals := 0;
      work := 0;
    }

    /** The invariant, except that a level may have nothing live in it. */
    ghost predicate Loose()
      reads this, nodes, entries
    {
      && Linked() && LiveQueued() && Shaped(side, keys, queues)
      && totalQuantity == Qty(Slots(side, keys, queues))
      && work + 2 * Dead(Slots(side, keys, queues)) <= 2 * removals
    }

    /** The live orders of a side that is at least loosely in shape. */
    ghost function Listed(): seq<OpenOrder>
      reads this, nodes, entries
      requires Loose()
    {
      PriceLevels.View(side, keys, queues)
    }

    /** How many slots, live or dead, are queued. */
    ghost function Queued(): nat
      reads this, nodes, entries
      requires Loose()
    {
      |Slots(side, keys, queues)|
    }

    lemma LooseOrValid()
      ensures Valid() <==> Loose() && Busy(queues)
      ensures Valid() ==> View() == Listed()
    {
    }

    lemma ShapeCovers()
      requires Shaped(side, keys, queues)
      ensures Covered(side, keys, queues)
    {
    }

    /** Pop a dead entry off the front of the best level. */
    method PopDeadFront(price: int, level: Level)
      requires Loose() && keys != [] && price == Key(side, keys[0]) && price in levels && level == levels[price]
      requires level.queue != [] && !level.queue[0].alive
      modifies this`queues, this`work, level
      ensures Loose() && Listed() == old(Listed()) && (old(Busy(queues)) ==> Busy(queues))
      ensures level.queue == old(level.queue)[1..] && work == old(work) + 1 && Queued() == old(Queued()) - 1
      ensures Covered(side, keys, queues) && (old(Busy(queues)) ==> Leading() == old(Leading()) - 1)
    {

      hide Leads, Lead, Covered, Shaped, Busy, PriceLevels.View, Slots, QueueOk, Qty, Dead, Live;
      PopDead(side, keys, queues, 0);
      PopLeads(side, keys, queues);
      ghost var q := queues[price];
      PopDeadCounts(q);
      level.queue := level.queue[1..];
      level.dead := level.dead - 1;
      queues := queues[price := q[1..]];
      work := work + 1;
      assert level.Holds(q[1..], entries);
      assert Linked();
      assert LiveQueued();
    }

    /** Pop dead entries until the best level's queue is empty or starts with a live order. */
    method SkipDead(price: int, level: Level)
      requires Loose() && keys != [] && price == Key(side, keys[0]) && price in levels && level == levels[price]
      modifies this`queues, this`work, level
      ensures Loose() && Listed() == old(Listed()) && (old(Busy(queues)) ==> Busy(queues))
      ensures work == old(work) + old(Queued()) - Queued() && work >= old(work)
      ensures Covered(side, keys, queues) && (old(Busy(queues)) ==> work + Leading() == old(work + Leading()))
      ensures level.queue != [] ==> level.queue[0].alive
    {
      hide Linked, LiveQueued, Listed, Queued, Leading, Covered, Shaped, Busy, PriceLevels.View, Slots, QueueOk,
           Qty, Dead, Live;
      ShapeCovers();
      while level.queue != [] && !level.queue[0].alive
        invariant Loose() && Listed() == old(Listed()) && (old(Busy(queues)) ==> Busy(queues))
        invariant work == old(work) + old(Queued()) - Queued() && work >= old(work)
        invariant Covered(side, keys, queues) && (old(Busy(queues)) ==> work + Leading() == old(work + Leading()))
        decreases |level.queue|
      {
        PopDeadFront(price, level);
      }
    }

    /** The head of the listed orders, or null; slots and levels with nothing live in front of it are given up. */
    method Best() returns (entry: Entry?)
      requires Loose()
      modifies this`keys, this`levels, this`queues, this`work, nodes
      ensures Loose() && Listed() == old(Listed()) && (old(Valid()) ==> Valid())
      ensures entry == null <==> Listed() == []
      ensures entry != null ==> AtFront(entry) && entry.alive && entry.AsOpenOrder() == Listed()[0]
      ensures old(Valid()) ==> keys == old(keys) && levels == old(levels)
      ensures work == old(work) + old(Queued()) - Queued() && work >= old(work)
      ensures Covered(side, keys, queues) && (old(Valid()) ==> work + Leading() == old(work + Leading()))
    {
      hide Lead, Leads, Covered, Shaped, Busy, SideOk, PriceLevels.View, Slots, Qty, Dead, Live;
      LooseOrValid();
      ShapeCovers();
      ghost var busy := Busy(queues);
      while keys != []
        invariant Loose() && Listed() == old(Listed()) && (busy ==> Busy(queues))
        invariant (busy ==> keys == old(keys) && levels == old(levels)) && work == old(work) + old(Queued()) - Queued()
        invariant work >= old(work)
        invariant Covered(side, keys, queues) && (busy ==> work + Leading() == old(work + Leading()))
        decreases |keys|
      {
        ShapedQueueAt(side, keys, queues, 0);
        var price := Key(side, keys[0]);
        var level := levels[price];
        SkipDead(price, level);
        ShapedQueueAt(side, keys, queues, 0);
        LiveFront(side, keys, queues);
        if level.queue != [] {
          LooseOrValid();
          return level.queue[0];
        }
        DropEmpty(side, keys, queues);
        DropLevel(price);
        ShapeCovers();
      }
      LooseOrValid();
      EmptySide(side, queues);
      return null;
    }

    /** `entry` heads the queue at the best price. */
    ghost predicate AtFront(entry: Entry)
      reads this, nodes, entries
      requires Linked()
    {
      && entry in entries && keys != []
      && entry.order.price == Key(side, keys[0]) && entry.order.price in levels
      && levels[entry.order.price].queue != [] && levels[entry.order.price].queue[0] == entry
    }

    /** Without the level at `price` the others are as they were. */
    twostate lemma Dropped(price: int)
      requires old(LinkedBut({price})) && old(LiveQueued()) && price in old(levels)
      requires forall e | e in old(levels[price].queue) :: !e.alive
      requires levels == old(levels) - {price} && queues == old(queues) - {price}
      requires nodes == old(nodes) && entries == old(entries) && unchanged(nodes) && unchanged(entries)
      ensures Linked() && LiveQueued()
    {
      hide Qty, Dead;
      forall p | p in levels
        ensures levels[p].Holds(queues[p], entries)
      {
        assert old(levels[p].Holds(queues[p], entries));
      }
      forall e | e in entries && e.alive
        ensures InQueue(e)
      {
        assert old(InQueue(e));
      }
    }

    /** Forget the level at `price`, once nothing in it is live. */
    method DropLevel(price: int)
      requires LinkedBut({price}) && LiveQueued() && price in levels
      requires forall e | e in levels[price].queue :: e in entries && !e.alive
      requires Ascending(keys) && Key(side, price) in keys
      modifies this`keys, this`levels, this`queues
      ensures Linked() && LiveQueued()
      ensures queues == old(queues) - {price} && levels == old(levels) - {price}
      ensures forall i | 0 <= i < |old(keys)| && old(keys)[i] == Key(side, price) ::
                keys == old(keys)[..i] + old(keys)[i + 1..]
    {
      hide LinkedBut, LiveQueued, Key, BisectLeft;
      levels := levels - {price};
      queues := queues - {price};
      var index := BisectLeft(keys, Key(side, price));
      keys := keys[..index] + keys[index + 1..];
      Dropped(price);
    }

    /** A new level does not disturb the others. */
    twostate lemma Opened(price: int)
      requires old(Linked()) && price !in old(levels) && price in levels && fresh(levels[price])
      requires levels == old(levels)[price := levels[price]] && queues == old(queues)[price := []]
      requires nodes == old(nodes) + {levels[price]} && entries == old(entries)
      requires unchanged(old(nodes)) && unchanged(entries) && levels[price].Holds([], entries)
      ensures Linked()
    {
      hide Qty, Dead;
      forall p | p in levels
        ensures levels[p] in nodes && levels[p].Holds(queues[p], entries)
      {
        if p != price {
          assert old(levels[p].Holds(queues[p], entries));
        }
      }
    }

    twostate lemma StillQueuedIn(price: int)
      requires old(LevelsKnown()) && old(LiveQueued()) && LevelsKnown() && entries == old(entries) && unchanged(entries)
      requires levels.Keys == old(levels).Keys || levels.Keys == old(levels).Keys + {price}
      requires forall p | p in old(levels) && p != price ::
                 levels[p] == old(levels)[p] && levels[p].queue == old(levels[p].queue)
      requires price in old(levels) ==>
                 forall e | e in old(levels[price].queue) && e in entries && e.alive :: e in levels[price].queue
      ensures LiveQueued()
    {
    }

    /** A new, still empty level at `price`. */
    method OpenLevel(price: int) returns (level: Level, ghost index: nat)
      requires Linked() && LiveQueued() && Ascending(keys) && price !in levels && Key(side, price) !in keys
      modifies this`keys, this`levels, this`queues, this`nodes
      ensures Linked() && LiveQueued()
      ensures price in levels && levels[price] == level && nodes == old(nodes) + {level} && fresh(level)
      ensures queues == old(queues)[price := []]
      ensures index <= |old(keys)| && keys == old(keys)[..index] + [Key(side, price)] + old(keys)[index..]
      ensures forall x | 0 <= x < index :: old(keys)[x] < Key(side, price)
      ensures forall x | index <= x < |old(keys)| :: old(keys)[x] > Key(side, price)
    {
      hide Qty, Dead, LiveQueued;
      NoSlots();
      Known();
      level := new Level();
      assert level.Holds([], entries);
      hide Level.Holds;
      levels := levels[price := level];
      var i := BisectLeft(keys, Key(side, price));
      index := i;
      keys := keys[..i] + [Key(side, price)] + keys[i..];
      queues := queues[price := []];
      nodes := nodes + {level};
      Opened(price);
      StillQueuedIn(price);
    }

    lemma Known()
      requires Linked()
      ensures LevelsKnown()
    {
    }

    /** A new entry at the back of one level leaves every other level holding its slots. */
    twostate lemma OthersHoldStill(price: int, new entry: Entry)
      requires old(Linked()) && levels == old(levels) && nodes == old(nodes) && entries == old(entries) + {entry}
      requires price in levels
      requires queues.Keys == old(queues.Keys) && forall p | p in queues && p != price :: queues[p] == old(queues)[p]
      requires forall l | l in nodes && l != levels[price] :: unchanged(l)
      requires forall e | e in old(entries) :: unchanged(e)
      ensures LinkedBut({price})
    {
      hide Qty, Dead;
      forall p | p in levels && p != price
        ensures levels[p].Holds(queues[p], entries)
      {
        assert old(levels[p].Holds(queues[p], entries));
      }
    }

    /** The new entry is queued, and so is every live one that was. */
    twostate lemma QueuedToo(price: int, new entry: Entry)
      requires old(LevelsKnown()) && old(LiveQueued()) && levels == old(levels) && nodes == old(nodes)
      requires entries == old(entries) + {entry} && price in levels && entry.order.price == price
      requires entry.order.side == side
      requires forall l | l in nodes && l != levels[price] :: unchanged(l)
      requires levels[price].queue == old(levels[price].queue) + [entry]
      requires forall e | e in old(entries) :: unchanged(e)
      ensures LevelsKnown() && LiveQueued()
    {
      forall e | e in entries && e.alive
        ensures InQueue(e)
      {
        if e != entry {
          assert old(InQueue(e));
        }
      }
    }

    /** A level's slots with one more at the back. */
    twostate lemma OneMore(price: int, new entry: Entry)
      requires old(Linked()) && price in old(levels) && price in old(queues) && levels == old(levels)
      requires entries == old(entries) + {entry}
      requires forall e | e in old(entries) :: unchanged(e)
      requires var l := levels[price];
               && l.queue == old(l.queue) + [entry] && entry.alive
               && l.quantity == old(l.quantity) + entry.remaining && l.dead == old(l.dead)
      ensures levels[price].Holds(old(queues[price]) + [entry.AsSlot()], entries)
    {
      hide Qty, Dead;
      var q := old(queues[price]);
      assert old(levels[price].Holds(q, entries));
      Concat(q, [entry.AsSlot()]);
      Single(entry.AsSlot());
    }

    /** Queue `entry` at the back of its level. */
    method Append(level: Level, entry: Entry)
      requires Linked() && LiveQueued() && entry.order.price in levels && levels[entry.order.price] == level
      requires entry !in entries && entry.alive && entry.order.side == side
      modifies this`queues, this`entries, this`totalQuantity, level
      ensures Linked() && LiveQueued()
      ensures queues == old(queues)[entry.order.price := old(queues)[entry.order.price] + [entry.AsSlot()]]
      ensures entries == old(entries) + {entry} && totalQuantity == old(totalQuantity) + entry.remaining
    {
      hide Qty, Dead, LinkedBut, LiveQueued, Level.Queues;
      var price := entry.order.price;
      LevelHolds(price);
      level.queue := level.queue + [entry];
      level.quantity := level.quantity + entry.remaining;
      totalQuantity := totalQuantity + entry.remaining;
      queues := queues[price := queues[price] + [entry.AsSlot()]];
      entries := entries + {entry};
      OneMore(price, entry);
      OthersHoldStill(price, entry);
      QueuedToo(price, entry);
      LinkedAgain(price);
    }

    /** What arrival order means for the slots. */
    lemma SlotsBelow(n: nat)
      requires Linked() && forall e | e in entries :: e.sequence < n
      ensures levels.Keys == queues.Keys && SequencesBelow(queues, n)
      ensures forall p | p in levels :: levels[p] in nodes
    {
    }

    method Add(entry: Entry)
      requires Valid() && entry !in entries && entry.alive && entry.order.side == side && entry.remaining > 0
      requires forall e | e in entries :: e.sequence < entry.sequence
      modifies this, nodes
      ensures Valid() && fresh(nodes - old(nodes))
      ensures View() == InsertSorted(old(View()), entry.AsOpenOrder())
      ensures entries == old(entries) + {entry} && removals == old(removals) && work == old(work)
      ensures Leading() == old(Leading()) + RestCost(old(queues), entry.order.price)
    {
      hide Leads, RestCost, SideOk, PriceLevels.View, Slots, QueueOk, Qty, Dead, Live, Ascending, Covered, Linked,
           LiveQueued;
      var price := entry.order.price;
      ghost var s := entry.AsSlot();
      KeyOfPrice(side, keys, queues, price);
      SlotsBelow(entry.sequence);
      ghost var keys0, queues0 := keys, queues;
      ghost var after := queues0[price := if price in queues0 then queues0[price] + [s] else [s]];
      var level;
      if price !in levels {
        ghost var i;
        level, i := OpenLevel(price);
        AddQueue(side, keys0, queues0, i, Key(side, price), s);
        ArrivalLeads(side, keys0, queues0, i, Key(side, price), s);
        assert queues[price] + [s] == [s];
        assert queues[price := [s]] == after;
      } else {
        level := levels[price];
        ghost var i :| 0 <= i < |keys| && keys[i] == Key(side, price);
        AddToQueue(side, keys, queues, i, s);
        ArrivalLeads(side, keys0, queues0, i, Key(side, price), s);
      }
      assert fresh(nodes - old(nodes));
      Append(level, entry);
      assert entry.AsSlot() == s;
      assert queues == after;
      assert Summed();
    }

    lemma LevelHolds(price: int)
      requires Linked() && price in levels
      ensures LevelsKnown() && levels.Keys == queues.Keys && levels[price].Holds(queues[price], entries)
      ensures forall p | p in levels && p != price :: levels[p] != levels[price]
    {
    }

    lemma LinkedAgain(price: int)
      requires LinkedBut({price}) && price in levels && price in queues && levels[price].Holds(queues[price], entries)
      ensures Linked()
    {
    }

    lemma LinkedAnyway(price: int)
      requires Linked()
      ensures LinkedBut({price})
    {
    }

    /** A level without live quantity holds no live entry. */
    lemma NothingLive(price: int)
      requires LinkedBut({price}) && price in levels && levels[price].Queues(queues[price], entries)
      requires QueueOk(side, price, queues[price]) && levels[price].quantity == 0
      ensures forall e | e in levels[price].queue :: e in entries && !e.alive
    {
      NoQtyNoLive(side, price, queues[price]);
      var l := levels[price];
      forall i | 0 <= i < |l.queue|
        ensures l.queue[i] in entries && !l.queue[i].alive
      {
        assert !queues[price][i].alive;
        assert l.queue[i].AsSlot() == queues[price][i];
      }
    }

    /** `entry` is queued at position `i` of the level at `price` and nowhere else. */
    ghost predicate OnlyAt(entry: Entry, price: int, i: nat)
      reads this, nodes
      requires LevelsKnown()
    {
      && price in levels && i < |levels[price].queue| && levels[price].queue[i] == entry
      && (forall j {:trigger levels[price].queue[j]} | 0 <= j < |levels[price].queue| && j != i ::
         levels[price].queue[j] != entry)
      && (forall p | p in levels && p != price :: entry !in levels[p].queue)
    }

    /** No entry is queued twice: sequences increase within a queue, and prices differ across queues. */
    lemma QueuedOnce(price: int, i: nat)
      requires Linked() && SideOk(side, keys, queues) && price in levels && i < |levels[price].queue|
      ensures OnlyAt(levels[price].queue[i], price, i) && levels[price].queue[i].order.price == price
    {
      hide Ascending, Covered, Qty, Dead;
      var entry := levels[price].queue[i];
      assert entry.AsSlot() == queues[price][i];
      assert QueueOk(side, price, queues[price]);
      forall p | p in levels && p != price
        ensures entry !in levels[p].queue
      {
        assert QueueOk(side, p, queues[p]);
        forall j | 0 <= j < |levels[p].queue|
          ensures levels[p].queue[j] != entry
        {
          assert levels[p].queue[j].AsSlot() == queues[p][j];
        }
      }
      forall j | 0 <= j < |levels[price].queue| && j != i
        ensures levels[price].queue[j] != entry
      {
        assert levels[price].queue[j].AsSlot() == queues[price][j];
      }
    }

    /** Only this entry, and the level at its price, have changed. */
    twostate predicate OnlyTouched(price: int, new entry: Entry)
      reads this, nodes, entries
    {
      && levels == old(levels) && nodes == old(nodes) && entries == old(entries) && price in levels
      && queues.Keys == old(queues.Keys)
      && (forall p | p in queues && p != price :: queues[p] == old(queues)[p])
      && (forall p | p in levels && p != price :: entry !in old(levels[p].queue))
      && (forall l | l in nodes && l != levels[price] :: unchanged(l))
      && (forall e | e in entries && e != entry :: unchanged(e))
    }

    /** Such a change leaves every other level holding its slots. */
    twostate lemma OthersHold(price: int, new entry: Entry)
      requires old(Linked()) && OnlyTouched(price, entry)
      ensures LinkedBut({price})
    {
      hide Qty, Dead;
      forall p | p in levels && p != price
        ensures levels[p].Holds(queues[p], entries)
      {
        var level := levels[p];
        assert old(level.Holds(queues[p], entries));
        forall i | 0 <= i < |queues[p]|
          ensures level.queue[i] in entries && level.queue[i].AsSlot() == queues[p][i]
        {
          assert level.queue[i] in old(level.queue) && level.queue[i] != entry;
        }
      }
    }

    /** No queue has changed and no entry has come alive. */
    twostate lemma StillQueued()
      requires old(LevelsKnown()) && old(LiveQueued()) && levels == old(levels) && nodes == old(nodes)
      requires entries == old(entries)
      requires forall l | l in nodes :: l.queue == old(l.queue)
      requires forall e | e in entries :: e.alive ==> old(e.alive)
      ensures LevelsKnown() && LiveQueued()
    {
    }

    /** The level at `price` with its i-th entry marked dead. */
    twostate lemma KilledAt(price: int, new i: nat)
      requires old(Linked()) && levels == old(levels) && entries == old(entries) && price in levels
      requires price in old(queues)
      requires i < |levels[price].queue| && levels[price].queue == old(levels[price].queue)
      requires forall j {:trigger levels[price].queue[j]} |
                 0 <= j < |levels[price].queue| && j != i :: levels[price].queue[j] != levels[price].queue[i]
      requires old(levels[price].queue[i].alive) && !levels[price].queue[i].alive
      requires levels[price].queue[i].remaining == old(levels[price].queue[i].remaining)
      requires levels[price].quantity == old(levels[price].quantity) - levels[price].queue[i].remaining
      requires levels[price].dead == old(levels[price].dead)
      requires forall e | e in entries && e != levels[price].queue[i] ::
                 e.alive == old(e.alive) && e.remaining == old(e.remaining)
      ensures |old(queues[price])| == |levels[price].queue|
      ensures old(queues[price])[i] == old(levels[price].queue[i].AsSlot())
      ensures var q' := old(queues[price])[i := old(levels[price].queue[i].AsSlot()).(alive := false)];
              levels[price].Queues(q', entries) && levels[price].dead + 1 == Dead(q')
    {
      hide Qty, Dead;
      var level, q := levels[price], old(queues[price]);
      KillCounts(q, i);
      assert old(level.queue[i].AsSlot()) == q[i];
      forall j | 0 <= j < |q| && j != i
        ensures level.queue[j] in entries && level.queue[j].AsSlot() == q[j]
      {
        assert old(level.queue[j].AsSlot()) == q[j];
      }
    }

    /** Take `quantity` off the front order of the best level. */
    method ReduceBest(level: Level, entry: Entry, quantity: int)
      requires Linked() && LiveQueued() && AtFront(entry) && level == levels[entry.order.price] && entry.alive
      requires OnlyAt(entry, entry.order.price, 0)
      modifies this`queues, this`totalQuantity, level`quantity, entry`remaining
      ensures Linked() && LiveQueued() && AtFront(entry) && OnlyAt(entry, entry.order.price, 0)
      ensures entry.remaining == old(entry.remaining) - quantity && totalQuantity == old(totalQuantity) - quantity
      ensures old(queues[entry.order.price]) != [] && old(queues[entry.order.price][0]) == old(entry.AsSlot())
      ensures queues == old(queues)[entry.order.price := old(queues[entry.order.price])[0 := entry.AsSlot()]]
    {
      hide Qty, Dead, LinkedBut;
      ghost var price := entry.order.price;
      LevelHolds(price);
      ghost var q := queues[price];
      entry.remaining := entry.remaining - quantity;
      level.quantity := level.quantity - quantity;
      totalQuantity := totalQuantity - quantity;
      SetFrontCounts(q, entry.AsSlot());
      queues := queues[price := q[0 := entry.AsSlot()]];
      OthersHold(price, entry);
      LinkedAgain(price);
    }

    /** Take the filled front order off its queue. */
    method PopBest(level: Level, entry: Entry)
      requires Linked() && LiveQueued() && AtFront(entry) && level == levels[entry.order.price]
      requires entry.alive && entry.remaining == 0 && OnlyAt(entry, entry.order.price, 0)
      modifies this`queues, level`queue, entry`alive
      ensures Linked() && LiveQueued() && !entry.alive
      ensures old(queues[entry.order.price]) != []
      ensures queues == old(queues)[entry.order.price := old(queues[entry.order.price])[1..]]
    {
      ghost var price := entry.order.price;
      ghost var q := queues[price];
      entry.alive := false;
      level.queue := level.queue[1..];
      queues := queues[price := q[1..]];
      assert level.Holds(queues[price], entries);
    }

    /** Trade `quantity` with the entry in front; whether nothing of it is left. */
    method FillBest(entry: Entry, quantity: int) returns (filled: bool)
      requires Valid() && AtFront(entry) && entry.alive && 0 < quantity <= entry.remaining
      modifies this`keys, this`levels, this`queues, this`totalQuantity, nodes, entry
      ensures Valid()
      ensures filled <==> quantity == old(entry.remaining)
      ensures entry.remaining == old(entry.remaining) - quantity && entry.alive == !filled
      ensures old(View()) != []
      ensures old(View()) == [old(entry.AsOpenOrder())] + old(View())[1..]
      ensures View() == (if filled then [] else [entry.AsOpenOrder()]) + old(View())[1..]
      ensures Leading() == old(Leading())
    {
      hide Leads, SideOk, PriceLevels.View, Slots, QueueOk, Qty, Dead, Live, Ascending, Covered, LinkedBut, LiveQueued;
      var level := levels[entry.order.price];
      QueuedOnce(entry.order.price, 0);
      KeyOfPrice(side, keys, queues, entry.order.price);
      LevelHolds(entry.order.price);
      ghost var price, q0, queues0 := entry.order.price, queues[entry.order.price], queues;
      ReduceBest(level, entry, quantity);
      FillLeads(side, keys, queues0, entry.AsSlot());
      if entry.remaining != 0 {
        ghost var rest := FillHead(side, keys, queues0, entry.remaining, entry.AsSlot());
        return false;
      }
      PopBest(level, entry);
      assert queues == queues0[price := q0[1..]];
      LevelHolds(price);
      TailOk(side, price, q0);
      if level.quantity == 0 {
        DropHead(side, keys, queues0);
        LinkedAnyway(price);
        NothingLive(price);
        DropLevel(entry.order.price);
        assert queues == queues0 - {price};
      } else {
        PopHead(side, keys, queues0);
      }
      return true;
    }

    /** Mark a queued entry dead and take its quantity off the totals; `dead` is not counted yet. */
    method Kill(level: Level, entry: Entry, ghost i: nat)
      requires Linked() && LiveQueued() && OnlyAt(entry, entry.order.price, i)
      requires level == levels[entry.order.price] && entry.alive
      modifies this`queues, this`totalQuantity, this`removals, level`quantity, entry`alive
      ensures LinkedBut({entry.order.price}) && LiveQueued() && !entry.alive && removals == old(removals) + 1
      ensures i < |old(queues[entry.order.price])| && old(queues[entry.order.price][i]) == old(entry.AsSlot())
      ensures queues ==
                old(queues)[entry.order.price :=
                old(queues[entry.order.price])[i := old(entry.AsSlot()).(alive := false)]]
      ensures level.Queues(queues[entry.order.price], entries) && level.dead + 1 == Dead(queues[entry.order.price])
      ensures totalQuantity == old(totalQuantity) - entry.remaining
      ensures level.quantity == old(level.quantity) - entry.remaining
    {
      hide Qty, Dead, LinkedBut, LiveQueued, Level.Queues;
      ghost var price := entry.order.price;
      LevelHolds(price);
      ghost var q := queues[price];
      QueueLength(level, q);
      ghost var s := entry.AsSlot();
      removals := removals + 1;
      entry.alive := false;
      level.quantity := level.quantity - entry.remaining;
      totalQuantity := totalQuantity - entry.remaining;
      queues := queues[price := q[i := s.(alive := false)]];
      KilledAt(price, i);
      OthersHold(price, entry);
      StillQueued();
    }

    lemma QueueLength(level: Level, q: seq<Slot>)
      requires level.Holds(q, entries)
      ensures |level.queue| == |q|
    {
    }

    method CountDead(ghost price: int, level: Level)
      requires LinkedBut({price}) && LiveQueued() && price in levels && level == levels[price]
      requires level.Queues(queues[price], entries) && level.dead + 1 == Dead(queues[price])
      modifies level`dead
      ensures Linked() && LiveQueued() && level.dead == old(level.dead) + 1
    {
      hide Qty, Dead;
      level.dead := level.dead + 1;
      assert level.Holds(queues[price], entries);
    }

    /** Every other level still holds its slots. */
    twostate lemma OneLevel(price: int)
      requires old(Linked()) && levels == old(levels) && nodes == old(nodes) && entries == old(entries)
      requires price in levels
      requires queues.Keys == old(queues.Keys) && forall p | p in queues && p != price :: queues[p] == old(queues)[p]
      requires unchanged(entries) && forall l | l in nodes && l != levels[price] :: unchanged(l)
      ensures LinkedBut({price})
    {
      hide Qty, Dead;
      forall p | p in levels && p != price
        ensures levels[p].Holds(queues[p], entries)
      {
        assert old(levels[p].Holds(queues[p], entries));
      }
    }

    /** A queue that keeps its live entries keeps every live entry queued. */
    twostate lemma StillIn(price: int)
      requires old(LevelsKnown()) && old(LiveQueued()) && levels == old(levels) && nodes == old(nodes)
      requires entries == old(entries)
      requires unchanged(entries) && price in levels && forall l | l in nodes && l != levels[price] :: unchanged(l)
      requires forall e | e in old(levels[price].queue) && e.alive :: e in levels[price].queue
      ensures LevelsKnown() && LiveQueued()
    {
      forall e | e in entries && e.alive
        ensures InQueue(e)
      {
        assert old(InQueue(e));
      }
    }

    /** A queue's live entries hold its slots without the dead ones. */
    lemma LiveSlots(level: Level, q: seq<Slot>, live: seq<Entry>)
      requires level.Holds(q, entries) && live == LiveOnly(level.queue)
      ensures |live| == |Compacted(q)| && Qty(Compacted(q)) == Qty(q) && Dead(Compacted(q)) == 0
      ensures forall i | 0 <= i < |live| :: live[i] in entries && live[i].AsSlot() == Compacted(q)[i]
      ensures forall e | e in level.queue && e.alive :: e in live
    {
      hide Qty, Dead, Compacted, LiveOnly;
      CompactCounts(q);
      LiveOnlySlots(level.queue, q);
      assert forall i | 0 <= i < |live| :: live[i] in live;
    }

    /** Rebuild a level's queue from its live entries. */
    method Compact(ghost price: int, level: Level)
      requires Linked() && LiveQueued() && price in levels && level == levels[price]
      modifies this`queues, this`work, level
      ensures Linked() && LiveQueued()
      ensures queues == old(queues)[price := Compacted(old(queues[price]))]
      ensures work == old(work) + |old(level.queue)| && level.dead == 0
    {
      hide Qty, Dead, Compacted, LiveOnly, LinkedBut, LiveQueued;
      LevelHolds(price);
      ghost var q := queues[price];
      var live := LiveOnly(level.queue);
      LiveSlots(level, q, live);
      work := work + |level.queue|;
      level.queue := live;
      level.dead := 0;
      queues := queues[price := Compacted(q)];
      OneLevel(price);
      StillIn(price);
      LinkedAgain(price);
    }

    /** A live entry is queued exactly once, at a listed price. */
    lemma LocateEntry(entry: Entry) returns (i: nat, j: nat)
      requires Valid() && entry in entries && entry.alive
      ensures var price := entry.order.price;
              && LevelsKnown() && levels.Keys == queues.Keys && price in levels
              && OnlyAt(entry, price, j)
              && i < |keys| && keys[i] == Key(side, price) && keys[i] in keys && Key(side, keys[i]) == price
              && Ascending(keys) && Covered(side, keys, queues) && QueueOk(side, price, queues[price])
              && j < |queues[price]| && queues[price][j] == entry.AsSlot()
    {
      hide SideOk, QueueOk, Qty, Dead, Slots, LinkedBut;
      var price := entry.order.price;
      LevelHolds(price);
      j :| 0 <= j < |levels[price].queue| && levels[price].queue[j] == entry;
      QueuedOnce(price, j);
      KeyOfPrice(side, keys, queues, price);
      i :| 0 <= i < |keys| && keys[i] == Key(side, price);
    }

    /** Take one live entry off this side, wherever it is queued. */
    method Remove(entry: Entry) returns (ghost n: nat)
      requires Valid() && entry in entries && entry.alive
      modifies this`keys, this`levels, this`queues, this`totalQuantity, this`removals, this`work, nodes, entry`alive
      ensures Valid() && !entry.alive && removals == old(removals) + 1
      ensures n < |old(View())| && old(View())[n] == old(entry.AsOpenOrder())
      ensures View() == RemoveAt(old(View()), n)
      ensures var p := entry.order.price;
              && p in old(levels)
              && work == old(work)
                 + CompactionCost(|old(levels[p].queue)|, old(levels[p].dead),
                 old(levels[p].quantity) - entry.remaining)
              && (p in levels ==> levels[p].dead <= COMPACT_MIN_DEAD || 2 * levels[p].dead <= |levels[p].queue|)
              && queues == Struck(old(queues), p, entry.sequence)
              && work + Leading() == old(work + Leading()) + StrikeCost(old(queues), p, entry.sequence)
    {
      hide Leads, Struck, StrikeCost, SideOk, PriceLevels.View, Slots, QueueOk, Qty, Dead, Live, Ascending,
           Covered, Compacted, LinkedBut, LiveQueued, Rank;
      ghost var i, j := LocateEntry(entry);
      var price := entry.order.price;
      var level := levels[price];
      ghost var keys0, queues0, q := keys, queues, queues[price];
      ghost var q' := q[j := q[j].(alive := false)];
      n := Rank(side, keys, queues, i, j);
      StrikeAt(side, keys, queues, i, j, q');
      Kill(level, entry, j);
      KillSlot(side, price, q, j, q[j].(alive := false));
      if level.quantity == 0 {
        // No live quantity: what is still queued here can go with the level.
        RemoveWithLevel(side, keys0, queues0, i, j, q');
        NothingLive(price);
        DropLevel(price);
        assert queues == queues0 - {price};
        return;
      }
      RemoveKeepingLevel(side, keys0, queues0, i, j, q');
      CountDead(price, level);
      LevelHolds(price);
      if level.dead > COMPACT_MIN_DEAD && level.dead * 2 > |level.queue| {
        Compact(price, level);
        assert queues == queues0[price := Compacted(q')];
      }
    }

    /** The live entries in priority order. */
    method LiveEntries() returns (r: seq<OpenOrder>)
      requires Valid()
      ensures r == View()
    {
      hide SideOk, Qty, Dead, QueueOk, Slots, Live, LiveQueued;
      KeyOfPrice(side, keys, queues, 0);
      NoLevels();
      r := [];
      for i := 0 to |keys|
        invariant r == Live(Slots(side, keys[..i], queues))
      {
        KeyAt(i);
        NextLevel(i);
        var level := levels[Key(side, keys[i])];
        ghost var q := queues[Key(side, keys[i])];
        ghost var r0 := r;
        assert q[..0] == [] && Live([]) == [] by { NoSlots(); }
        for j := 0 to |level.queue|
          invariant r == r0 + Live(q[..j])
        {
          var entry := level.queue[j];
          assert entry.AsSlot() == q[j];
          LiveUpTo(q, j);
          if entry.alive {
            r := r + [entry.AsOpenOrder()];
          }
        }
        assert q[..|level.queue|] == q;
      }
      assert keys[..|keys|] == keys;
    }

    lemma KeyAt(i: nat)
      requires Valid() && i < |keys|
      ensures keys[i] in keys && Key(side, keys[i]) in levels && Key(side, keys[i]) in queues
      ensures Covered(side, keys, queues)
      ensures QueueOk(side, Key(side, keys[i]), queues[Key(side, keys[i])]) && Qty(queues[Key(side, keys[i])]) > 0
      ensures levels[Key(side, keys[i])].Holds(queues[Key(side, keys[i])], entries)
    {
      assert keys[i] in keys;
    }

    /** The slots of the first `i + 1` levels. */
    lemma NextLevel(i: nat)
      requires Covered(side, keys, queues) && i < |keys| && Key(side, keys[i]) in queues
      ensures Slots(side, keys[..i + 1], queues) == Slots(side, keys[..i], queues) + queues[Key(side, keys[i])]
      ensures Live(Slots(side, keys[..i + 1], queues))
                == Live(Slots(side, keys[..i], queues)) + Live(queues[Key(side, keys[i])])
    {
      assert keys[..i + 1] == keys[..i] + [keys[i]];
      SlotsConcat(side, keys[..i], [keys[i]], queues);
      assert [keys[i]][1..] == [];
      Concat(Slots(side, keys[..i], queues), queues[Key(side, keys[i])]);
    }

    /** Price and live quantity of each level, best first. */
    method BookLevels() returns (r: seq<BookLevel>)
      requires Valid()
      ensures r == LevelsOf(View())
    {
      hide SideOk, Qty, Dead, QueueOk, Slots, Live, LevelsOf, LiveQueued;
      KeyOfPrice(side, keys, queues, 0);
      NoLevels();
      r := [];
      for i := 0 to |keys|
        invariant |r| == i && forall x | 0 <= x < i :: r[x].price == Key(side, keys[x])
        invariant r == LevelsOf(Live(Slots(side, keys[..i], queues)))
      {
        var price := Key(side, keys[i]);
        KeyAt(i);
        NextLevel(i);
        ghost var q := queues[price];
        LiveRun(q, price);
        assert forall v | v in r :: v.price != price;
        LevelsOfRun(Live(Slots(side, keys[..i], queues)), Live(q), price);
        r := r + [BookLevel(price, levels[price].quantity)];
      }
      assert keys[..|keys|] == keys;
    }

    lemma NoLevels()
      requires Covered(side, keys, queues)
      ensures Covered(side, keys[..0], queues)
      ensures Live(Slots(side, keys[..0], queues)) == [] && LevelsOf([]) == []
    {
    }

    /** A level's live orders: some, all at its price, adding up to its quantity. */
    lemma LiveRun(q: seq<Slot>, price: int)
      requires QueueOk(side, price, q) && Qty(q) > 0
      ensures Live(q) != [] && Total(Live(q)) == Qty(q)
      ensures forall o | o in Live(q) :: o.order.price == price
    {
      NoQtyNoLive(side, price, q);
      LiveSorted(side, price, q);
      QtyIsTotal(q);
    }

    /** Every live entry is in the list. */
    lemma LiveIsListed(entry: Entry)
      requires Valid() && entry in entries && entry.alive
      ensures entry.AsOpenOrder() in View()
    {
      hide SideOk, Slots, QueueOk, Qty, Dead, Live;
      var i, j := LocateEntry(entry);
      var q := queues[entry.order.price];
      ReplaceQueueCounts(side, keys, queues, i, q);
      LiveFrom(q);
      assert q[j].open in Live(q);
    }

    /** The listed orders are exactly the live entries. */
    lemma ListedIffLive(o: OpenOrder)
      requires Valid()
      ensures o in View() <==> exists e :: e in entries && e.alive && e.AsOpenOrder() == o
    {
      hide SideOk, Slots, QueueOk, Qty, Dead, Live, LiveQueued;
      if e :| e in entries && e.alive && e.AsOpenOrder() == o {
        LiveIsListed(e);
      }
      if o in View() {
        var i, j := SlotOf(o);
        var level := levels[Key(side, keys[i])];
        assert level.queue[j].AsSlot() == queues[Key(side, keys[i])][j];
      }
    }

    /** Where a listed order is queued. */
    lemma SlotOf(o: OpenOrder) returns (i: nat, j: nat)
      requires Valid() && o in View()
      ensures i < |keys| && Key(side, keys[i]) in levels && Key(side, keys[i]) in queues
      ensures var level, q := levels[Key(side, keys[i])], queues[Key(side, keys[i])];
              && level.Holds(q, entries) && j < |q| && q[j].alive && q[j].open == o
    {
      hide SideOk, QueueOk, Qty, Dead, Live, LiveQueued;
      KeyOfPrice(side, keys, queues, 0);
      i, j := SlotIn(side, keys, queues, o);
      KeyAt(i);
    }

    /** The running total is the live quantity of the list. */
    lemma TotalIsRunning()
      requires Valid()
      ensures totalQuantity == Total(View())
    {
      hide Qty, Live, Slots;
      QtyIsTotal(Slots(side, keys, queues));
    }
  }
}

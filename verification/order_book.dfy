/** The price-level order book: two sides, an order-id index, an arrival queue for expiry, and a trade tape. */
module OrderBooks {
  import opened OrderTypes
  import opened ListBook
  import opened BookSpec
  import opened BookFacts
  import opened BookSides
  import opened LazyCost
  import opened PriceLevels
  import opened MatchFacts

  /** The queues of both sides, dead slots included. */
  datatype Shelves = Shelves(bids: Queues, asks: Queues) {
    function Of(side: Side): Queues {
      if side.BUY? then bids else asks
    }

    function With(side: Side, qs: Queues): Shelves {
      if side.BUY? then this.(bids := qs) else this.(asks := qs)
    }
  }

  function StruckOne(s: Shelves, e: Entry): Shelves {
    s.With(e.order.side, Struck(s.Of(e.order.side), e.order.price, e.sequence))
  }

  function StrikeOne(s: Shelves, e: Entry): int {
    StrikeCost(s.Of(e.order.side), e.order.price, e.sequence)
  }

  /** The queues once these orders are removed, one after the other, and what the removals cost. */
  function StruckAll(s: Shelves, index: map<OrderId, Entry>, gone: seq<OrderId>): Shelves
    requires forall id | id in gone :: id in index
  {
    if gone == [] then s
    else StruckOne(StruckAll(s, index, gone[..|gone| - 1]), index[gone[|gone| - 1]])
  }

  function StrikeAll(s: Shelves, index: map<OrderId, Entry>, gone: seq<OrderId>): int
    requires forall id | id in gone :: id in index
  {
    if gone == [] then 0
    else
      var n := |gone| - 1;
      StrikeAll(s, index, gone[..n]) + StrikeOne(StruckAll(s, index, gone[..n]), index[gone[n]])
  }

  /** How an order changes the spending when so much of it is left to rest. */
  function ArrivalCost(s: Shelves, order: Order, remaining: int): int {
    if remaining == 0 then 0 else RestCost(s.Of(order.side), order.price)
  }

  /**
   Removing these orders, in this order, takes the queues from `s` to `s'` and the spending from
   `spent` to `spent'`.
   */
  ghost predicate Billed(s: Shelves, spent: int, index: map<OrderId, Entry>, gone: seq<OrderId>, s': Shelves,
                         spent': int) {
    && (forall id | id in gone :: id in index)
    && s' == StruckAll(s, index, gone) && spent' == spent + StrikeAll(s, index, gone)
  }

  lemma {:induction false} BillNone(s: Shelves, spent: int, index: map<OrderId, Entry>)
    ensures Billed(s, spent, index, [], s, spent)
  {
  }

  lemma {:induction false} BillOne(s: Shelves, spent: int, index: map<OrderId, Entry>, id: OrderId)
    requires id in index
    ensures Billed(s, spent, index, [id], StruckOne(s, index[id]), spent + StrikeOne(s, index[id]))
  {
    hide StruckOne, StrikeOne;
    var gone := [id];
    assert gone[..|gone| - 1] == [] && gone[|gone| - 1] == id && id in gone;
    assert StruckAll(s, index, []) == s && StrikeAll(s, index, []) == 0;
  }

  /** Two bills in a row make one. */
  lemma {:induction false} BillJoin(s: Shelves, spent: int, index: map<OrderId, Entry>, gone: seq<OrderId>, s1: Shelves,
                                    spent1: int, later: map<OrderId, Entry>, more: seq<OrderId>, s2: Shelves,
                                    spent2: int)
    requires Billed(s, spent, index, gone, s1, spent1) && Billed(s1, spent1, later, more, s2, spent2)
    requires forall id | id in more :: id in index && index[id] == later[id]
    ensures Billed(s, spent, index, gone + more, s2, spent2)
    decreases |more|
  {
    hide StruckOne, StrikeOne;
    if more == [] {
      assert gone + more == gone;
    } else {
      var n := |more| - 1;
      var s', spent' := StruckAll(s1, later, more[..n]), spent1 + StrikeAll(s1, later, more[..n]);
      BillJoin(s, spent, index, gone, s1, spent1, later, more[..n], s', spent');
      var all := gone + more;
      assert all[..|all| - 1] == gone + more[..n] && all[|all| - 1] == more[n];
      assert more[n] in more;
    }
  }

  lemma {:induction false} BillLast(s: Shelves, spent: int, index: map<OrderId, Entry>, gone: seq<OrderId>, s1: Shelves,
                                    spent1: int, later: map<OrderId, Entry>, id: OrderId)
    requires Billed(s, spent, index, gone, s1, spent1) && id in index && id in later && index[id] == later[id]
    ensures Billed(s, spent, index, gone + [id], StruckOne(s1, later[id]), spent1 + StrikeOne(s1, later[id]))
  {
    hide Billed, StruckOne, StrikeOne;
    BillOne(s1, spent1, later, id);
    BillJoin(s, spent, index, gone, s1, spent1, later, [id], StruckOne(s1, later[id]),
      spent1 + StrikeOne(s1, later[id]));
  }

  class OrderBook {
    const symbol: string
    const capacity: nat
    const maxAge: real
    const buy: BookSide
    const sell: BookSide
    var index: map<OrderId, Entry>
    var recentTrades: seq<Trade>
    var sequence: nat
    var arrivals: seq<Entry>      // stays empty without an age limit
    var expiredTotal: nat
    var notices: seq<Notice>      // the calls made to on_rest and on_close
    ghost var lastRead: real      // the latest clock reading

    function SideOf(side: Side): BookSide {
      if side.BUY? then buy else sell
    }

    ghost predicate SidesOk()
      reads buy, sell, buy.nodes, sell.nodes, buy.entries, sell.entries
    {
      && buy.side == BUY && sell.side == SELL
      && buy.nodes !! sell.nodes && buy.entries !! sell.entries
      && buy.Valid() && sell.Valid()
    }

    /** Every entry this book ever rested. */
    ghost function Entries(): set<Entry>
      reads buy`entries, sell`entries
    {
      buy.entries + sell.entries
    }

    /** How often an order was canceled or expired, on either side. */
    ghost function Removals(): nat
      reads buy`removals, sell`removals
    {
      buy.removals + sell.removals
    }

    /** What lazy deletion has cost so far. */
    ghost function Work(): nat
      reads buy`work, sell`work
    {
      buy.work + sell.work
    }

    /** What lazy deletion has cost, and what it is bound to cost for the dead entries a live one waits behind. */
    ghost function Spent(): int
      reads buy, sell
      requires buy.Summed() && sell.Summed()
    {
      Work() + buy.Leading() + sell.Leading()
    }

    ghost function Shelved(): Shelves
      reads buy`queues, sell`queues
    {
      Shelves(buy.queues, sell.queues)
    }

    /** Dead entries that are still queued, on either side. */
    ghost function DeadQueued(): nat
      reads buy, sell
      requires buy.Summed() && sell.Summed()
    {
      buy.DeadQueued() + sell.DeadQueued()
    }

    /** The index holds exactly the live entries, by id. */
    ghost predicate Indexed()
      reads this`index, buy`entries, sell`entries, buy.entries, sell.entries
    {
      && (forall id | id in index :: index[id] in Entries() && index[id].order.orderId == id && index[id].alive)
      && (forall e | e in Entries() :: e.alive ==> e.order.orderId in index && index[e.order.orderId] == e)
    }

    /** The arrival queue is in clock order. */
    ghost predicate Timed()
      reads this`arrivals, this`lastRead, buy`entries, sell`entries
    {
      && (maxAge == 0.0 ==> arrivals == [])
      && (forall i | 0 <= i < |arrivals| :: arrivals[i] in Entries() && arrivals[i].restedAt <= lastRead)
      && (forall i, j | 0 <= i < j < |arrivals| :: arrivals[i].restedAt <= arrivals[j].restedAt)
    }

    /** With expiry on, the arrival queue misses no live entry. */
    ghost predicate Tracked()
      reads this`arrivals, this`index
    {
      maxAge > 0.0 ==> forall id | id in index :: index[id] in arrivals
    }

    ghost predicate Numbered()
      reads this`sequence, buy`entries, sell`entries
    {
      && (forall e | e in buy.entries :: e.order.side == BUY && e.sequence <= sequence)
      && (forall e | e in sell.entries :: e.order.side == SELL && e.sequence <= sequence)
    }

    ghost predicate BooksOk()
      reads this`index, this`arrivals, this`lastRead, this`sequence, buy, sell
      reads buy.nodes, sell.nodes, buy.entries, sell.entries
    {
      SidesOk() && Indexed() && Timed() && Tracked() && Numbered() && maxAge >= 0.0
    }

    /** The book as two sorted lists, a counter and a tape. */
    ghost function State(): Core
      reads this, buy, sell
      requires buy.Summed() && sell.Summed()
    {
      Core(buy.View(), sell.View(), sequence, recentTrades)
    }

    ghost predicate Valid()
      reads this, buy, sell, buy.nodes, sell.nodes, buy.entries, sell.entries
    {
      && BooksOk() && CoreOk(State())
      && index.Keys == AllIds(State())
      && |recentTrades| <= capacity
    }

    constructor (symbol: string, capacity: nat, maxAge: real, ghost started: real)
      requires capacity >= 1 && maxAge >= 0.0
      ensures Valid() && State() == EMPTY && fresh({buy, sell})
      ensures this.symbol == symbol && this.capacity == capacity && this.maxAge == maxAge && lastRead == started
      ensures index == map[] && notices == [] && buy.nodes == {} && sell.nodes == {} && buy.entries == {}
      ensures sell.entries == {}
      ensures Removals() == 0 && Work() == 0 && Spent() == 0
    {
      this.symbol := symbol;
      this.capacity := capacity;
      this.maxAge := maxAge;
      buy := new BookSide(BUY);
      sell := new BookSide(SELL);
      index := map[];
      recentTrades := [];
      sequence := 0;
      arrivals := [];
      expiredTotal := 0;
      notices := [];
      lastRead := started;
    }

    /** Take an order out of the index and report why it left. */
    method Close(entry: Entry, reason: CloseReason)
      modifies this`index, this`notices
      ensures index == old(index) - {entry.order.orderId}
      ensures notices == old(notices) + [Closed(entry.order.orderId, reason)]
    {
      index := index - {entry.order.orderId};
      notices := notices + [Closed(entry.order.orderId, reason)];
    }

    /** Dropping the id of the one entry that died keeps the index exact. */
    twostate lemma Unindexed(entry: Entry)
      requires old(Indexed()) && Entries() == old(Entries()) && entry in Entries()
      requires old(entry.alive) && !entry.alive && index == old(index) - {entry.order.orderId}
      requires forall e | e in Entries() && e != entry :: e.alive == old(e.alive)
      ensures Indexed()
    {
    }

    twostate lemma StillIndexed()
      requires old(Indexed()) && Entries() == old(Entries()) && index == old(index)
      requires forall e | e in Entries() :: e.alive == old(e.alive)
      ensures Indexed()
    {
    }

    /** Trade `quantity` with the front order of `opposing`, closing it when filled. */
    method FillFront(opposing: BookSide, resting: Entry, quantity: int) returns (filled: bool)
      requires BooksOk() && opposing == SideOf(opposing.side) && opposing.AtFront(resting)
      requires resting.alive && 0 < quantity <= resting.remaining
      modifies this`index, this`notices, opposing`keys, opposing`levels, opposing`queues, opposing`totalQuantity
      modifies opposing.nodes, resting
      ensures BooksOk()
      ensures filled <==> quantity == old(resting.remaining)
      ensures old(opposing.View()) != []
      ensures opposing.View() ==
                (if filled then [] else [old(opposing.View())[0].(remaining := old(resting.remaining) - quantity)])
                + old(opposing.View())[1..]
      ensures old(opposing.View())[0] == old(resting.AsOpenOrder())
      ensures index == if filled then old(index) - {resting.order.orderId} else old(index)
      ensures notices == old(notices) + if filled then [Closed(resting.order.orderId, Filled)] else []
      ensures Removals() == old(Removals()) && Work() == old(Work()) && Spent() == old(Spent())
    {
      hide BookSide.Valid, BookSide.View, Indexed, Timed, Numbered;
      filled := opposing.FillBest(resting, quantity);
      if filled {
        Close(resting, Filled);
        Unindexed(resting);
      } else {
        StillIndexed();
      }
    }

    lemma SidesAreSummed()
      requires BooksOk()
      ensures buy.Summed() && sell.Summed() && buy.side == BUY && sell.side == SELL
    {
    }

    /** The best opposing order; looking for it changes no list. */
    method Front(opposing: BookSide) returns (resting: Entry?)
      requires BooksOk() && opposing == SideOf(opposing.side)
      modifies opposing`keys, opposing`levels, opposing`queues, opposing`work, opposing.nodes
      ensures BooksOk() && opposing.Valid() && opposing.View() == old(opposing.View())
      ensures resting == null <==> opposing.View() == []
      ensures resting != null ==>
                resting in opposing.entries && opposing.AtFront(resting) && resting.alive
                && resting.AsOpenOrder() == opposing.View()[0]
      ensures Work() >= old(Work()) && Spent() == old(Spent())
    {
      hide BookSide.Loose, BookSide.Listed, Busy, BookSide.Linked, BookSide.LiveQueued, BookSide.Summed,
           BookSide.View, Indexed, Timed, Tracked, Numbered;
      opposing.LooseOrValid();
      resting := opposing.Best();
      opposing.LooseOrValid();
    }

    /** One round of matching: trade with the best opposing order if prices cross. */
    method MatchOnce(order: Order, opposing: BookSide, remaining: int)
      returns (trade: Option<Trade>, ghost filled: seq<OrderId>)
      requires BooksOk() && opposing == SideOf(opposing.side) && remaining > 0 && Positive(opposing.View())
      modifies this`index, this`notices, opposing`keys, opposing`levels, opposing`queues, opposing`totalQuantity
      modifies opposing`work
      modifies opposing.nodes, opposing.entries
      ensures BooksOk() && Positive(opposing.View())
      ensures trade.None? ==> filled == [] && opposing.View() == old(opposing.View())
      ensures trade.None? ==> Match(order, remaining, opposing.View()) == Matching([], [], remaining, opposing.View())
      ensures trade.Some? ==> 0 < trade.value.quantity <= remaining
      ensures trade.Some? ==> Match(order, remaining, old(opposing.View())) ==
                              Onto([trade.value], filled,
                                Match(order, remaining - trade.value.quantity, opposing.View()))
      ensures index == old(index) - IdSet(filled) && notices == old(notices) + Fills(filled)
      ensures Removals() == old(Removals()) && Work() >= old(Work()) && Spent() == old(Spent())
    {
      hide BooksOk, BookSide.Linked, BookSide.Summed, BookSide.View, BookSide.LiveQueued, BookSide.AtFront, Match,
           Spent;
      filled := [];
      var resting := Front(opposing);
      if resting == null || !Crosses(order, resting.order) {
        MatchDone(order, remaining, opposing.View());
        return None, [];
      }
      var matched := Min(remaining, resting.remaining);
      MatchStep(order, remaining, opposing.View());
      trade := Some(TradeOf(order, resting.order, matched));
      var gone := FillFront(opposing, resting, matched);
      SidesAreSummed();
      if gone {
        filled := [resting.order.orderId];
      }
    }

    /** Trade with the best opposing orders while prices cross. */
    method MatchLoop(order: Order, opposing: BookSide) returns (trades: seq<Trade>, remaining: int)
      requires BooksOk() && order.Valid() && opposing == SideOf(opposing.side) && Positive(opposing.View())
      modifies this`index, this`notices, opposing`keys, opposing`levels, opposing`queues, opposing`totalQuantity
      modifies opposing`work
      modifies opposing.nodes, opposing.entries
      ensures BooksOk()
      ensures var m := Match(order, order.quantity, old(opposing.View()));
              && trades == m.trades && remaining == m.remaining && opposing.View() == m.left
              && index == old(index) - IdSet(m.filled)
              && notices == old(notices) + Fills(m.filled)
      ensures Removals() == old(Removals()) && Work() >= old(Work()) && Spent() == old(Spent())
    {
      hide BookSide.Linked, BookSide.LiveQueued, BookSide.Summed, BookSide.View, Indexed, Timed, Tracked, Numbered,
           Spent, Match, Positive, Fills, IdSet, Onto;
      ghost var filled: seq<OrderId> := [];
      trades, remaining := [], order.quantity;
      NoFills(index, Match(order, order.quantity, opposing.View()));
      while remaining != 0
        invariant BooksOk() && remaining >= 0 && Positive(opposing.View())
        invariant Match(order, order.quantity, old(opposing.View()))
                    == Onto(trades, filled, Match(order, remaining, opposing.View()))
        invariant index == old(index) - IdSet(filled) && notices == old(notices) + Fills(filled)
        invariant Work() >= old(Work())
        invariant Spent() == old(Spent())
        decreases remaining
      {
        var trade;
        ghost var gone;
        trade, gone := MatchOnce(order, opposing, remaining);
        if trade.None? {
          break;
        }
        OntoOnto(trades, filled, trade.value, gone, Match(order, remaining - trade.value.quantity, opposing.View()));
        FillsConcat(filled, gone);
        assert old(index) - IdSet(filled) - IdSet(gone) == old(index) - IdSet(filled + gone);
        trades, remaining, filled := trades + [trade.value], remaining - trade.value.quantity, filled + gone;
      }
      if remaining == 0 {
        MatchDone(order, 0, opposing.View());
      }
      OntoNothing(trades, filled, remaining, opposing.View());
    }

    /** When each resting order started resting. */
    ghost function Ages(): map<OrderId, real>
      reads this`index
    {
      map id | id in index :: index[id].restedAt
    }

    /** A fresh entry, indexed and put at the end of the arrival queue. */
    twostate lemma NewlyIndexed(new entry: Entry)
      requires old(Indexed()) && Entries() == old(Entries()) + {entry} && entry.alive
      requires forall e | e in old(Entries()) :: e.alive == old(e.alive)
      requires entry.order.orderId !in old(index) && index == old(index)[entry.order.orderId := entry]
      ensures Indexed()
      ensures index.Keys == old(index).Keys + {entry.order.orderId}
      ensures Ages() == old(Ages())[entry.order.orderId := entry.restedAt]
    {
    }

    twostate lemma NewlyTimed(new entry: Entry, now: real)
      requires old(Timed() && Tracked() && Numbered())
      requires buy.entries == old(buy.entries) + (if entry.order.side.BUY? then {entry} else {})
      requires sell.entries == old(sell.entries) + (if entry.order.side.SELL? then {entry} else {})
      requires entry.sequence == sequence == old(sequence) + 1
      requires index == old(index)[entry.order.orderId := entry]
      requires lastRead == now && old(lastRead) <= now && (maxAge != 0.0 ==> entry.restedAt == now)
      requires arrivals == old(arrivals) + if maxAge == 0.0 then [] else [entry]
      ensures Timed() && Tracked() && Numbered()
    {
    }

    lemma EntriesNumbered()
      requires Numbered()
      ensures forall e | e in Entries() :: e.sequence <= sequence
    {
    }

    /** Queue a fresh entry on its side. */
    method AddEntry(entry: Entry)
      requires SidesOk() && entry !in Entries() && entry.alive && entry.remaining > 0
      requires forall e | e in Entries() :: e.sequence < entry.sequence
      modifies SideOf(entry.order.side), SideOf(entry.order.side).nodes
      ensures SidesOk()
      ensures State() ==
                old(State()).With(entry.order.side,
                InsertSorted(old(State()).Resting(entry.order.side), entry.AsOpenOrder()))
      ensures buy.entries == old(buy.entries) + (if entry.order.side.BUY? then {entry} else {})
      ensures sell.entries == old(sell.entries) + (if entry.order.side.SELL? then {entry} else {})
      ensures fresh(buy.nodes + sell.nodes - old(buy.nodes + sell.nodes))
      ensures Removals() == old(Removals()) && Work() == old(Work())
      ensures Spent() == old(Spent()) + RestCost(old(Shelved()).Of(entry.order.side), entry.order.price)
    {
      hide BookSide.Linked, BookSide.LiveQueued, BookSide.Summed, BookSide.View, BookSide.Leading, RestCost,
           InsertSorted;
      if entry.order.side.BUY? {
        buy.Add(entry);
      } else {
        sell.Add(entry);
      }
    }

    /** A fresh entry joins its side and the book's records. */
    method Place(entry: Entry, now: real)
      requires SidesOk() && entry !in Entries() && entry.alive && entry.remaining > 0 && entry.sequence == sequence + 1
      requires forall e | e in Entries() :: e.sequence < entry.sequence
      modifies this`sequence, this`index, this`arrivals, this`notices, this`lastRead
      modifies SideOf(entry.order.side), SideOf(entry.order.side).nodes
      ensures SidesOk() && lastRead == now && sequence == old(sequence) + 1
      ensures State() == BookSpec.Rest(old(State()), entry.order, entry.remaining)
      ensures buy.entries == old(buy.entries) + (if entry.order.side.BUY? then {entry} else {})
      ensures sell.entries == old(sell.entries) + (if entry.order.side.SELL? then {entry} else {})
      ensures index == old(index)[entry.order.orderId := entry]
      ensures arrivals == old(arrivals) + if maxAge == 0.0 then [] else [entry]
      ensures notices == old(notices) + [Rested(entry.order.orderId)]
      ensures fresh(buy.nodes + sell.nodes - old(buy.nodes + sell.nodes))
      ensures Removals() == old(Removals()) && Work() == old(Work())
      ensures Spent() == old(Spent()) + RestCost(old(Shelved()).Of(entry.order.side), entry.order.price)
    {
      hide Spent, Shelved, RestCost, SidesOk, BookSide.Summed, BookSide.View, InsertSorted;
      SidesSummed();
      AddEntry(entry);
      SidesSummed();
      Register(entry, now);
    }

    lemma SidesSummed()
      requires SidesOk()
      ensures buy.Summed() && sell.Summed()
    {
    }

    /** Put what is left of an order on its own side. */
    method Rest(order: Order, remaining: int, now: real)
      requires BooksOk() && remaining > 0 && order.orderId !in index && lastRead <= now
      modifies this`sequence, this`index, this`arrivals, this`notices, this`lastRead
      modifies SideOf(order.side), SideOf(order.side).nodes
      ensures BooksOk() && lastRead == now
      ensures State() == BookSpec.Rest(old(State()), order, remaining)
      ensures index.Keys == old(index).Keys + {order.orderId}
      ensures Ages() == old(Ages())[order.orderId := if maxAge == 0.0 then 0.0 else now]
      ensures notices == old(notices) + [Rested(order.orderId)]
      ensures fresh(buy.nodes + sell.nodes - old(buy.nodes + sell.nodes))
      ensures fresh(buy.entries + sell.entries - old(buy.entries + sell.entries))
      ensures Removals() == old(Removals()) && Work() == old(Work())
      ensures Spent() == old(Spent()) + RestCost(old(Shelved()).Of(order.side), order.price)
    {
      hide BookSide.Linked, BookSide.LiveQueued, BookSide.Summed, BookSide.View, InsertSorted, Indexed, Timed,
           Tracked, Numbered, Ages, Spent, Shelved, RestCost, State, BookSpec.Rest, Removals, Work;
      EntriesNumbered();
      var entry := new Entry(order, remaining, sequence + 1, if maxAge == 0.0 then 0.0 else now);
      Place(entry, now);
      NewlyIndexed(entry);
      NewlyTimed(entry, now);
    }

    /** Number, index, track and report a fresh entry. */
    method Register(entry: Entry, now: real)
      modifies this`sequence, this`index, this`arrivals, this`notices, this`lastRead
      ensures sequence == old(sequence) + 1 && lastRead == now
      ensures index == old(index)[entry.order.orderId := entry]
      ensures arrivals == old(arrivals) + if maxAge == 0.0 then [] else [entry]
      ensures notices == old(notices) + [Rested(entry.order.orderId)]
    {
      sequence := sequence + 1;
      index := index[entry.order.orderId := entry];
      if maxAge != 0.0 {
        arrivals := arrivals + [entry];
      }
      lastRead := now;
      notices := notices + [Rested(entry.order.orderId)];
    }

    /** Take a live entry off its side. */
    method RemoveFromSide(entry: Entry)
      requires SidesOk() && entry in SideOf(entry.order.side).entries && entry.alive && CoreOk(State())
      modifies SideOf(entry.order.side)`keys, SideOf(entry.order.side)`levels, SideOf(entry.order.side)`queues
      modifies SideOf(entry.order.side)`totalQuantity, SideOf(entry.order.side)`removals, SideOf(entry.order.side)`work
      modifies SideOf(entry.order.side).nodes, entry`alive
      ensures SidesOk() && !entry.alive
      ensures State() == Forget(old(State()), {entry.order.orderId})
      ensures Removals() == old(Removals()) + 1 && Work() >= old(Work())
      ensures Shelved() == StruckOne(old(Shelved()), entry)
      ensures Spent() == old(Spent()) + StrikeOne(old(Shelved()), entry)
    {
      hide BookSide.Linked, BookSide.LiveQueued, BookSide.Summed, BookSide.View, BookSide.Leading, Struck, StrikeCost,
           CoreOk, RemoveAt, Forget;
      ghost var c := State();
      if entry.order.side.BUY? {
        ghost var n := buy.Remove(entry);
        RemoveIsForget(c, BUY, n);
      } else {
        ghost var n := sell.Remove(entry);
        RemoveIsForget(c, SELL, n);
      }
    }

    twostate lemma ArrivalsPopped()
      requires old(Timed()) && old(arrivals) != [] && arrivals == old(arrivals)[1..] && lastRead == old(lastRead)
      requires buy.entries == old(buy.entries) && sell.entries == old(sell.entries)
      ensures Timed()
    {
    }

    /** Drop a dead entry from the front of the arrival queue. */
    method PopDeadArrival()
      requires Valid() && arrivals != [] && !arrivals[0].alive
      modifies this`arrivals
      ensures Valid() && arrivals == old(arrivals)[1..]
      ensures Shelved() == old(Shelved()) && Spent() == old(Spent())
    {
      hide BookSide.Valid, BookSide.Summed, CoreOk;
      arrivals := arrivals[1..];
      ArrivalsPopped();
      assert Tracked();
    }

    /** The live entry at the front of the arrival queue has expired: remove and report it. */
    method ExpireFront()
      requires Valid() && maxAge != 0.0 && arrivals != [] && arrivals[0].alive
      modifies this`arrivals, this`index, this`notices, this`expiredTotal
      modifies buy`keys, buy`levels, buy`queues, buy`totalQuantity, buy`removals, buy`work, buy.nodes, buy.entries
      modifies sell`keys, sell`levels, sell`queues, sell`totalQuantity, sell`removals, sell`work
      modifies sell.nodes, sell.entries
      ensures Valid() && arrivals == old(arrivals)[1..] && expiredTotal == old(expiredTotal) + 1
      ensures State() == Forget(old(State()), {old(arrivals[0]).order.orderId})
      ensures index == old(index) - {old(arrivals[0]).order.orderId} && old(arrivals[0]).order.orderId in old(index)
      ensures old(index)[old(arrivals[0]).order.orderId] == old(arrivals[0])
      ensures notices == old(notices) + [Closed(old(arrivals[0]).order.orderId, Expired)]
      ensures Removals() == old(Removals()) + 1 && Work() >= old(Work())
      ensures Shelved() == StruckOne(old(Shelved()), old(arrivals[0]))
      ensures Spent() == old(Spent()) + StrikeOne(old(Shelved()), old(arrivals[0]))
    {
      hide Spent, Shelved, StruckOne, StrikeOne, Removals, Work;
      hide BookSide.Linked, BookSide.LiveQueued, BookSide.Summed, BookSide.View, CoreOk, Forget, Indexed, Timed,
           Tracked, Numbered, AllIds;
      var entry := arrivals[0];
      FrontIndexed();
      ForgetOk(State(), {entry.order.orderId});
      arrivals := arrivals[1..];
      RemoveFromSide(entry);
      expiredTotal := expiredTotal + 1;
      Close(entry, Expired);
      Unindexed(entry);
      ArrivalsPopped();
      StillTracked(entry);
    }

    lemma FrontIndexed()
      requires Timed() && Numbered() && Indexed() && arrivals != []
      ensures arrivals[0] in Entries() && arrivals[0] in SideOf(arrivals[0].order.side).entries
      ensures arrivals[0].alive ==>
                arrivals[0].order.orderId in index && index[arrivals[0].order.orderId] == arrivals[0]
    {
    }

    twostate lemma StillTracked(entry: Entry)
      requires old(Tracked() && Indexed()) && old(arrivals) != [] && arrivals == old(arrivals)[1..]
      requires entry == old(arrivals[0])
      requires index == old(index) - {entry.order.orderId}
      ensures Tracked()
    {
    }

    /** The resting orders whose age has reached the limit. */
    ghost function ExpiredIds(now: real): set<OrderId>
      reads this`index
    {
      if maxAge == 0.0 then {} else set id | id in index && now - index[id].restedAt >= maxAge
    }

    /** The front of the arrival queue leaves: a dead entry silently, a live one by expiry. */
    method NextArrival() returns (ghost more: seq<OrderId>)
      requires Valid() && maxAge != 0.0 && arrivals != []
      modifies this`arrivals, this`index, this`notices, this`expiredTotal
      modifies buy`keys, buy`levels, buy`queues, buy`totalQuantity, buy`removals, buy`work, buy.nodes, buy.entries
      modifies sell`keys, sell`levels, sell`queues, sell`totalQuantity, sell`removals, sell`work
      modifies sell.nodes, sell.entries
      ensures Valid() && arrivals == old(arrivals)[1..] && expiredTotal == old(expiredTotal) + |more|
      ensures more == if old(arrivals[0].alive) then [old(arrivals[0]).order.orderId] else []
      ensures forall id | id in more :: id in old(index) && old(index)[id] == old(arrivals[0])
      ensures State() == Forget(old(State()), IdSet(more)) && index == old(index) - IdSet(more)
      ensures notices == old(notices) + Expiries(more)
      ensures Removals() == old(Removals()) + |more| && Work() >= old(Work())
      ensures Billed(old(Shelved()), old(Spent()), old(index), more, Shelved(), Spent())
    {
      hide Spent, Shelved, StruckOne, StrikeOne, Billed, Valid, BookSide.Summed, BookSide.View, Forget;
      var entry := arrivals[0];
      more := [];
      AreSummed();
      NoneGone();
      ForgetNothing(State());
      BillNone(Shelved(), Spent(), index);
      if !entry.alive {
        PopDeadArrival();
        AreSummed();
        assert index - {} == index && notices + [] == notices;
      } else {
        ExpireFront();
        AreSummed();
        BillOne(old(Shelved()), old(Spent()), old(index), entry.order.orderId);
        Snoc([], entry.order.orderId);
        more := [entry.order.orderId];
        assert [] + more == more && {} + {entry.order.orderId} == {entry.order.orderId};
      }
    }

    lemma AreSummed()
      requires Valid()
      ensures buy.Summed() && sell.Summed()
    {
    }

    /** Drop every order that has rested for `maxAge`, looking only at the front of the arrival queue. */
    method Expire(now: real) returns (ghost gone: seq<OrderId>)
      requires Valid() && lastRead <= now
      modifies this`arrivals, this`index, this`notices, this`expiredTotal, this`lastRead
      modifies buy`keys, buy`levels, buy`queues, buy`totalQuantity, buy`removals, buy`work, buy.nodes, buy.entries
      modifies sell`keys, sell`levels, sell`queues, sell`totalQuantity, sell`removals, sell`work
      modifies sell.nodes, sell.entries
      ensures Valid() && lastRead == now
      ensures IdSet(gone) == old(ExpiredIds(now)) && Distinct(gone)
      ensures State() == Forget(old(State()), IdSet(gone))
      ensures index == old(index) - IdSet(gone)
      ensures notices == old(notices) + Expiries(gone) && expiredTotal == old(expiredTotal) + |gone|
      ensures Removals() == old(Removals()) + |gone| && Work() >= old(Work())
      ensures Billed(old(Shelved()), old(Spent()), old(index), gone, Shelved(), Spent())
    {
      hide Spent, Shelved, Billed, Valid, BookSide.Summed, BookSide.View, Forget, Timed, Tracked, Distinct,
           Expiries, IdSet;
      AreSummed();
      gone := [];
      NoneGone();
      BillNone(Shelved(), Spent(), index);
      ReadClock(now);
      AreSummed();
      ForgetNothing(State());
      if maxAge == 0.0 {
        return;
      }
      var deadline := now - maxAge;
      while arrivals != []
        invariant Valid() && buy.Summed() && sell.Summed() && lastRead == now && index == old(index) - IdSet(gone)
        invariant State() == Forget(old(State()), IdSet(gone))
        invariant notices == old(notices) + Expiries(gone) && expiredTotal == old(expiredTotal) + |gone|
        invariant Distinct(gone) && Removals() == old(Removals()) + |gone| && Work() >= old(Work())
        invariant Billed(old(Shelved()), old(Spent()), old(index), gone, Shelved(), Spent())
        invariant forall id | id in IdSet(gone) :: id in old(index) && old(index)[id].restedAt <= deadline
        decreases |arrivals|
      {
        var entry := arrivals[0];
        if entry.alive && entry.restedAt > deadline {
          break;
        }
        ghost var shelves, spent, left := Shelved(), Spent(), index;
        ghost var more := NextArrival();
        AreSummed();
        BillJoin(old(Shelved()), old(Spent()), old(index), gone, shelves, spent, left, more, Shelved(), Spent());
        ForgetTwice(old(State()), IdSet(gone), IdSet(more));
        GoneMore(old(index), gone, more);
        Reassociated(old(notices), Expiries(gone), Expiries(more));
        gone := gone + more;
      }
      AreTimed();
      RestIsYoung(deadline);
      assert forall id | id in old(index) && id !in IdSet(gone) :: id in index && index[id] == old(index)[id];
    }

    lemma AreTimed()
      requires Valid()
      ensures Timed() && Tracked() && maxAge >= 0.0
    {
    }

    method ReadClock(now: real)
      requires Valid() && lastRead <= now
      modifies this`lastRead
      ensures Valid() && lastRead == now && State() == old(State())
    {
      hide BookSide.Valid, BookSide.Summed, CoreOk;
      ghost var t := lastRead;
      lastRead := now;
    }

    /** If the front arrival is too young, or there is none, so is every resting order. */
    lemma RestIsYoung(deadline: real)
      requires Timed() && Tracked() && maxAge > 0.0
      requires arrivals == [] || arrivals[0].restedAt > deadline
      ensures forall id | id in index :: index[id].restedAt > deadline
    {
      forall id | id in index
        ensures index[id].restedAt > deadline
      {
        var i :| 0 <= i < |arrivals| && arrivals[i] == index[id];
      }
    }

    twostate lemma AgesWithout(ids: set<OrderId>)
      requires index == old(index) - ids
      ensures Ages() == old(Ages()) - ids
    {
    }

    /** Match an order against the book and rest what is left. */
    method Execute(order: Order, later: real) returns (trades: seq<Trade>, remaining: int)
      requires Valid() && order.Valid() && order.orderId !in index && lastRead <= later
      modifies this`sequence, this`index, this`arrivals, this`notices, this`lastRead, this`recentTrades
      modifies buy, sell, buy.nodes, sell.nodes, buy.entries, sell.entries
      ensures Valid() && old(lastRead) <= lastRead <= later
      ensures var m := MatchIn(old(State()), order);
              && trades == m.trades && remaining == m.remaining
              && State() == BookSpec.Submit(old(State()), order, capacity)
              && Ages() == AgesAfter(old(Ages()), m, order.orderId, if maxAge == 0.0 then 0.0 else later)
              && notices == old(notices) + Fills(m.filled) + (if m.remaining == 0 then [] else [Rested(order.orderId)])
      ensures fresh(buy.nodes + sell.nodes - old(buy.nodes + sell.nodes))
      ensures fresh(buy.entries + sell.entries - old(buy.entries + sell.entries))
      ensures Removals() == old(Removals()) && Work() >= old(Work())
      ensures Spent() == old(Spent()) + ArrivalCost(old(Shelved()), order, MatchIn(old(State()), order).remaining)
    {
      hide Spent, Shelved, ArrivalCost;
      hide BookSide.Linked, BookSide.LiveQueued, BookSide.Summed, BookSide.View, Indexed, Timed, Tracked, Numbered,
           CoreOk, AllIds, Settle, MatchIn, Fills, IdSet, Ages;
      SubmitOk(State(), order, capacity);
      trades, remaining := Trade(order, later);
      recentTrades := Newest(recentTrades + trades, capacity);
    }

    /** Match, then rest; the tape is written afterwards. */
    method Trade(order: Order, later: real) returns (trades: seq<Trade>, remaining: int)
      requires BooksOk() && CoreOk(State()) && order.Valid() && order.orderId !in index && lastRead <= later
      requires index.Keys == AllIds(State())
      modifies this`sequence, this`index, this`arrivals, this`notices, this`lastRead
      modifies buy, sell, buy.nodes, sell.nodes, buy.entries, sell.entries
      ensures BooksOk() && old(lastRead) <= lastRead <= later
      ensures var m := MatchIn(old(State()), order);
              && trades == m.trades && remaining == m.remaining
              && State() == Settle(old(State()), order)
              && index.Keys == IdsAfterSubmit(old(State()), order)
              && Ages() == AgesAfter(old(Ages()), m, order.orderId, if maxAge == 0.0 then 0.0 else later)
              && notices == old(notices) + Fills(m.filled) + (if m.remaining == 0 then [] else [Rested(order.orderId)])
      ensures fresh(buy.nodes + sell.nodes - old(buy.nodes + sell.nodes))
      ensures fresh(buy.entries + sell.entries - old(buy.entries + sell.entries))
      ensures Removals() == old(Removals()) && Work() >= old(Work())
      ensures Spent() == old(Spent()) + ArrivalCost(old(Shelved()), order, MatchIn(old(State()), order).remaining)
    {
      hide Spent, RestCost, Removals, Work, BookSpec.Rest;
      hide BookSide.Linked, BookSide.LiveQueued, BookSide.Summed, BookSide.View, Indexed, Timed, Tracked, Numbered,
           CoreOk, AllIds, Match, InsertSorted, Positive, Fills, IdSet, Ages;
      ghost var c := State();
      ghost var m := MatchIn(c, order);
      SubmitOk(c, order, 0);
      OpposingPositive(c, order.side.Opposite());
      trades, remaining := MatchLoop(order, SideOf(order.side.Opposite()));
      AgesWithout(IdSet(m.filled));
      if remaining != 0 {
        Rest(order, remaining, later);
      }
      assert fresh(buy.nodes + sell.nodes - old(buy.nodes + sell.nodes));
      assert fresh(buy.entries + sell.entries - old(buy.entries + sell.entries));
    }

    lemma OpposingPositive(c: Core, side: Side)
      requires CoreOk(c)
      ensures Positive(c.Resting(side))
    {
    }

    /** `now` is read when expiry runs and `later` when the rest of the order starts resting. */
    method Submit(order: Order, now: real, later: real) returns (r: Result<MatchResult>, ghost gone: seq<OrderId>)
      requires Valid() && order.Valid() && order.orderId !in index && lastRead <= now <= later
      modifies this, buy, sell, buy.nodes, sell.nodes, buy.entries, sell.entries
      ensures Valid() && old(lastRead) <= lastRead <= later
      ensures order.symbol != symbol ==>
        && r == Err(WrongSymbol) && gone == [] && lastRead == old(lastRead) && Work() == old(Work())
           && Spent() == old(Spent())
        && State() == old(State()) && Ages() == old(Ages()) && notices == old(notices)
      ensures order.symbol == symbol ==>
        var e := Forget(old(State()), old(ExpiredIds(now)));
        var m := MatchIn(e, order);
        && IdSet(gone) == old(ExpiredIds(now)) && Distinct(gone)
        && r == Ok(SubmitResult(e, order))
        && State() == BookSpec.Submit(e, order, capacity)
        && Ages() == AgesAfter(old(Ages()) - IdSet(gone), m, order.orderId, if maxAge == 0.0 then 0.0 else later)
        && notices == old(notices) + Expiries(gone) + Fills(m.filled)
           + (if m.remaining == 0 then [] else [Rested(order.orderId)])
      ensures fresh(buy.nodes + sell.nodes - old(buy.nodes + sell.nodes))
      ensures fresh(buy.entries + sell.entries - old(buy.entries + sell.entries))
      ensures Removals() == old(Removals()) + |gone| && Work() >= old(Work())
      ensures order.symbol == symbol ==>
        var m := MatchIn(Forget(old(State()), IdSet(gone)), order);
        && (forall id | id in gone :: id in old(index))
        && Spent() == old(Spent()) + StrikeAll(old(Shelved()), old(index), gone)
                      + ArrivalCost(StruckAll(old(Shelved()), old(index), gone), order, m.remaining)
    {
      hide Spent, Shelved, StruckAll, StrikeAll, ArrivalCost;
      hide BookSide.Linked, BookSide.LiveQueued, BookSide.Summed, BookSide.View, BooksOk, CoreOk, AllIds, Match,
           Fills, IdSet, Ages, Distinct, Expiries, Forget, AgesAfter;
      gone := [];
      if order.symbol != symbol {
        return Err(WrongSymbol), [];
      }
      ghost var nodes, entries := buy.nodes + sell.nodes, buy.entries + sell.entries;
      gone := Expire(now);
      AgesWithout(IdSet(gone));
      assert buy.nodes + sell.nodes == nodes && buy.entries + sell.entries == entries;
      var trades, remaining := Execute(order, later);
      r := Ok(MatchResult(order.orderId, trades, remaining));
    }

    /** Cancel by id, after expiry; the reply is the order as it last rested. */
    method Cancel(id: OrderId, now: real) returns (r: Result<OpenOrder>, ghost gone: seq<OrderId>)
      requires Valid() && lastRead <= now
      modifies this`arrivals, this`index, this`notices, this`expiredTotal, this`lastRead
      modifies buy`keys, buy`levels, buy`queues, buy`totalQuantity, buy`removals, buy`work, buy.nodes, buy.entries
      modifies sell`keys, sell`levels, sell`queues, sell`totalQuantity, sell`removals, sell`work
      modifies sell.nodes, sell.entries
      ensures Valid() && lastRead == now
      ensures IdSet(gone) == old(ExpiredIds(now)) && Distinct(gone)
      ensures var e := Forget(old(State()), IdSet(gone));
              && r == (match Find(e, id) case Some(o) => Ok(o) case None => Err(OrderNotFound))
              && State() == BookSpec.Cancel(e, id)
      ensures Ages() == old(Ages()) - IdSet(gone) - {id}
      ensures notices == old(notices) + Expiries(gone)
      ensures Removals() == old(Removals()) + |gone| + (if r.Ok? then 1 else 0) && Work() >= old(Work())
      ensures r.Ok? <==> id in old(index) && id !in IdSet(gone)
      ensures Billed(old(Shelved()), old(Spent()), old(index), gone + (if r.Ok? then [id] else []), Shelved(), Spent())
    {
      hide Valid, Removals, Work, Spent, Shelved, Billed, StruckOne, StrikeOne, BookSide.Summed, BookSide.View, IdSet,
           Ages, Distinct, Expiries, Forget, Find, BookSpec.Cancel;
      AreSummed();
      gone := Expire(now);
      AreSummed();
      AgesWithout(IdSet(gone));
      if id !in index {
        IndexedIds(id);
        assert gone + [] == gone;
        return Err(OrderNotFound), gone;
      }
      var entry := index[id];
      EntryListed(id);
      r := Ok(entry.AsOpenOrder());
      ghost var shelves, spent, left := Shelved(), Spent(), index;
      TakeOut(entry);
      AreSummed();
      BillLast(old(Shelved()), old(Spent()), old(index), gone, shelves, spent, left, id);
    }

    /** An id that is not indexed is not listed and has no age. */
    lemma IndexedIds(id: OrderId)
      requires Valid() && id !in index
      ensures Find(State(), id).None? && Ages() == Ages() - {id} && BookSpec.Cancel(State(), id) == State()
    {
      hide BookSide.Linked, BookSide.LiveQueued, BookSide.Summed, BookSide.View, Indexed, Timed, Tracked, Numbered,
           CoreOk, AllIds, Find, BookSpec.Cancel, Ages;
      NoAge(id);
      FindById(State(), id);
      CancelMissing(State(), id);
    }

    lemma NoAge(id: OrderId)
      requires id !in index
      ensures Ages() == Ages() - {id}
    {
    }

    /** An indexed entry is the open order its id finds. */
    lemma EntryListed(id: OrderId)
      requires Valid() && id in index
      ensures index[id].order.orderId == id && Find(State(), id) == Some(index[id].AsOpenOrder())
      ensures BookSpec.Cancel(State(), id) == Forget(State(), {id})
    {
      hide CoreOk;
      CancelIsForget(State(), id);
      var entry := index[id];
      if entry.order.side.BUY? {
        buy.LiveIsListed(entry);
      } else {
        sell.LiveIsListed(entry);
      }
      FindListed(State(), entry.AsOpenOrder());
    }

    /** Drop an indexed entry from the index and from its side. */
    method TakeOut(entry: Entry)
      requires Valid() && entry.order.orderId in index && index[entry.order.orderId] == entry
      modifies this`index
      modifies buy`keys, buy`levels, buy`queues, buy`totalQuantity, buy`removals, buy`work, buy.nodes, buy.entries
      modifies sell`keys, sell`levels, sell`queues, sell`totalQuantity, sell`removals, sell`work
      modifies sell.nodes, sell.entries
      ensures Valid() && State() == Forget(old(State()), {entry.order.orderId})
      ensures Ages() == old(Ages()) - {entry.order.orderId}
      ensures Removals() == old(Removals()) + 1 && Work() >= old(Work())
      ensures Shelved() == StruckOne(old(Shelved()), entry)
      ensures Spent() == old(Spent()) + StrikeOne(old(Shelved()), entry)
    {
      hide Spent, Shelved, StruckOne, StrikeOne;
      hide BookSide.Linked, BookSide.LiveQueued, BookSide.Summed, BookSide.View, CoreOk, Forget, Indexed, Timed,
           Tracked, Numbered, AllIds, Ages;
      ForgetOk(State(), {entry.order.orderId});
      IndexedSide(entry);
      index := index - {entry.order.orderId};
      RemoveFromSide(entry);
      Unindexed(entry);
      AgesWithout({entry.order.orderId});
      FewerTracked();
    }

    lemma IndexedSide(entry: Entry)
      requires Indexed() && Numbered() && entry.order.orderId in index && index[entry.order.orderId] == entry
      ensures entry in SideOf(entry.order.side).entries && entry.alive && entry in Entries()
    {
    }

    twostate lemma FewerTracked()
      requires old(Tracked()) && arrivals == old(arrivals) && index.Keys <= old(index).Keys
      requires forall id | id in index :: index[id] == old(index)[id]
      ensures Tracked()
    {
    }

    /** What a call that only expires does: the orders of age `maxAge` leave, and each is reported once. */
    twostate predicate JustExpired(now: real, gone: seq<OrderId>)
      requires old(Valid()) && Valid()
      reads this, buy, sell, buy.nodes, sell.nodes, buy.entries, sell.entries
    {
      && lastRead == now
      && IdSet(gone) == old(ExpiredIds(now)) && Distinct(gone)
      && State() == Forget(old(State()), IdSet(gone))
      && Ages() == old(Ages()) - IdSet(gone)
      && notices == old(notices) + Expiries(gone)
      && Removals() == old(Removals()) + |gone| && Work() >= old(Work())
      && (forall id | id in gone :: id in old(index))
      && Spent() == old(Spent()) + StrikeAll(old(Shelved()), old(index), gone)
    }

    method GetOpenOrder(id: OrderId, now: real) returns (r: Option<OpenOrder>, ghost gone: seq<OrderId>)
      requires Valid() && lastRead <= now
      modifies this`arrivals, this`index, this`notices, this`expiredTotal, this`lastRead
      modifies buy`keys, buy`levels, buy`queues, buy`totalQuantity, buy`removals, buy`work, buy.nodes, buy.entries
      modifies sell`keys, sell`levels, sell`queues, sell`totalQuantity, sell`removals, sell`work
      modifies sell.nodes, sell.entries
      ensures Valid() && JustExpired(now, gone)
      ensures r == Find(State(), id)
    {
      hide BookSide.Linked, BookSide.LiveQueued, BookSide.Summed, BookSide.View, Indexed, Timed, Tracked, Numbered,
           CoreOk, AllIds, IdSet, Ages, Distinct, Expiries, Forget;
      gone := Expire(now);
      AgesWithout(IdSet(gone));
      if id in index {
        EntryListed(id);
        r := Some(index[id].AsOpenOrder());
      } else {
        IndexedIds(id);
        r := None;
      }
    }

    method OpenOrders(side: Side, now: real) returns (r: seq<OpenOrder>, ghost gone: seq<OrderId>)
      requires Valid() && lastRead <= now
      modifies this`arrivals, this`index, this`notices, this`expiredTotal, this`lastRead
      modifies buy`keys, buy`levels, buy`queues, buy`totalQuantity, buy`removals, buy`work, buy.nodes, buy.entries
      modifies sell`keys, sell`levels, sell`queues, sell`totalQuantity, sell`removals, sell`work
      modifies sell.nodes, sell.entries
      ensures Valid() && JustExpired(now, gone)
      ensures r == State().Resting(side)
    {
      hide BookSide.Linked, BookSide.LiveQueued, BookSide.Summed, BookSide.View, Indexed, Timed, Tracked, Numbered,
           CoreOk, AllIds, IdSet, Ages, Distinct, Expiries, Forget;
      gone := Expire(now);
      AgesWithout(IdSet(gone));
      r := SideOf(side).LiveEntries();
    }

    method TakeSnapshot(now: real) returns (r: BookSnapshot, ghost gone: seq<OrderId>)
      requires Valid() && lastRead <= now
      modifies this`arrivals, this`index, this`notices, this`expiredTotal, this`lastRead
      modifies buy`keys, buy`levels, buy`queues, buy`totalQuantity, buy`removals, buy`work, buy.nodes, buy.entries
      modifies sell`keys, sell`levels, sell`queues, sell`totalQuantity, sell`removals, sell`work
      modifies sell.nodes, sell.entries
      ensures Valid() && JustExpired(now, gone)
      ensures r == Snapshot(State(), symbol)
    {
      hide BookSide.Linked, BookSide.LiveQueued, BookSide.Summed, BookSide.View, Indexed, Timed, Tracked, Numbered,
           CoreOk, AllIds, IdSet, Ages, Distinct, Expiries, Forget;
      gone := Expire(now);
      AgesWithout(IdSet(gone));
      var bids := buy.BookLevels();
      var asks := sell.BookLevels();
      r := BookSnapshot(symbol, bids, asks);
    }

    method TotalQuantity(side: Side, now: real) returns (r: int, ghost gone: seq<OrderId>)
      requires Valid() && lastRead <= now
      modifies this`arrivals, this`index, this`notices, this`expiredTotal, this`lastRead
      modifies buy`keys, buy`levels, buy`queues, buy`totalQuantity, buy`removals, buy`work, buy.nodes, buy.entries
      modifies sell`keys, sell`levels, sell`queues, sell`totalQuantity, sell`removals, sell`work
      modifies sell.nodes, sell.entries
      ensures Valid() && JustExpired(now, gone)
      ensures r == Total(State().Resting(side))
    {
      hide BookSide.Linked, BookSide.LiveQueued, BookSide.Summed, BookSide.View, Indexed, Timed, Tracked, Numbered,
           CoreOk, AllIds, IdSet, Ages, Distinct, Expiries, Forget;
      gone := Expire(now);
      AgesWithout(IdSet(gone));
      SideOf(side).TotalIsRunning();
      r := SideOf(side).totalQuantity;
    }

    method BestPrice(side: Side, now: real) returns (r: Option<int>, ghost gone: seq<OrderId>)
      requires Valid() && lastRead <= now
      modifies this`arrivals, this`index, this`notices, this`expiredTotal, this`lastRead
      modifies buy`keys, buy`levels, buy`queues, buy`totalQuantity, buy`removals, buy`work, buy.nodes, buy.entries
      modifies sell`keys, sell`levels, sell`queues, sell`totalQuantity, sell`removals, sell`work
      modifies sell.nodes, sell.entries
      ensures Valid() && JustExpired(now, gone)
      ensures r == if State().Resting(side) == [] then None else Some(State().Resting(side)[0].order.price)
    {
      hide BookSide.Linked, BookSide.LiveQueued, BookSide.Summed, BookSide.View, Indexed, Timed, Tracked, Numbered,
           CoreOk, AllIds, IdSet, Ages, Distinct, Expiries, Forget;
      gone := Expire(now);
      AgesWithout(IdSet(gone));
      r := PeekBest(side);
    }

    /** The price of the best live order; dead entries in front of it are dropped. */
    method PeekBest(side: Side) returns (r: Option<int>)
      requires Valid()
      modifies buy`keys, buy`levels, buy`queues, buy`work, buy.nodes
      modifies sell`keys, sell`levels, sell`queues, sell`work, sell.nodes
      ensures Valid() && State() == old(State())
      ensures r == if State().Resting(side) == [] then None else Some(State().Resting(side)[0].order.price)
      ensures Removals() == old(Removals()) && Work() >= old(Work()) && Spent() == old(Spent())
    {
      hide BookSide.Loose, BookSide.Listed, Busy;
      hide BookSide.Linked, BookSide.LiveQueued, BookSide.Summed, BookSide.View, Indexed, Timed, Tracked, Numbered,
           CoreOk, AllIds;
      SideOf(side).LooseOrValid();
      var entry := SideOf(side).Best();
      SideOf(side).LooseOrValid();
      StillIndexed();
      r := if entry == null then None else Some(entry.order.price);
    }

    /** The size of the index; old orders are counted until something expires them. */
    method OpenOrderCount() returns (n: nat)
      requires Valid()
      ensures n == |AllIds(State())|
    {
      n := |index.Keys|;
    }

    method RecentTrades(limit: int) returns (r: Result<seq<Trade>>)
      requires Valid()
      ensures r == Err(BadLimit) <==> limit < 1
      ensures limit >= 1 ==>
        && r.Ok? && |r.value| == Min(limit, |State().tape|)
        && forall i | 0 <= i < |r.value| :: r.value[i] == State().tape[|State().tape| - 1 - i]
    {
      hide BooksOk, CoreOk, AllIds;
      if limit < 1 {
        return Err(BadLimit);
      }
      r := Ok(Recent(recentTrades, limit));
    }
  }

  lemma {:induction false} Snoc(ids: seq<OrderId>, id: OrderId)
    ensures IdSet(ids + [id]) == IdSet(ids) + {id}
    ensures Expiries(ids + [id]) == Expiries(ids) + [Closed(id, Expired)]
    ensures Distinct(ids) && id !in IdSet(ids) ==> Distinct(ids + [id])
  {
  }

  /** Expiring more of what is left keeps the list of the gone free of repeats. */
  lemma {:induction false} GoneMore<V>(index: map<OrderId, V>, gone: seq<OrderId>, more: seq<OrderId>)
    requires Distinct(gone) && |more| <= 1 && forall id | id in more :: id in index - IdSet(gone)
    ensures Distinct(gone + more) && IdSet(gone + more) == IdSet(gone) + IdSet(more)
    ensures Expiries(gone + more) == Expiries(gone) + Expiries(more)
    ensures index - IdSet(gone) - IdSet(more) == index - IdSet(gone + more)
    ensures forall id | id in IdSet(gone + more) :: id in IdSet(gone) || id in more
  {
    if more == [] {
      assert gone + more == gone;
      assert index - IdSet(gone) - {} == index - IdSet(gone);
    } else {
      assert more == [more[0]] && more[0] in more;
      Snoc(gone, more[0]);
      assert IdSet(more) == {more[0]};
    }
  }

  lemma {:induction false} Reassociated<T>(a: seq<T>, b: seq<T>, c: seq<T>)
    ensures a + b + c == a + (b + c)
  {
  }

  lemma {:induction false} NoneGone()
    ensures IdSet([]) == {} && Expiries([]) == [] && Distinct([])
  {
  }

  /** A matching with earlier trades and fills put in front. */
  ghost function Onto(trades: seq<Trade>, filled: seq<OrderId>, m: Matching): Matching {
    Matching(trades + m.trades, filled + m.filled, m.remaining, m.left)
  }

  lemma {:induction false} OntoOnto(trades: seq<Trade>, filled: seq<OrderId>, t: Trade, gone: seq<OrderId>, m: Matching)
    ensures Onto(trades, filled, Onto([t], gone, m)) == Onto(trades + [t], filled + gone, m)
  {
    assert trades + ([t] + m.trades) == trades + [t] + m.trades;
    assert filled + (gone + m.filled) == filled + gone + m.filled;
  }

  lemma {:induction false} OntoNothing(trades: seq<Trade>, filled: seq<OrderId>, remaining: int, left: seq<OpenOrder>)
    ensures Onto(trades, filled, Matching([], [], remaining, left)) == Matching(trades, filled, remaining, left)
  {
    assert trades + [] == trades && filled + [] == filled;
  }

  lemma {:induction false} NoFills<V>(index: map<OrderId, V>, m: Matching)
    ensures Onto([], [], m) == m && index - IdSet([]) == index && Fills([]) == []
  {
    assert [] + m.trades == m.trades && [] + m.filled == m.filled;
    assert IdSet([]) == {};
  }

  lemma {:induction false} FillsConcat(a: seq<OrderId>, b: seq<OrderId>)
    ensures Fills(a + b) == Fills(a) + Fills(b) && IdSet(a + b) == IdSet(a) + IdSet(b)
    ensures a == [] ==> Fills(a) == []
  {
  }
}

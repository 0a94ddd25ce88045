/**
 The registry's map from order id to symbol, kept in step by what the books
 report: an id is entered once its order rests, and leaves with the fill,
 expiry or cancel that closes it. It is exactly the resting orders of all books.
 */
module RegistryMap {
  import opened OrderTypes
  import opened ListBook
  import opened BookSpec
  import opened BookFacts
  import opened BookRuns

  type Symbols = map<OrderId, string>

  /** `_order_rested` and `_order_closed`, call by call. */
  function Hear(m: Symbols, ns: seq<Notice>, symbol: string): Symbols
    decreases |ns|
  {
    if ns == [] then m
    else
      var last := ns[|ns| - 1];
      var before := Hear(m, ns[..|ns| - 1], symbol);
      if last.Rested? then before[last.id := symbol] else before - {last.id}
  }

  /** The map's view of one symbol is what rests in its book. */
  ghost predicate InStep(m: Symbols, symbol: string, c: Core) {
    forall id :: id in m && m[id] == symbol <==> id in AllIds(c)
  }

  /** Nothing changed for the other symbols. */
  ghost predicate SameElsewhere(m: Symbols, m': Symbols, symbol: string) {
    && (forall id | id in m && m[id] != symbol :: id in m' && m'[id] == m[id])
    && (forall id | id in m' && m'[id] != symbol :: id in m && m[id] == m'[id])
  }

  lemma {:induction false} HearBoth(m: Symbols, a: seq<Notice>, b: seq<Notice>, symbol: string)
    ensures Hear(m, a + b, symbol) == Hear(Hear(m, a, symbol), b, symbol)
    decreases |b|
  {
    if b == [] {
      assert a + b == a;
    } else {
      HearBoth(m, a, b[..|b| - 1], symbol);
      assert (a + b)[..|a + b| - 1] == a + b[..|b| - 1];
    }
  }

  lemma {:induction false} HearCloses(m: Symbols, ns: seq<Notice>, ids: seq<OrderId>, symbol: string)
    requires |ns| == |ids| && forall i | 0 <= i < |ns| :: ns[i].Closed? && ns[i].id == ids[i]
    ensures Hear(m, ns, symbol) == m - IdSet(ids)
    decreases |ns|
  {
    if ns == [] {
      assert IdSet(ids) == {};
      assert m - {} == m;
    } else {
      var n := |ns| - 1;
      HearCloses(m, ns[..n], ids[..n], symbol);
      assert ids == ids[..n] + [ids[n]];
      assert IdSet(ids) == IdSet(ids[..n]) + {ids[n]};
      assert m - IdSet(ids[..n]) - {ids[n]} == m - IdSet(ids);
    }
  }

  lemma {:induction false} HearRests(m: Symbols, id: OrderId, symbol: string)
    ensures Hear(m, [Rested(id)], symbol) == m[id := symbol]
  {
    assert [Rested(id)][..0] == [];
  }

  /** What the book reported during a move. */
  ghost function Reported(w: World, mv: Move): seq<Notice> {
    var e := AfterExpiry(w, mv);
    Expiries(mv.gone) + if !mv.DoSubmit? then [] else
      var m := MatchIn(e.core, mv.order);
      Fills(m.filled) + if m.remaining == 0 then [] else [Rested(mv.order.orderId)]
  }

  lemma {:induction false} ReportedIsNew(w: World, maxAge: real, capacity: nat, mv: Move)
    ensures Moved(w, maxAge, capacity, mv).notices == w.notices + Reported(w, mv)
  {
  }

  /** The map after the move: the callbacks, and for a cancel the final removal. */
  ghost function MapAfter(m: Symbols, w: World, mv: Move, symbol: string): Symbols {
    var heard := Hear(m, Reported(w, mv), symbol);
    if mv.DoCancel? then heard - {mv.id} else heard
  }

  lemma {:induction false} ExpiryHeard(m: Symbols, w: World, maxAge: real, mv: Move, symbol: string)
    requires WorldOk(w) && CanMove(w, maxAge, mv) && InStep(m, symbol, w.core)
    ensures var m' := Hear(m, Expiries(mv.gone), symbol);
            && InStep(m', symbol, AfterExpiry(w, mv).core) && SameElsewhere(m, m', symbol) && m'.Keys <= m.Keys
  {
    hide CoreOk, AllIds, Distinct, ClosedOnce, Conserved, Uncrossed, Forget;
    HearCloses(m, Expiries(mv.gone), mv.gone, symbol);
    ForgetOk(w.core, IdSet(mv.gone));
  }

  lemma {:induction false} SubmitHeard(m: Symbols, w: World, order: Order, capacity: nat, symbol: string)
    requires WorldOk(w) && order.Valid() && order.orderId !in w.used && order.orderId !in m && InStep(m, symbol, w.core)
    ensures var x := MatchIn(w.core, order);
            var m' := Hear(m, Fills(x.filled) + (if x.remaining == 0 then [] else [Rested(order.orderId)]), symbol);
            && InStep(m', symbol, Submit(w.core, order, capacity)) && SameElsewhere(m, m', symbol)
            && m'.Keys <= m.Keys + {order.orderId}
  {
    hide CoreOk, AllIds, ClosedOnce, Conserved, Uncrossed, Submit, MatchIn, Fills;
    var x := MatchIn(w.core, order);
    SubmitOk(w.core, order, capacity);
    FillsClose(x.filled);
    HearCloses(m, Fills(x.filled), x.filled, symbol);
    if x.remaining != 0 {
      HearBoth(m, Fills(x.filled), [Rested(order.orderId)], symbol);
      HearRests(m - IdSet(x.filled), order.orderId, symbol);
    } else {
      assert Fills(x.filled) + [] == Fills(x.filled);
    }
  }

  /** One call keeps the map in step with the book it was for, and touches no other book's orders. */
  lemma {:induction false} MoveHeard(m: Symbols, w: World, maxAge: real, capacity: nat, mv: Move, symbol: string)
    requires WorldOk(w) && CanMove(w, maxAge, mv) && InStep(m, symbol, w.core)
    requires mv.DoSubmit? ==> mv.order.orderId !in m
    requires mv.DoCancel? && mv.id in m ==> m[mv.id] == symbol
    ensures var m' := MapAfter(m, w, mv, symbol);
            && InStep(m', symbol, Moved(w, maxAge, capacity, mv).core) && SameElsewhere(m, m', symbol)
            && m'.Keys <= m.Keys + if mv.DoSubmit? then {mv.order.orderId} else {}
  {
    hide CoreOk, AllIds, Distinct, WorldOk, MatchIn, Hear, Submit, Fills, Expiries, TooOld;
    ExpiryHeard(m, w, maxAge, mv, symbol);
    ExpiryKeeps(w, maxAge, mv);
    var e := AfterExpiry(w, mv);
    var m1 := Hear(m, Expiries(mv.gone), symbol);
    match mv
    case DoSubmit(order, now, later, gone) =>
      var x := MatchIn(e.core, order);
      SubmitHeard(m1, e, order, capacity, symbol);
      HearBoth(m, Expiries(gone), Fills(x.filled) + (if x.remaining == 0 then [] else [Rested(order.orderId)]), symbol);
    case DoCancel(id, now, gone) =>
      assert Expiries(gone) + [] == Expiries(gone);
      CoreOkOf(e);
      CancelOk(e.core, id);
    case DoLook(now, gone) =>
      assert Expiries(gone) + [] == Expiries(gone);
  }

  /** Looking at a book maps nothing new. */
  lemma {:induction false} LookHeard(m: Symbols, w: World, mv: Move, symbol: string)
    requires mv.DoLook?
    ensures MapAfter(m, w, mv, symbol).Keys <= m.Keys
  {
    HearCloses(m, Expiries(mv.gone), mv.gone, symbol);
    assert Expiries(mv.gone) + [] == Expiries(mv.gone);
  }

  lemma {:induction false} CoreOkOf(w: World)
    requires WorldOk(w)
    ensures CoreOk(w.core)
  {
  }

  // ----- Each book holds orders of its own symbol only -----

  ghost predicate AllFor(l: seq<OpenOrder>, symbol: string) {
    forall o | o in l :: o.order.symbol == symbol
  }

  ghost predicate OfSymbol(c: Core, symbol: string) {
    AllFor(c.bids, symbol) && AllFor(c.asks, symbol)
  }

  lemma {:induction false} LeftFor(taker: Order, remaining: int, makers: seq<OpenOrder>, symbol: string)
    requires AllFor(makers, symbol)
    ensures AllFor(Match(taker, remaining, makers).left, symbol)
    decreases |makers|, remaining != 0
  {
    if remaining != 0 && makers != [] && Crosses(taker, makers[0].order) {
      var matched := Min(remaining, makers[0].remaining);
      if matched == makers[0].remaining {
        LeftFor(taker, remaining - matched, makers[1..], symbol);
      } else {
        LeftFor(taker, remaining - matched, makers[0 := makers[0].(remaining := makers[0].remaining - matched)],
          symbol);
      }
    }
  }

  lemma {:induction false} InsertFor(l: seq<OpenOrder>, o: OpenOrder, symbol: string)
    requires AllFor(l, symbol) && o.order.symbol == symbol
    ensures AllFor(InsertSorted(l, o), symbol)
  {
    if l != [] && !Precedes(o, l[0]) {
      InsertFor(l[1..], o, symbol);
    }
  }

  lemma {:induction false} SubmitFor(c: Core, order: Order, capacity: nat, symbol: string)
    requires OfSymbol(c, symbol) && order.symbol == symbol
    ensures OfSymbol(Submit(c, order, capacity), symbol)
  {
    hide AllFor, Match, InsertSorted, Newest;
    var m := MatchIn(c, order);
    LeftFor(order, order.quantity, c.Resting(order.side.Opposite()), symbol);
    if m.remaining != 0 {
      InsertFor(c.Resting(order.side), OpenOrder(order, m.remaining, c.sequence + 1), symbol);
    }
  }


  lemma {:induction false} ForgetFor(c: Core, ids: set<OrderId>, symbol: string)
    requires OfSymbol(c, symbol)
    ensures OfSymbol(Forget(c, ids), symbol)
  {
    WithoutKeeps(c.bids, ids);
    WithoutKeeps(c.asks, ids);
  }

  lemma {:induction false} MoveFor(w: World, maxAge: real, capacity: nat, mv: Move, symbol: string)
    requires OfSymbol(w.core, symbol) && (mv.DoSubmit? ==> mv.order.symbol == symbol)
    ensures OfSymbol(AfterExpiry(w, mv).core, symbol) && OfSymbol(Moved(w, maxAge, capacity, mv).core, symbol)
  {
    hide Forget, Submit, MatchIn, QuantityOf, Fills, Expiries, AgesAfter;
    ForgetFor(w.core, IdSet(mv.gone), symbol);
    if mv.DoSubmit? {
      SubmitFor(AfterExpiry(w, mv).core, mv.order, capacity, symbol);
    }
  }

  lemma {:induction false} FoundFor(c: Core, id: OrderId, symbol: string)
    requires OfSymbol(c, symbol) && Find(c, id).Some?
    ensures Find(c, id).value.order.symbol == symbol
  {
  }

  // ----- All books -----

  /** The map is exactly the union of what rests in the registered books, each id under its own symbol. */
  ghost predicate Exact(m: Symbols, worlds: map<string, World>) {
    && (forall s | s in worlds :: InStep(m, s, worlds[s].core))
    && (forall id | id in m :: m[id] in worlds)
  }

  ghost predicate AllOk(worlds: map<string, World>, used: set<OrderId>, clock: real) {
    forall s | s in worlds ::
      WorldOk(worlds[s]) && OfSymbol(worlds[s].core, s) && worlds[s].used <= used && worlds[s].clock <= clock
  }

  lemma {:induction false} ExactUpdate(m: Symbols, m': Symbols, worlds: map<string, World>, symbol: string, w': World)
    requires Exact(m, worlds) && SameElsewhere(m, m', symbol) && InStep(m', symbol, w'.core)
    ensures Exact(m', worlds[symbol := w'])
  {
    hide AllIds;
    var worlds' := worlds[symbol := w'];
    forall s | s in worlds'
      ensures InStep(m', s, worlds'[s].core)
    {
      if s != symbol {
        assert InStep(m, s, worlds[s].core);
      }
    }
  }

  /** A new book is empty, so nothing is mapped to it. */
  lemma {:induction false} ExactOpen(m: Symbols, worlds: map<string, World>, symbol: string, clock: real)
    requires Exact(m, worlds) && symbol !in worlds
    ensures Exact(m, worlds[symbol := Start(clock)])
  {
    var worlds' := worlds[symbol := Start(clock)];
    assert AllIds(EMPTY) == {};
    forall s | s in worlds'
      ensures InStep(m, s, worlds'[s].core)
    {
      if s != symbol {
        assert InStep(m, s, worlds[s].core);
      }
    }
  }

  /** No id rests in two books. */
  lemma {:induction false} BooksDisjoint(m: Symbols, worlds: map<string, World>, a: string, b: string)
    requires Exact(m, worlds) && a in worlds && b in worlds && a != b
    ensures AllIds(worlds[a].core) !! AllIds(worlds[b].core)
  {
    hide AllIds;
    forall id | id in AllIds(worlds[a].core)
      ensures id !in AllIds(worlds[b].core)
    {
      assert InStep(m, a, worlds[a].core) && InStep(m, b, worlds[b].core);
      assert id in m && m[id] == a;
    }
  }

  lemma {:induction false} AllOkLater(worlds: map<string, World>, used: set<OrderId>, clock: real, now: real)
    requires AllOk(worlds, used, clock) && clock <= now
    ensures AllOk(worlds, used, now)
  {
    hide WorldOk;
  }

  lemma {:induction false} AllOkUpdate(worlds: map<string, World>, used: set<OrderId>, clock: real, now: real,
                                       symbol: string, w: World)
    requires AllOk(worlds, used, clock) && clock <= now && WorldOk(w) && OfSymbol(w.core, symbol) && w.clock <= now
    ensures AllOk(worlds[symbol := w], used + w.used, now)
  {
    hide WorldOk;
  }

  lemma {:induction false} WorldIn(worlds: map<string, World>, used: set<OrderId>, clock: real, symbol: string)
    requires AllOk(worlds, used, clock) && symbol in worlds
    ensures WorldOk(worlds[symbol]) && OfSymbol(worlds[symbol].core, symbol) && worlds[symbol].used <= used
    ensures worlds[symbol].clock <= clock
  {
    hide WorldOk;
  }

  function TimeAfter(mv: Move): real {
    if mv.DoSubmit? then mv.later else mv.now
  }

  function UsedAfter(mv: Move, used: set<OrderId>): set<OrderId> {
    if mv.DoSubmit? then used + {mv.order.orderId} else used
  }

  /** A call on one registered book keeps every book sound and the map exact. */
  lemma {:induction false} MovedRegistry(m: Symbols, worlds: map<string, World>, used: set<OrderId>, clock: real,
                                         maxAge: real, capacity: nat, mv: Move, symbol: string)
    requires Exact(m, worlds) && AllOk(worlds, used, clock) && m.Keys <= used && symbol in worlds
    requires CanMove(worlds[symbol], maxAge, mv) && clock <= mv.now
    requires (mv.DoSubmit? ==> mv.order.orderId !in used && mv.order.symbol == symbol)
    requires mv.DoCancel? && mv.id in m ==> m[mv.id] == symbol
    ensures var w := worlds[symbol];
            var worlds' := worlds[symbol := Moved(w, maxAge, capacity, mv)];
            && Exact(MapAfter(m, w, mv, symbol), worlds') && AllOk(worlds', UsedAfter(mv, used), TimeAfter(mv))
            && MapAfter(m, w, mv, symbol).Keys <= UsedAfter(mv, used)
  {
    hide WorldOk, InStep, MapAfter, SameElsewhere, OfSymbol;
    var w := worlds[symbol];
    WorldIn(worlds, used, clock, symbol);
    assert InStep(m, symbol, w.core);
    MoveHeard(m, w, maxAge, capacity, mv, symbol);
    MoveKeeps(w, maxAge, capacity, mv);
    MoveFor(w, maxAge, capacity, mv, symbol);
    var w' := Moved(w, maxAge, capacity, mv);
    ExactUpdate(m, MapAfter(m, w, mv, symbol), worlds, symbol, w');
  }

  lemma {:induction false} MappedIsOpen(m: Symbols, worlds: map<string, World>, id: OrderId)
    requires Exact(m, worlds) && id in m
    ensures m[id] in worlds
  {
  }

  /** An id the map does not name rests in no book. */
  lemma {:induction false} GoneEverywhere(m: Symbols, worlds: map<string, World>, id: OrderId)
    requires Exact(m, worlds) && id !in m
    ensures forall s | s in worlds :: id !in AllIds(worlds[s].core)
  {
    hide AllIds;
    forall s | s in worlds
      ensures id !in AllIds(worlds[s].core)
    {
      assert InStep(m, s, worlds[s].core);
    }
  }
}

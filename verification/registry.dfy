/**
 The registry of one matcher process: its books, the order-id map and the session roll-over, one
 request at a time.
 */
module Registries {
  import opened OrderTypes
  import opened BookSpec
  import opened BookRuns
  import opened OrderBooks
  import opened BookService
  import opened RegistryMap

  /** Everything a book is made of lies in `f`. */
  ghost predicate Within(book: OrderBook, f: set<object>)
    reads f
  {
    && book in f && book.buy in f && book.sell in f
    && book.buy.nodes <= f && book.sell.nodes <= f && book.buy.entries <= f && book.sell.entries <= f
  }

  /** The book serves `symbol`, has got to `w` in its run, and is made of objects of `f` only. */
  ghost predicate Stands(book: OrderBook, symbol: string, w: World, f: set<object>, capacity: nat, maxAge: real)
    reads f
  {
    Within(book, f) && book.symbol == symbol && book.capacity == capacity && book.maxAge == maxAge && At(book, w)
  }

  /** What the book is made of after it has grown. */
  ghost function Larger(book: OrderBook, f: set<object>): set<object>
    reads book.buy, book.sell
  {
    f + book.buy.nodes + book.sell.nodes + book.buy.entries + book.sell.entries
  }

  lemma StandsLarger(book: OrderBook, symbol: string, w: World, f: set<object>, capacity: nat, maxAge: real)
    requires book in f && book.buy in f && book.sell in f
    requires book.symbol == symbol && book.capacity == capacity && book.maxAge == maxAge && At(book, w)
    ensures Stands(book, symbol, w, Larger(book, f), capacity, maxAge)
  {
    hide At;
  }

  /** A new book, all of whose objects are new. */
  method Create(symbol: string, capacity: nat, maxAge: real, now: real) returns (book: OrderBook, ghost f: set<object>)
    requires capacity >= 1 && maxAge >= 0.0
    ensures fresh(f) && Stands(book, symbol, Start(now), f, capacity, maxAge)
  {
    hide At, OrderBook.Valid;
    book := new OrderBook(symbol, capacity, maxAge, now);
    AtStart(book, now);
    f := {book, book.buy, book.sell};
  }

  class OrderBookRegistry {
    const owned: set<string>       // the symbols of this shard
    const capacity: nat
    const maxAge: real
    var books: map<string, OrderBook>
    var orderSymbols: Symbols
    var session: Option<int>
    ghost var worlds: map<string, World>         // where each book's run has got to
    ghost var parts: map<string, set<object>>    // what each book is made of
    ghost var Repr: set<object>
    ghost var used: set<OrderId>
    ghost var clock: real

    ghost predicate Holds(s: string)
      reads this, Repr
    {
      && s in books && s in worlds && s in parts && s in owned && parts[s] <= Repr
      && Stands(books[s], s, worlds[s], parts[s], capacity, maxAge)
    }

    ghost predicate Apart() reads this {
      forall s, t | s in parts && t in parts && s != t :: parts[s] !! parts[t]
    }

    ghost predicate Valid()
      reads this, Repr
    {
      && capacity >= 1 && maxAge >= 0.0 && this !in Repr
      && books.Keys == worlds.Keys == parts.Keys && (forall s | s in books :: Holds(s)) && Apart()
      && AllOk(worlds, used, clock) && Exact(orderSymbols, worlds) && orderSymbols.Keys <= used
    }

    constructor (owned: set<string>, capacity: nat, maxAge: real, ghost clock: real)
      requires capacity >= 1 && maxAge >= 0.0
      ensures Valid() && books == map[] && orderSymbols == map[] && session == None && used == {} && Repr == {}
      ensures this.owned == owned && this.capacity == capacity && this.maxAge == maxAge && this.clock == clock
    {
      this.owned, this.capacity, this.maxAge, this.clock := owned, capacity, maxAge, clock;
      books, orderSymbols, session := map[], map[], None;
      worlds, parts, Repr, used := map[], map[], {}, {};
    }

    /** The book's run so far, or an empty run for a book not created yet. */
    ghost function WorldOf(symbol: string, now: real): World
      reads this
    {
      if symbol in worlds then worlds[symbol] else Start(now)
    }

    /** The first use of a symbol creates its book. */
    method Open(symbol: string, now: real) returns (book: OrderBook)
      requires Valid() && clock <= now && symbol in owned && symbol !in books
      modifies this`books, this`worlds, this`parts, this`Repr, this`clock
      ensures Valid() && clock == now
      ensures books == old(books)[symbol := book] && worlds == old(worlds)[symbol := Start(now)]
      ensures Repr == old(Repr) + parts[symbol] && fresh(parts[symbol])
    {
      hide Valid, Stands, AllOk, Exact, Start, WorldOk, OfSymbol;
      Quiet();
      ghost var f;
      book, f := Create(symbol, capacity, maxAge, now);
      ExactOpen(orderSymbols, worlds, symbol, now);
      StartOk(now);
      NewWorld(used, now, symbol);
      AllOkUpdate(worlds, used, clock, now, symbol, Start(now));
      books, worlds, clock := books[symbol := book], worlds[symbol := Start(now)], now;
      parts, Repr := parts[symbol := f], Repr + f;
      Opened(symbol);
    }

    /** What does not depend on any one book. */
    lemma Quiet()
      requires Valid()
      ensures AllOk(worlds, used, clock) && Exact(orderSymbols, worlds) && books.Keys == worlds.Keys && capacity >= 1
      ensures maxAge >= 0.0 && this !in Repr
    {
      hide Holds, AllOk, Exact;
    }

    static lemma NewWorld(used: set<OrderId>, now: real, symbol: string)
      ensures used + Start(now).used == used && Start(now).clock == now && OfSymbol(Start(now).core, symbol)
    {
    }

    lemma NotItsOwnPart()
      requires Valid()
      ensures this !in Repr
    {
    }

    ghost method Tick(now: real)
      requires Valid() && clock <= now
      modifies this`clock
      ensures Valid() && clock == now
    {
      hide Stands, AllOk, Exact;
      AllOkLater(worlds, used, clock, now);
      clock := now;
    }

    /** Find or create; a symbol of another shard has no book. */
    method Get(symbol: string, now: real) returns (book: OrderBook?)
      requires Valid() && clock <= now
      modifies this`books, this`worlds, this`parts, this`Repr, this`clock
      ensures Valid() && clock == now && fresh(Repr - old(Repr))
      ensures book == null <==> symbol !in owned
      ensures book == null ==> books == old(books) && worlds == old(worlds) && Repr == old(Repr)
      ensures book != null ==>
                symbol in books && books[symbol] == book && worlds == old(worlds)[symbol := old(WorldOf(symbol, now))]
    {
      hide Stands, AllOk, Exact, Start, WorldOk, Holds;
      if symbol !in owned {
        Tick(now);
        return null;
      }
      if symbol !in books {
        book := Open(symbol, now);
      } else {
        Tick(now);
        assert worlds[symbol := worlds[symbol]] == worlds;
        return books[symbol];
      }
    }

    twostate lemma Joined(symbol: string)
      requires old(Valid()) && symbol !in old(books) && symbol in books && symbol in owned && symbol in worlds
      requires symbol in parts
      requires books == old(books)[symbol := books[symbol]] && worlds == old(worlds)[symbol := worlds[symbol]]
      requires fresh(parts[symbol]) && parts == old(parts)[symbol := parts[symbol]] && Repr == old(Repr) + parts[symbol]
      requires unchanged(old(Repr)) && orderSymbols == old(orderSymbols)
      requires Stands(books[symbol], symbol, worlds[symbol], parts[symbol], capacity, maxAge)
      ensures (forall s | s in books :: Holds(s)) && Apart() && books.Keys == worlds.Keys == parts.Keys
      ensures this !in old(Repr)
    {
      hide Stands, AllOk, Exact;
      forall s | s in books
        ensures Holds(s)
      {
        if s != symbol {
          assert old(Holds(s));
          assert old(Stands(books[s], s, worlds[s], parts[s], capacity, maxAge));
        }
      }
    }

    twostate lemma Opened(symbol: string)
      requires old(Valid()) && symbol !in old(books) && symbol in books && symbol in owned && symbol in worlds
      requires symbol in parts
      requires books == old(books)[symbol := books[symbol]] && worlds == old(worlds)[symbol := worlds[symbol]]
      requires fresh(parts[symbol]) && parts == old(parts)[symbol := parts[symbol]] && Repr == old(Repr) + parts[symbol]
      requires unchanged(old(Repr)) && orderSymbols == old(orderSymbols) && used == old(used)
      requires Stands(books[symbol], symbol, worlds[symbol], parts[symbol], capacity, maxAge)
      requires AllOk(worlds, used, clock) && Exact(orderSymbols, worlds)
      ensures Valid()
    {
      hide Stands, Holds, Apart, AllOk, Exact;
      Joined(symbol);
    }

    /** The book's reports, applied to the id map in the order they were made. */
    method HearAll(ns: seq<Notice>, symbol: string)
      modifies this`orderSymbols
      ensures orderSymbols == Hear(old(orderSymbols), ns, symbol)
    {
      for i := 0 to |ns|
        invariant orderSymbols == Hear(old(orderSymbols), ns[..i], symbol)
      {
        assert ns[..i + 1][..i] == ns[..i];
        if ns[i].Rested? {
          orderSymbols := orderSymbols[ns[i].id := symbol];
        } else {
          orderSymbols := orderSymbols - {ns[i].id};
        }
      }
      assert ns[..|ns|] == ns;
    }

    /** One book has served a request; the others are where they were. */
    twostate lemma OthersStand(symbol: string)
      requires old(Valid()) && symbol in books && books == old(books) && this !in Repr
      requires symbol in worlds && worlds == old(worlds)[symbol := worlds[symbol]]
      requires symbol in parts && parts == old(parts)[symbol := parts[symbol]] && Repr == old(Repr) + parts[symbol]
      requires fresh(parts[symbol] - old(parts[symbol])) && unchanged(old(Repr) - old(parts[symbol]))
      requires Stands(books[symbol], symbol, worlds[symbol], parts[symbol], capacity, maxAge)
      ensures (forall s | s in books :: Holds(s)) && Apart() && books.Keys == worlds.Keys == parts.Keys
    {
      hide Stands, AllOk, Exact;
      assert old(Holds(symbol));
      forall s | s in books
        ensures Holds(s)
      {
        if s != symbol {
          assert old(Holds(s));
          assert parts[s] !! old(parts[symbol]);
          assert old(Stands(books[s], s, worlds[s], parts[s], capacity, maxAge));
        }
      }
    }

    twostate lemma Advanced(symbol: string)
      requires old(Valid()) && symbol in books && books == old(books) && this !in Repr
      requires symbol in worlds && worlds == old(worlds)[symbol := worlds[symbol]]
      requires symbol in parts && parts == old(parts)[symbol := parts[symbol]] && Repr == old(Repr) + parts[symbol]
      requires fresh(parts[symbol] - old(parts[symbol])) && unchanged(old(Repr) - old(parts[symbol]))
      requires Stands(books[symbol], symbol, worlds[symbol], parts[symbol], capacity, maxAge)
      requires AllOk(worlds, used, clock) && Exact(orderSymbols, worlds) && orderSymbols.Keys <= used
      ensures Valid()
    {
      hide Stands, Holds, Apart, AllOk, Exact;
      OthersStand(symbol);
    }

    ghost method Grow(symbol: string, f: set<object>, w: World, used: set<OrderId>, clock: real)
      modifies this`worlds, this`parts, this`Repr, this`used, this`clock
      ensures worlds == old(worlds)[symbol := w] && this.used == used && this.clock == clock
      ensures parts == old(parts)[symbol := f] && Repr == old(Repr) + f
    {
      worlds, this.used, this.clock := worlds[symbol := w], used, clock;
      parts, Repr := parts[symbol := f], Repr + f;
    }

    /** What a call on an open book starts from. */
    lemma Opening(symbol: string)
      requires Valid() && symbol in books
      ensures symbol in worlds && symbol in parts && parts[symbol] <= Repr && this !in Repr
      ensures AllOk(worlds, used, clock) && Exact(orderSymbols, worlds) && orderSymbols.Keys <= used
    {
      hide Stands, AllOk, Exact;
      assert Holds(symbol);
    }

    lemma OpenIsOwned(symbol: string)
      requires Valid() && symbol in worlds
      ensures symbol in owned
    {
      assert Holds(symbol);
    }

    /** What an open book brings to a call. */
    lemma Standing(symbol: string)
      requires Valid() && symbol in books
      ensures symbol in worlds && symbol in parts && parts[symbol] <= Repr
      ensures var book, w, f := books[symbol], worlds[symbol], parts[symbol];
              && At(book, w) && book.notices == w.notices && WorldOk(w) && w.used <= used && w.clock <= clock
              && book.symbol == symbol && book.capacity == capacity && book.maxAge == maxAge
              && book in f && book.buy in f && book.sell in f && book.buy.nodes <= f && book.sell.nodes <= f
              && book.buy.entries <= f && book.sell.entries <= f
    {
      hide At, Exact, WorldOk, Apart;
      assert Holds(symbol);
      WorldIn(worlds, used, clock, symbol);
      NoticesAt(books[symbol], worlds[symbol]);
    }

    /** The book does its work; `f` is what it is made of afterwards, `ns` what it reported. */
    method SubmitToBook(symbol: string, order: Order, now: real, later: real)
      returns (r: MatchResult, ns: seq<Notice>, ghost mv: Move, ghost f: set<object>)
      requires Valid() && symbol in books && order.symbol == symbol && order.Valid()
      requires order.orderId !in used && clock <= now <= later
      modifies parts[symbol]
      ensures mv.DoSubmit? && mv.order == order && mv.now == now && mv.later == later
      ensures CanMove(worlds[symbol], maxAge, mv)
      ensures r == SubmitResult(AfterExpiry(worlds[symbol], mv).core, order) && ns == Reported(worlds[symbol], mv)
      ensures Stands(books[symbol], symbol, Moved(worlds[symbol], maxAge, capacity, mv), f, capacity, maxAge)
      ensures parts[symbol] <= f && fresh(f - parts[symbol])
    {
      hide At, AllOk, Exact, WorldOk, Moved, CanMove, AfterExpiry, Reported, Hear, InStep, Apart, Holds, Within;
      Standing(symbol);
      var book := books[symbol];
      ghost var w := worlds[symbol];
      var heard := |book.notices|;
      r, mv := SubmitTo(book, order, now, later, w);
      ReportedIsNew(w, maxAge, capacity, mv);
      NoticesAt(book, Moved(w, maxAge, capacity, mv));
      ns := book.notices[heard..];
      f := Larger(book, parts[symbol]);
      StandsLarger(book, symbol, Moved(w, maxAge, capacity, mv), parts[symbol], capacity, maxAge);
    }

    /** The submission itself, once the book is there. */
    method SubmitIn(symbol: string, order: Order, now: real, later: real) returns (r: MatchResult, ghost mv: Move)
      requires Valid() && symbol in books && order.symbol == symbol && order.Valid()
      requires order.orderId !in used && clock <= now <= later
      modifies this`orderSymbols, this`worlds, this`parts, this`Repr, this`used, this`clock, Repr
      ensures Valid() && clock == later && used == old(used) + {order.orderId}
      ensures mv.DoSubmit? && mv.order == order && mv.now == now && mv.later == later
      ensures CanMove(old(worlds[symbol]), maxAge, mv)
      ensures worlds == old(worlds)[symbol := Moved(old(worlds[symbol]), maxAge, capacity, mv)]
      ensures r == SubmitResult(AfterExpiry(old(worlds[symbol]), mv).core, order)
      ensures orderSymbols == MapAfter(old(orderSymbols), old(worlds[symbol]), mv, symbol)
      ensures fresh(Repr - old(Repr))
    {
      hide Valid, Stands, AllOk, Exact, WorldOk, Moved, CanMove, AfterExpiry, Reported, Hear;
      Opening(symbol);
      var ns;
      ghost var f;
      r, ns, mv, f := SubmitToBook(symbol, order, now, later);
      HearAll(ns, symbol);
      MovedRegistry(old(orderSymbols), old(worlds), old(used), old(clock), maxAge, capacity, mv, symbol);
      Grow(symbol, f, Moved(worlds[symbol], maxAge, capacity, mv), used + {order.orderId}, later);
      Advanced(symbol);
    }

    /** Submit to the book of the order's symbol, created on first use. */
    method Submit(order: Order, now: real, later: real) returns (r: Result<MatchResult>, ghost mv: Option<Move>)
      requires Valid() && order.Valid() && order.orderId !in used && clock <= now <= later
      modifies this`books, this`orderSymbols, this`worlds, this`parts, this`Repr, this`used, this`clock, Repr
      ensures Valid() && now <= clock <= later && session == old(session) && fresh(Repr - old(Repr))
      ensures used == if order.symbol in owned then old(used) + {order.orderId} else old(used)
      ensures order.symbol !in owned ==>
        && r == Err(NotOwned) && mv == None
        && worlds == old(worlds) && orderSymbols == old(orderSymbols) && books == old(books)
      ensures order.symbol in owned ==>
        mv.Some? && mv.value.DoSubmit? && mv.value.order == order && mv.value.now == now && mv.value.later == later &&
        var w := old(WorldOf(order.symbol, now));
        && CanMove(w, maxAge, mv.value)
        && r == Ok(SubmitResult(AfterExpiry(w, mv.value).core, order))
        && worlds == old(worlds)[order.symbol := Moved(w, maxAge, capacity, mv.value)]
        && orderSymbols == MapAfter(old(orderSymbols), w, mv.value, order.symbol)
    {
      hide Valid, WorldOk, Moved, CanMove, AfterExpiry, MapAfter, Start;
      ghost var w := WorldOf(order.symbol, now);
      var book := Get(order.symbol, now);
      if book == null {
        return Err(NotOwned), None;
      }
      NotItsOwnPart();
      ghost var done;
      var result;
      result, done := SubmitIn(order.symbol, order, now, later);
      assert old(worlds)[order.symbol := w][order.symbol := Moved(w, maxAge, capacity, done)]
          == old(worlds)[order.symbol := Moved(w, maxAge, capacity, done)];
      r, mv := Ok(result), Some(done);
    }

    method CancelToBook(symbol: string, id: OrderId, now: real)
      returns (r: Result<OpenOrder>, ns: seq<Notice>, ghost mv: Move, ghost f: set<object>)
      requires Valid() && symbol in books && clock <= now
      modifies parts[symbol]
      ensures mv.DoCancel? && mv.id == id && mv.now == now && CanMove(worlds[symbol], maxAge, mv)
      ensures r == CancelResult(AfterExpiry(worlds[symbol], mv).core, id) && ns == Reported(worlds[symbol], mv)
      ensures Stands(books[symbol], symbol, Moved(worlds[symbol], maxAge, capacity, mv), f, capacity, maxAge)
      ensures f == parts[symbol]
    {
      hide At, AllOk, Exact, WorldOk, Moved, CanMove, AfterExpiry, Reported, Hear, InStep, Apart, Holds, Within;
      Standing(symbol);
      var book := books[symbol];
      ghost var w := worlds[symbol];
      var heard := |book.notices|;
      r, mv := CancelIn(book, id, now, w);
      ReportedIsNew(w, maxAge, capacity, mv);
      NoticesAt(book, Moved(w, maxAge, capacity, mv));
      ns := book.notices[heard..];
      f := parts[symbol];
      StandsLarger(book, symbol, Moved(w, maxAge, capacity, mv), f, capacity, maxAge);
      assert Larger(book, f) == f;
    }

    /**
     Cancel by id alone: the map names the book; found or not, the id leaves the map.
     Only open books are named, so the source's second look-up never creates one.
     */
    method Cancel(id: OrderId, now: real) returns (r: Result<OpenOrder>, ghost mv: Option<Move>)
      requires Valid() && clock <= now
      modifies this`books, this`orderSymbols, this`worlds, this`parts, this`Repr, this`used, this`clock, Repr
      ensures Valid() && clock == now && used == old(used) && books == old(books) && Repr == old(Repr)
      ensures id !in old(orderSymbols) ==>
        && r == Err(OrderNotFound) && mv == None
        && worlds == old(worlds) && orderSymbols == old(orderSymbols)
      ensures id in old(orderSymbols) ==>
        mv.Some? && mv.value.DoCancel? && mv.value.id == id && mv.value.now == now
          && old(orderSymbols[id]) in old(worlds) &&
        var symbol := old(orderSymbols[id]);
        var w := old(worlds[symbol]);
        && CanMove(w, maxAge, mv.value)
        && r == CancelResult(AfterExpiry(w, mv.value).core, id)
        && worlds == old(worlds)[symbol := Moved(w, maxAge, capacity, mv.value)]
        && orderSymbols == MapAfter(old(orderSymbols), w, mv.value, symbol)
    {
      hide Holds, AllOk, Exact, WorldOk, Moved, CanMove, AfterExpiry, MapAfter, Apart;
      if id !in orderSymbols {
        Tick(now);
        return Err(OrderNotFound), None;
      }
      MappedIsOpen(orderSymbols, worlds, id);
      ghost var done;
      r, done := CancelFrom(orderSymbols[id], id, now);
      mv := Some(done);
    }

    /** The cancel itself, in the book the map names. */
    method CancelFrom(symbol: string, id: OrderId, now: real) returns (r: Result<OpenOrder>, ghost mv: Move)
      requires Valid() && symbol in books && clock <= now && id in orderSymbols && orderSymbols[id] == symbol
      modifies this`orderSymbols, this`worlds, this`parts, this`Repr, this`used, this`clock, Repr
      ensures Valid() && clock == now && used == old(used) && Repr == old(Repr)
      ensures mv.DoCancel? && mv.id == id && mv.now == now && CanMove(old(worlds[symbol]), maxAge, mv)
      ensures r == CancelResult(AfterExpiry(old(worlds[symbol]), mv).core, id)
      ensures worlds == old(worlds)[symbol := Moved(old(worlds[symbol]), maxAge, capacity, mv)]
      ensures orderSymbols == MapAfter(old(orderSymbols), old(worlds[symbol]), mv, symbol)
    {
      hide Valid, Stands, AllOk, Exact, WorldOk, Moved, CanMove, AfterExpiry, Reported, Hear;
      Opening(symbol);
      var ns;
      ghost var f;
      r, ns, mv, f := CancelToBook(symbol, id, now);
      HearAll(ns, symbol);
      orderSymbols := orderSymbols - {id};
      MovedRegistry(old(orderSymbols), old(worlds), old(used), old(clock), maxAge, capacity, mv, symbol);
      Grow(symbol, f, Moved(worlds[symbol], maxAge, capacity, mv), used, now);
      Advanced(symbol);
    }

    method AskBook(symbol: string, query: Query, now: real)
      returns (r: Answer, ns: seq<Notice>, ghost mv: Move, ghost f: set<object>)
      requires Valid() && symbol in books && clock <= now
      modifies parts[symbol]
      ensures mv.DoLook? && mv.now == now && CanMove(worlds[symbol], maxAge, mv)
      ensures r == AnswerOf(AfterExpiry(worlds[symbol], mv).core, query, symbol) && ns == Reported(worlds[symbol], mv)
      ensures Stands(books[symbol], symbol, Moved(worlds[symbol], maxAge, capacity, mv), f, capacity, maxAge)
      ensures f == parts[symbol]
    {
      hide At, AllOk, Exact, WorldOk, Moved, CanMove, AfterExpiry, Reported, Hear, InStep, Apart, Holds, Within;
      Standing(symbol);
      var book := books[symbol];
      ghost var w := worlds[symbol];
      var heard := |book.notices|;
      r, mv := Ask(book, query, now, w);
      ReportedIsNew(w, maxAge, capacity, mv);
      NoticesAt(book, Moved(w, maxAge, capacity, mv));
      ns := book.notices[heard..];
      f := parts[symbol];
      StandsLarger(book, symbol, Moved(w, maxAge, capacity, mv), f, capacity, maxAge);
      assert Larger(book, f) == f;
    }

    /** A question to a book expires what is too old, and the map hears of it. */
    method Look(symbol: string, query: Query, now: real) returns (r: Option<Answer>, ghost mv: Option<Move>)
      requires Valid() && clock <= now
      modifies this`books, this`orderSymbols, this`worlds, this`parts, this`Repr, this`used, this`clock, Repr
      ensures Valid() && clock == now && used == old(used) && fresh(Repr - old(Repr))
      ensures symbol !in owned ==> r == None && mv == None && worlds == old(worlds) && orderSymbols == old(orderSymbols)
      ensures symbol in owned ==>
        mv.Some? && mv.value.DoLook? && mv.value.now == now &&
        var w := old(WorldOf(symbol, now));
        && CanMove(w, maxAge, mv.value)
        && r == Some(AnswerOf(AfterExpiry(w, mv.value).core, query, symbol))
        && worlds == old(worlds)[symbol := Moved(w, maxAge, capacity, mv.value)]
        && orderSymbols == MapAfter(old(orderSymbols), w, mv.value, symbol)
    {
      hide Valid, WorldOk, Moved, CanMove, AfterExpiry, MapAfter, AnswerOf, Start;
      ghost var w := WorldOf(symbol, now);
      var book := Get(symbol, now);
      if book == null {
        return None, None;
      }
      ghost var done;
      var answer;
      answer, done := LookIn(symbol, query, now);
      assert old(worlds)[symbol := w][symbol := Moved(w, maxAge, capacity, done)]
        == old(worlds)[symbol := Moved(w, maxAge, capacity, done)];
      r, mv := Some(answer), Some(done);
    }

    method LookIn(symbol: string, query: Query, now: real) returns (r: Answer, ghost mv: Move)
      requires Valid() && symbol in books && clock <= now
      modifies this`orderSymbols, this`worlds, this`parts, this`Repr, this`used, this`clock, Repr
      ensures Valid() && clock == now && used == old(used) && Repr == old(Repr)
      ensures mv.DoLook? && mv.now == now && CanMove(old(worlds[symbol]), maxAge, mv)
      ensures worlds == old(worlds)[symbol := Moved(old(worlds[symbol]), maxAge, capacity, mv)]
      ensures r == AnswerOf(AfterExpiry(old(worlds[symbol]), mv).core, query, symbol)
      ensures orderSymbols == MapAfter(old(orderSymbols), old(worlds[symbol]), mv, symbol)
    {
      hide Valid, Stands, AllOk, Exact, WorldOk, Moved, CanMove, AfterExpiry, Reported, Hear;
      Opening(symbol);
      var ns;
      ghost var f;
      r, ns, mv, f := AskBook(symbol, query, now);
      HearAll(ns, symbol);
      MovedRegistry(old(orderSymbols), old(worlds), old(used), old(clock), maxAge, capacity, mv, symbol);
      Grow(symbol, f, Moved(worlds[symbol], maxAge, capacity, mv), used, now);
      Advanced(symbol);
    }

    static lemma NoBooks(used: set<OrderId>, clock: real)
      ensures AllOk(map[], used, clock) && Exact(map[], map[])
    {
    }

    /** A later session date clears the books and the id map. */
    method Rollover(date: Option<int>) returns (cleared: set<string>)
      requires Valid()
      modifies this`books, this`orderSymbols, this`session, this`worlds, this`parts, this`Repr
      ensures Valid() && Repr <= old(Repr)
      ensures session == if date.Some? && (old(session).None? || old(session).value < date.value) then date
                         else old(session)
      ensures var newer := date.Some? && old(session).Some? && old(session).value < date.value;
        && cleared == (if newer then old(books.Keys) else {})
        && books == (if newer then map[] else old(books)) && worlds == (if newer then map[] else old(worlds))
        && orderSymbols == (if newer then map[] else old(orderSymbols))
    {
      hide Stands, AllOk, Exact;
      NoBooks(used, clock);
      if date.None? {
        return {};
      }
      if session.None? {
        session := date;
        return {};
      }
      if date.value <= session.value {
        return {};
      }
      cleared := books.Keys;
      books, orderSymbols, session := map[], map[], date;
      worlds, parts, Repr := map[], map[], {};
    }

    method ResetBooks() returns (cleared: set<string>)
      requires Valid()
      modifies this`books, this`orderSymbols, this`session, this`worlds, this`parts, this`Repr
      ensures Valid() && cleared == old(books.Keys)
      ensures books == map[] && orderSymbols == map[] && session == None && worlds == map[] && Repr == {}
    {
      hide Stands, AllOk, Exact;
      NoBooks(used, clock);
      cleared := books.Keys;
      books, orderSymbols, session := map[], map[], None;
      worlds, parts, Repr := map[], map[], {};
    }
  }
}

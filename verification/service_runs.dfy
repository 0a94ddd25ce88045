/**
 Whole runs of requests on a new book object: the replies and the final state are
 those of the model run, which every request fits.
 */
module ServiceRuns {
  import opened OrderTypes
  import opened BookSpec
  import opened BookFacts
  import opened MatchFacts
  import opened PriceLevels
  import opened BookSides
  import opened OrderBooks
  import opened BookRuns
  import opened BookService

  lemma StepTime(w: World, maxAge: real, capacity: nat, r: Request, symbol: string, m: Option<Move>)
    requires Fits(r, symbol, m)
    ensures var w' := Stepped(w, maxAge, capacity, m);
            w'.clock == TimeAfter(r, symbol, w.clock) && w'.used == UsedAfter(r, symbol, w.used)
  {
  }

  function TimeAfter(r: Request, symbol: string, clock: real): real {
    if !Moving(r, symbol) then clock else if r.NewOrder? then r.later else r.now
  }

  function UsedAfter(r: Request, symbol: string, used: set<OrderId>): set<OrderId> {
    if r.NewOrder? && Moving(r, symbol) then used + {r.order.orderId} else used
  }

  /** Requests with clock readings that never go back, and orders with ids never submitted before. */
  ghost predicate InOrder(rs: seq<Request>, symbol: string, clock: real, used: set<OrderId>)
    decreases |rs|
  {
    rs == [] ||
    (&& (!rs[0].Peek? ==> clock <= rs[0].now)
     && (rs[0].NewOrder? ==> rs[0].now <= rs[0].later && rs[0].order.Valid() && rs[0].order.orderId !in used)
     && InOrder(rs[1..], symbol, TimeAfter(rs[0], symbol, clock), UsedAfter(rs[0], symbol, used)))
  }

  // ----- What a run of requests comes to -----

  /** The moves of a run, without the requests that make none. */
  function Made(ms: seq<Option<Move>>): seq<Move> {
    if ms == [] then [] else (if ms[0].Some? then [ms[0].value] else []) + Made(ms[1..])
  }

  /** The replies of a run whose requests make these moves from `w`. */
  ghost function Replies(rs: seq<Request>, symbol: string, maxAge: real, capacity: nat, w: World,
                         ms: seq<Option<Move>>): seq<Reply>
    requires |rs| == |ms|
    decreases |rs|
  {
    if rs == [] then []
    else
      [ReplyOf(Facing(w, ms[0]).core, rs[0], symbol)]
      + Replies(rs[1..], symbol, maxAge, capacity, Stepped(w, maxAge, capacity, ms[0]), ms[1..])
  }

  /** What a request brings in and what a reply takes out: quantity submitted, traded, canceled. */
  function Brought(r: Request, symbol: string): int {
    if r.NewOrder? && r.order.symbol == symbol then r.order.quantity else 0
  }

  function TradedBy(reply: Reply): int {
    if reply.Matched? && reply.result.Ok? then Traded(reply.result.value.trades) else 0
  }

  function CanceledBy(reply: Reply): int {
    if reply.Withdrawn? && reply.outcome.Ok? then reply.outcome.value.remaining else 0
  }

  function CancelsBy(reply: Reply): nat {
    if reply.Withdrawn? && reply.outcome.Ok? then 1 else 0
  }

  function Submitted(rs: seq<Request>, symbol: string): int {
    if rs == [] then 0 else Brought(rs[0], symbol) + Submitted(rs[1..], symbol)
  }

  function TradedIn(replies: seq<Reply>): int {
    if replies == [] then 0 else TradedBy(replies[0]) + TradedIn(replies[1..])
  }

  function CanceledIn(replies: seq<Reply>): int {
    if replies == [] then 0 else CanceledBy(replies[0]) + CanceledIn(replies[1..])
  }

  function Cancels(replies: seq<Reply>): nat {
    if replies == [] then 0 else CancelsBy(replies[0]) + Cancels(replies[1..])
  }

  /** How many of these reports are expiries. */
  function Expirations(notices: seq<Notice>): nat {
    if notices == [] then 0
    else
      var n := |notices| - 1;
      (if notices[n].Closed? && notices[n].reason.Expired? then 1 else 0) + Expirations(notices[..n])
  }

  /** Each request makes the move that fits it. */
  ghost predicate AllFit(rs: seq<Request>, symbol: string, ms: seq<Option<Move>>) {
    |ms| == |rs| && forall i | 0 <= i < |rs| :: Fits(rs[i], symbol, ms[i])
  }

  /** The run on the lists: the moves that fit the requests, and the replies those moves give. */
  ghost predicate IsRun(rs: seq<Request>, symbol: string, maxAge: real, capacity: nat, clock: real,
                        ms: seq<Option<Move>>, replies: seq<Reply>, w: World)
  {
    && AllFit(rs, symbol, ms) && Ran(maxAge, capacity, Start(clock), Made(ms)) == Some(w)
    && replies == Replies(rs, symbol, maxAge, capacity, Start(clock), ms)
  }

  /** The figures of a run, read off its requests and replies. */
  ghost predicate Tallied(rs: seq<Request>, symbol: string, replies: seq<Reply>, from: World, w: World) {
    && w.tally.submitted == from.tally.submitted + Submitted(rs, symbol)
    && w.tally.traded == from.tally.traded + TradedIn(replies)
    && w.tally.canceled == from.tally.canceled + CanceledIn(replies)
    && w.removals - Expirations(w.notices) == from.removals - Expirations(from.notices) + Cancels(replies)
  }

  lemma {:induction false} ExpirationsJoin(a: seq<Notice>, b: seq<Notice>)
    ensures Expirations(a + b) == Expirations(a) + Expirations(b)
    decreases |b|
  {
    if b == [] {
      assert a + b == a;
    } else {
      assert (a + b)[..|a + b| - 1] == a + b[..|b| - 1];
      ExpirationsJoin(a, b[..|b| - 1]);
    }
  }

  lemma {:induction false} AllExpired(ids: seq<OrderId>)
    ensures Expirations(Expiries(ids)) == |ids|
    decreases |ids|
  {
    if ids != [] {
      var n := |ids| - 1;
      assert Expiries(ids)[..n] == Expiries(ids[..n]);
      AllExpired(ids[..n]);
    }
  }

  lemma {:induction false} NoneExpired(ns: seq<Notice>)
    requires forall i | 0 <= i < |ns| :: ns[i].Rested? || ns[i].reason.Filled?
    ensures Expirations(ns) == 0
    decreases |ns|
  {
    if ns != [] {
      NoneExpired(ns[..|ns| - 1]);
    }
  }

  /** One move changes the figures by what its reply says. */
  ghost predicate MoveTallied(r: Request, symbol: string, reply: Reply, w: World, w': World) {
    && w'.tally.submitted == w.tally.submitted + Brought(r, symbol)
    && w'.tally.traded == w.tally.traded + TradedBy(reply)
    && w'.tally.canceled == w.tally.canceled + CanceledBy(reply)
    && w'.removals - Expirations(w'.notices) == w.removals - Expirations(w.notices) + CancelsBy(reply)
  }

  lemma {:induction false} ExpiryCounted(w: World, mv: Move)
    ensures var e := AfterExpiry(w, mv);
            && e.removals - Expirations(e.notices) == w.removals - Expirations(w.notices)
            && e.tally.submitted == w.tally.submitted && e.tally.traded == w.tally.traded
               && e.tally.canceled == w.tally.canceled
  {
    hide Forget, QuantityOf, Expirations, Expiries;
    ExpirationsJoin(w.notices, Expiries(mv.gone));
    AllExpired(mv.gone);
  }

  lemma {:induction false} SubmitCounted(w: World, maxAge: real, capacity: nat, order: Order, later: real)
    ensures Expirations(AfterSubmit(w, maxAge, capacity, order, later).notices) == Expirations(w.notices)
  {
    hide BookSpec.Submit, MatchIn, AgesAfter, Expirations;
    var m := MatchIn(w.core, order);
    var more := Fills(m.filled) + if m.remaining == 0 then [] else [Rested(order.orderId)];
    NoneExpired(more);
    ExpirationsJoin(w.notices, more);
    assert AfterSubmit(w, maxAge, capacity, order, later).notices == w.notices + more;
  }

  lemma {:induction false} EveryMove(r: Request, symbol: string, maxAge: real, capacity: nat, w: World, m: Option<Move>)
    requires Fits(r, symbol, m)
    ensures MoveTallied(r, symbol, ReplyOf(Facing(w, m).core, r, symbol), w, Stepped(w, maxAge, capacity, m))
  {
    hide BookSpec.Submit, BookSpec.Cancel, Find, MatchIn, AgesAfter, Expirations, AfterExpiry, AnswerOf, GlimpseOf;
    if m.Some? {
      var e := AfterExpiry(w, m.value);
      ExpiryCounted(w, m.value);
      if m.value.DoSubmit? {
        SubmitCounted(e, maxAge, capacity, m.value.order, m.value.later);
      }
    }
  }

  /** What is left of a run after its first request. */
  lemma {:induction false} RestOfRun(rs: seq<Request>, symbol: string, maxAge: real, capacity: nat, w: World,
                                     ms: seq<Option<Move>>, w': World)
    requires rs != [] && AllFit(rs, symbol, ms) && Ran(maxAge, capacity, w, Made(ms)) == Some(w')
    ensures AllFit(rs[1..], symbol, ms[1..])
    ensures Ran(maxAge, capacity, Stepped(w, maxAge, capacity, ms[0]), Made(ms[1..])) == Some(w')
  {
    hide Moved, CanMove, Fits;
    if ms[0].Some? {
      assert Made(ms)[1..] == Made(ms[1..]);
    } else {
      assert Made(ms) == Made(ms[1..]);
    }
  }

  lemma {:induction false} RunTallied(rs: seq<Request>, symbol: string, maxAge: real, capacity: nat, w: World,
                                      ms: seq<Option<Move>>, w': World)
    requires AllFit(rs, symbol, ms) && Ran(maxAge, capacity, w, Made(ms)) == Some(w')
    ensures Tallied(rs, symbol, Replies(rs, symbol, maxAge, capacity, w, ms), w, w')
    decreases |rs|
  {
    hide Moved, CanMove, ReplyOf, AfterExpiry, Facing, Stepped, Expirations, Brought, TradedBy, CanceledBy,
         CancelsBy, Fits;
    if rs != [] {
      var mid, reply := Stepped(w, maxAge, capacity, ms[0]), ReplyOf(Facing(w, ms[0]).core, rs[0], symbol);
      EveryMove(rs[0], symbol, maxAge, capacity, w, ms[0]);
      RestOfRun(rs, symbol, maxAge, capacity, w, ms, w');
      RunTallied(rs[1..], symbol, maxAge, capacity, mid, ms[1..], w');
      var rest := Replies(rs[1..], symbol, maxAge, capacity, mid, ms[1..]);
      assert ([reply] + rest)[1..] == rest;
    }
  }

  // ----- Growing a run by one request -----

  lemma {:induction false} MadeMore(ms: seq<Option<Move>>, m: Option<Move>)
    ensures Made(ms + [m]) == Made(ms) + if m.Some? then [m.value] else []
  {
    if ms == [] {
      assert ms + [m] == [m] && [m][1..] == [];
    } else {
      MadeMore(ms[1..], m);
      assert (ms + [m])[1..] == ms[1..] + [m];
    }
  }

  lemma {:induction false} RanMore(maxAge: real, capacity: nat, w: World, moves: seq<Move>, w': World, mv: Move)
    requires Ran(maxAge, capacity, w, moves) == Some(w') && CanMove(w', maxAge, mv)
    ensures Ran(maxAge, capacity, w, moves + [mv]) == Some(Moved(w', maxAge, capacity, mv))
    decreases |moves|
  {
    hide Moved, CanMove;
    if moves == [] {
      assert moves + [mv] == [mv] && [mv][1..] == [];
    } else {
      RanMore(maxAge, capacity, Moved(w, maxAge, capacity, moves[0]), moves[1..], w', mv);
      assert (moves + [mv])[1..] == moves[1..] + [mv];
    }
  }

  lemma {:induction false} RepliesMore(rs: seq<Request>, symbol: string, maxAge: real, capacity: nat, w: World,
                                       ms: seq<Option<Move>>, w': World, r: Request, m: Option<Move>)
    requires AllFit(rs, symbol, ms) && Ran(maxAge, capacity, w, Made(ms)) == Some(w')
    ensures Replies(rs + [r], symbol, maxAge, capacity, w, ms + [m])
         == Replies(rs, symbol, maxAge, capacity, w, ms) + [ReplyOf(Facing(w', m).core, r, symbol)]
    decreases |rs|
  {
    hide Moved, CanMove, Facing, Stepped, ReplyOf, Fits;
    if rs == [] {
      assert rs + [r] == [r] && ms + [m] == [m] && [r][1..] == [] && [m][1..] == [];
    } else {
      RestOfRun(rs, symbol, maxAge, capacity, w, ms, w');
      RepliesMore(rs[1..], symbol, maxAge, capacity, Stepped(w, maxAge, capacity, ms[0]), ms[1..], w', r, m);
      assert (rs + [r])[1..] == rs[1..] + [r] && (ms + [m])[1..] == ms[1..] + [m];
    }
  }

  lemma {:induction false} RunMore(rs: seq<Request>, symbol: string, maxAge: real, capacity: nat, clock: real,
                                   ms: seq<Option<Move>>, replies: seq<Reply>, w: World, r: Request, m: Option<Move>)
    requires IsRun(rs, symbol, maxAge, capacity, clock, ms, replies, w)
    requires Fits(r, symbol, m) && (m.Some? ==> CanMove(w, maxAge, m.value))
    ensures IsRun(rs + [r], symbol, maxAge, capacity, clock, ms + [m],
              replies + [ReplyOf(Facing(w, m).core, r, symbol)],
                  Stepped(w, maxAge, capacity, m))
  {
    hide Moved, CanMove, Facing, ReplyOf, Ran, Replies, Fits, Start, Made;
    MadeMore(ms, m);
    if m.Some? {
      RanMore(maxAge, capacity, Start(clock), Made(ms), w, m.value);
    } else {
      assert Made(ms) + [] == Made(ms);
    }
    RepliesMore(rs, symbol, maxAge, capacity, Start(clock), ms, w, r, m);
  }

  lemma {:induction false} NoRun(symbol: string, maxAge: real, capacity: nat, clock: real)
    ensures IsRun([], symbol, maxAge, capacity, clock, [], [], Start(clock))
  {
  }

  lemma {:induction false} WholeRun(rs: seq<Request>, symbol: string, maxAge: real, capacity: nat, clock: real,
                                    ms: seq<Option<Move>>, replies: seq<Reply>, w: World)
    requires IsRun(rs, symbol, maxAge, capacity, clock, ms, replies, w)
    ensures w.tally.submitted == Submitted(rs, symbol)
    ensures w.tally.traded == TradedIn(replies) && w.tally.canceled == CanceledIn(replies)
    ensures w.removals == Cancels(replies) + Expirations(w.notices)
  {
    hide Moved, CanMove, Ran, Replies, Fits, Made;
    RunTallied(rs, symbol, maxAge, capacity, Start(clock), ms, w);
  }

  lemma WorkAt(book: OrderBook, w: World)
    requires At(book, w)
    ensures book.buy.Summed() && book.sell.Summed() && book.notices == w.notices
    ensures book.Work() + 2 * book.DeadQueued() <= 2 * w.removals
  {
    hide Dead, Slots, SideOk, Qty, OrderBook.Indexed, OrderBook.Timed, OrderBook.Tracked, OrderBook.Numbered, CoreOk,
         OrderBook.Ages;
  }

  /**
   At the end of a run lazy deletion has cost at most two per cancel answered and expiry
   reported, less the dead entries still queued.
   */
  lemma WorkIsBounded(book: OrderBook, rs: seq<Request>, clock: real, ms: seq<Option<Move>>, replies: seq<Reply>,
                      w: World)
    requires At(book, w) && IsRun(rs, book.symbol, book.maxAge, book.capacity, clock, ms, replies, w)
    ensures book.buy.Summed() && book.sell.Summed()
    ensures book.Work() + 2 * book.DeadQueued() <= 2 * (Cancels(replies) + Expirations(book.notices))
  {
    hide At, IsRun, BookSide.Summed, OrderBook.Work, OrderBook.DeadQueued;
    WorkAt(book, w);
    WholeRun(rs, book.symbol, book.maxAge, book.capacity, clock, ms, replies, w);
  }

  /**
   Any run on a new book: the replies are the model's, the book ends uncrossed, with
   quantity conserved and no order closed twice, and lazy deletion has cost at most
   two per canceled or expired order.
   */
  method ServeAll(symbol: string, capacity: nat, maxAge: real, clock: real, rs: seq<Request>)
    returns (book: OrderBook, replies: seq<Reply>, ghost ms: seq<Option<Move>>, ghost w: World)
    requires capacity >= 1 && maxAge >= 0.0 && InOrder(rs, symbol, clock, {})
    ensures book.symbol == symbol && book.capacity == capacity && book.maxAge == maxAge
    ensures IsRun(rs, symbol, maxAge, capacity, clock, ms, replies, w) && At(book, w) && WorldOk(w)
    ensures w.tally.submitted == Submitted(rs, symbol)
    ensures w.tally.traded == TradedIn(replies) && w.tally.canceled == CanceledIn(replies)
    ensures book.buy.Summed() && book.sell.Summed()
    ensures book.Work() + 2 * book.DeadQueued() <= 2 * (Cancels(replies) + Expirations(book.notices))
  {
    hide At, WorldOk, Moved, CanMove, OrderBook.Valid, Facing, Stepped, ReplyOf, Fits, Submitted, TradedIn,
         CanceledIn, Cancels, Expirations, IsRun, BookSide.Summed, OrderBook.DeadQueued, OrderBook.Work,
         OrderBook.Spent, Paid, TimeAfter, UsedAfter;
    book := new OrderBook(symbol, capacity, maxAge, clock);
    w := Start(clock);
    StartOk(clock);
    AtStart(book, clock);
    NoRun(symbol, maxAge, capacity, clock);
    replies, ms := [], [];
    for i := 0 to |rs|
      invariant fresh(book) && fresh(book.buy) && fresh(book.sell)
      invariant fresh(book.buy.nodes + book.sell.nodes) && fresh(book.buy.entries + book.sell.entries)
      invariant book.symbol == symbol && book.capacity == capacity && book.maxAge == maxAge
      invariant At(book, w) && WorldOk(w) && InOrder(rs[i..], symbol, w.clock, w.used)
      invariant IsRun(rs[..i], symbol, maxAge, capacity, clock, ms, replies, w)
    {
      var reply;
      ghost var m;
      reply, m := Serve(book, rs[i], w);
      StepKeeps(w, maxAge, capacity, m);
      StepTime(w, maxAge, capacity, rs[i], symbol, m);
      RunMore(rs[..i], symbol, maxAge, capacity, clock, ms, replies, w, rs[i], m);
      assert rs[i..][1..] == rs[i + 1..] && rs[..i] + [rs[i]] == rs[..i + 1];
      w := Stepped(w, maxAge, capacity, m);
      replies, ms := replies + [reply], ms + [m];
    }
    assert rs[..|rs|] == rs;
    WholeRun(rs, symbol, maxAge, capacity, clock, ms, replies, w);
    WorkIsBounded(book, rs, clock, ms, replies, w);
  }

  lemma StepKeeps(w: World, maxAge: real, capacity: nat, m: Option<Move>)
    requires WorldOk(w) && (m.Some? ==> CanMove(w, maxAge, m.value))
    ensures WorldOk(Stepped(w, maxAge, capacity, m))
  {
    hide WorldOk, Moved, CanMove;
    if m.Some? {
      MoveKeeps(w, maxAge, capacity, m.value);
    }
  }
}

/**
 The registry of order books as a step system: any number of threads submit,
 cancel, look and roll the session over, interleaved at the granularity of the
 registry lock and the per-book locks.
 */
module RegistrySteps {
  import opened OrderTypes

  type Symbol = string
  type BookId = nat
  type Tid = nat

  /** What the locks guard, plus three ghost-like records of the submitted ids. */
  datatype Board = Board(
    books: map<Symbol, BookId>,            // the registered books
    orderSymbols: map<OrderId, Symbol>,
    session: Option<int>,
    symbolOf: map<BookId, Symbol>,         // every book ever created
    resting: map<BookId, set<OrderId>>,    // the index of every book ever created
    used: set<OrderId>,                    // ids submitted so far
    coming: map<OrderId, Tid>,             // submitted, not yet resting and not yet done, and by whom
    home: map<OrderId, BookId>)            // the book an id was sent to

  datatype Op = Submitting(id: OrderId) | Canceling(id: OrderId) | Looking

  /** Where a thread stands. `In...` holds the registry lock, `b` is held from InBook to Leaving. */
  datatype Pc =
    | Done
    | WantLookup(id: OrderId)            // cancel: read the id map
    | InLookup(id: OrderId)
    | WantGet(op: Op, symbol: Symbol)    // find or create the book
    | InGet(op: Op, symbol: Symbol)
    | WantBook(op: Op, b: BookId)
    | InBook(op: Op, b: BookId)          // expiry, matching, removal
    | WantClose(op: Op, b: BookId, v: OrderId)   // left the index, on_close not yet run
    | InClose(op: Op, b: BookId, v: OrderId)
    | WantRest(id: OrderId, b: BookId)   // in the index, on_rest not yet run
    | InRest(id: OrderId, b: BookId)
    | Leaving(op: Op, b: BookId)
    | WantPop(id: OrderId)               // cancel: drop the id from the map
    | InPop(id: OrderId)
    | WantRoll(date: Option<int>)        // roll over to a date, or reset
    | InRoll(date: Option<int>)

  datatype Sys = Sys(board: Board, regLock: Option<Tid>, bookLock: map<BookId, Tid>, threads: map<Tid, Pc>)

  const EMPTY := Sys(Board(map[], map[], None, map[], map[], {}, map[], map[]), None, map[], map[])

  predicate HoldsReg(pc: Pc) {
    pc.InLookup? || pc.InGet? || pc.InClose? || pc.InRest? || pc.InPop? || pc.InRoll?
  }

  predicate WantsReg(pc: Pc) {
    pc.WantLookup? || pc.WantGet? || pc.WantClose? || pc.WantRest? || pc.WantPop? || pc.WantRoll?
  }

  predicate HoldsBook(pc: Pc) {
    pc.InBook? || pc.WantClose? || pc.InClose? || pc.WantRest? || pc.InRest? || pc.Leaving?
  }

  // ----- Changes of the board -----

  /** The ids a book holds. */
  function Ids(d: Board, b: BookId): set<OrderId> {
    if b in d.resting then d.resting[b] else {}
  }

  function NewBook(d: Board): BookId {
    |d.symbolOf|
  }

  /** A fresh id is submitted by t. */
  function Arrived(d: Board, id: OrderId, t: Tid): Board {
    d.(used := d.used + {id}, coming := d.coming[id := t])
  }

  /** `get` creates a book, under the registry lock. */
  function WithBook(d: Board, symbol: Symbol): Board {
    var b := NewBook(d);
    d.(books := d.books[symbol := b], symbolOf := d.symbolOf[b := symbol], resting := d.resting[b := {}])
  }

  function SentTo(d: Board, op: Op, b: BookId): Board {
    if op.Submitting? then d.(home := d.home[op.id := b]) else d
  }

  /** The submission is over without a rest. */
  function Ended(d: Board, op: Op): Board {
    if op.Submitting? then d.(coming := d.coming - {op.id}) else d
  }

  /** An order leaves the index: filled, expired or canceled. */
  function Gone(d: Board, b: BookId, id: OrderId): Board {
    d.(resting := d.resting[b := Ids(d, b) - {id}])
  }

  /** The submitted order enters the index. */
  function Rested(d: Board, b: BookId, id: OrderId): Board {
    d.(resting := d.resting[b := Ids(d, b) + {id}], coming := d.coming - {id})
  }

  /** `_order_rested`. */
  function Listed(d: Board, b: BookId, id: OrderId): Board {
    d.(orderSymbols := d.orderSymbols[id := if b in d.symbolOf then d.symbolOf[b] else ""])
  }

  /** `_order_closed`, and what `cancel` does last. */
  function Unlisted(d: Board, id: OrderId): Board {
    d.(orderSymbols := d.orderSymbols - {id})
  }

  function Cleared(d: Board): Board {
    d.(books := map[], orderSymbols := map[])
  }

  /** A later session date clears the books and the id map; a reset, which names no date, always does. */
  function Rolled(d: Board, date: Option<int>): Board {
    if date == None then Cleared(d).(session := None)
    else if d.session == None then d.(session := date)
    else if date.value <= d.session.value then d
    else Cleared(d).(session := date)
  }

  // ----- Steps -----

  /** What a thread inside a book does next; every other step has no choice. */
  datatype Choice = Go | Closing(v: OrderId) | Resting | Finish | Refused

  /** The pc once the registry lock is taken. */
  function Inside(pc: Pc): Pc
    requires WantsReg(pc)
  {
    match pc
    case WantLookup(id) => InLookup(id)
    case WantGet(op, symbol) => InGet(op, symbol)
    case WantClose(op, b, v) => InClose(op, b, v)
    case WantRest(id, b) => InRest(id, b)
    case WantPop(id) => InPop(id)
    case WantRoll(date) => InRoll(date)
  }

  ghost predicate Enabled(s: Sys, t: Tid, c: Choice) {
    t in s.threads &&
    var pc := s.threads[t];
    match c
    case Refused => pc.WantGet?
    case Closing(v) => pc.InBook? && v in Ids(s.board, pc.b)
    case Resting => pc.InBook? && pc.op.Submitting?
    case Finish => pc.InBook?
    case Go =>
      && !pc.Done? && !pc.InBook?
      && (WantsReg(pc) ==> s.regLock == None)
      && (pc.WantBook? ==> pc.b !in s.bookLock)
  }

  /** The thread moves on, and the board with it. */
  function Moved(s: Sys, t: Tid, pc: Pc, d: Board): Sys {
    s.(board := d, threads := s.threads[t := pc])
  }

  /** The thread gives the registry lock back and moves on. */
  function Released(s: Sys, t: Tid, pc: Pc, d: Board): Sys {
    s.(board := d, regLock := None, threads := s.threads[t := pc])
  }

  function TakeReg(s: Sys, t: Tid, pc: Pc): Sys
    requires WantsReg(pc)
  {
    s.(regLock := Some(t), threads := s.threads[t := Inside(pc)])
  }

  function TakeBook(s: Sys, t: Tid, op: Op, b: BookId): Sys {
    s.(bookLock := s.bookLock[b := t], threads := s.threads[t := InBook(op, b)])
  }

  /** A cancel goes on to drop the id from the map, whether the book had it or not. */
  function Leave(s: Sys, t: Tid, op: Op, b: BookId): Sys {
    s.(bookLock := s.bookLock - {b}, threads := s.threads[t := if op.Canceling? then WantPop(op.id) else Done])
  }

  /** `get`: find or create, under the registry lock. */
  function Get(s: Sys, t: Tid, op: Op, symbol: Symbol): Sys {
    var d := if symbol in s.board.books then s.board else WithBook(s.board, symbol);
    Released(s, t, WantBook(op, d.books[symbol]), SentTo(d, op, d.books[symbol]))
  }

  /** The call is over: a submission did not rest, a cancel took its order out if it was there. */
  function FinishCall(s: Sys, t: Tid, op: Op, b: BookId): Sys {
    Moved(s, t, Leaving(op, b), if op.Canceling? then Gone(s.board, b, op.id) else Ended(s.board, op))
  }

  function Do(s: Sys, t: Tid, c: Choice): Sys
    requires t in s.threads
  {
    var pc, d := s.threads[t], s.board;
    if WantsReg(pc) then
      // `get` raises for a symbol this process does not own
      if c.Refused? && pc.WantGet? then Moved(s, t, Done, Ended(d, pc.op)) else TakeReg(s, t, pc)
    else
      match pc
      case InLookup(id) =>
        Released(s, t, if id in d.orderSymbols then WantGet(Canceling(id), d.orderSymbols[id]) else Done, d)
      case InGet(op, symbol) => Get(s, t, op, symbol)
      case WantBook(op, b) => TakeBook(s, t, op, b)
      case InBook(op, b) =>
        if c.Closing? then Moved(s, t, WantClose(op, b, c.v), Gone(d, b, c.v))
        else if c.Resting? && op.Submitting? then Moved(s, t, WantRest(op.id, b), Rested(d, b, op.id))
        else FinishCall(s, t, op, b)
      case InClose(op, b, v) => Released(s, t, InBook(op, b), Unlisted(d, v))
      case InRest(id, b) => Released(s, t, Leaving(Submitting(id), b), Listed(d, b, id))
      case Leaving(op, b) => Leave(s, t, op, b)
      case InPop(id) => Released(s, t, Done, Unlisted(d, id))
      case InRoll(date) => Released(s, t, Done, Rolled(d, date))
      case _ => s
  }

  /** A request arrives on an idle thread. Submitted ids are fresh. */
  datatype Call =
    | CallSubmit(id: OrderId, symbol: Symbol)
    | CallCancel(id: OrderId)
    | CallLook(symbol: Symbol)
    | CallRoll(date: Option<int>)

  ghost predicate CanStart(s: Sys, t: Tid, call: Call) {
    (t in s.threads ==> s.threads[t].Done?) && (call.CallSubmit? ==> call.id !in s.board.used)
  }

  function Started(s: Sys, t: Tid, call: Call): Sys {
    match call
    case CallSubmit(id, symbol) => Moved(s, t, WantGet(Submitting(id), symbol), Arrived(s.board, id, t))
    case CallCancel(id) => Moved(s, t, WantLookup(id), s.board)
    case CallLook(symbol) => Moved(s, t, WantGet(Looking, symbol), s.board)
    case CallRoll(date) => Moved(s, t, WantRoll(date), s.board)
  }

  datatype Event = Arrive(t: Tid, call: Call) | Advance(t: Tid, c: Choice)

  ghost predicate Possible(s: Sys, e: Event) {
    match e
    case Arrive(t, call) => CanStart(s, t, call)
    case Advance(t, c) => Enabled(s, t, c)
  }

  ghost function Happen(s: Sys, e: Event): Sys
    requires Possible(s, e)
  {
    match e
    case Arrive(t, call) => Started(s, t, call)
    case Advance(t, c) => Do(s, t, c)
  }

  /** The events lead from the one state to the other. */
  ghost predicate Run(s: Sys, es: seq<Event>, s': Sys)
    decreases |es|
  {
    if es == [] then s' == s else Possible(s, es[0]) && Run(Happen(s, es[0]), es[1..], s')
  }

  // ----- What holds of the board -----

  ghost predicate Registered(books: map<Symbol, BookId>, b: BookId) {
    exists y :: y in books && books[y] == b
  }

  /** The id is in no registered book and can never be again. */
  ghost predicate OffBoard(d: Board, id: OrderId) {
    && id !in d.coming && id in d.used
    && (forall y | y in d.books :: id !in Ids(d, d.books[y]))
  }

  /** The id was sent to a book, and its submission has come to rest or ended. */
  ghost predicate Sent(d: Board, id: OrderId) {
    id in d.used && id !in d.coming && id in d.home && d.home[id] in d.symbolOf
  }

  ghost predicate AtHome(d: Board, b: BookId, ids: set<OrderId>) {
    forall id | id in ids :: Sent(d, id) && d.home[id] == b
  }

  /** Registered books carry their own symbol; each id rests at home only. */
  ghost predicate Shapes(d: Board) {
    && d.resting.Keys == d.symbolOf.Keys
    && (forall b | b in d.symbolOf :: b < NewBook(d))
    && (forall y | y in d.books :: d.books[y] in d.symbolOf && d.symbolOf[d.books[y]] == y)
    && (forall b | b in d.resting :: AtHome(d, b, d.resting[b]))
    && (forall id | id in d.coming :: id in d.used)
  }

  /** The id map only names orders that have rested, with the symbol of their book. */
  ghost predicate Mapped(d: Board) {
    forall id | id in d.orderSymbols :: Sent(d, id) && d.orderSymbols[id] == d.symbolOf[d.home[id]]
  }

  /** What a change of the board by t keeps of every fact the other threads rely on. */
  ghost predicate Harmless(d: Board, d': Board, t: Tid) {
    && (forall b | b in d.symbolOf :: b in d'.symbolOf && d'.symbolOf[b] == d.symbolOf[b])
    && (forall id | id in d.coming && d.coming[id] != t :: id in d'.coming && d'.coming[id] == d.coming[id])
    && (forall id | id in d'.coming :: id in d.coming || id !in d.used)
    && (forall id | id in d.home && (id in d.coming ==> d.coming[id] != t) ::
       id in d'.home && d'.home[id] == d.home[id])
    && d.used <= d'.used
    && (forall id | OffBoard(d, id) :: OffBoard(d', id))
    && (forall b | b in d.symbolOf && Registered(d'.books, b) :: Registered(d.books, b))
  }

  ghost predicate BoardOk(d: Board) {
    Shapes(d) && Mapped(d)
  }

  /** The change keeps the board in shape and harms no other thread. */
  ghost predicate Fair(d: Board, d': Board, t: Tid) {
    BoardOk(d') && Harmless(d, d', t)
  }

  ghost predicate Brings(d: Board, t: Tid, id: OrderId) {
    id in d.coming && d.coming[id] == t
  }

  lemma {:induction false} SameFair(d: Board, t: Tid)
    requires BoardOk(d)
    ensures Fair(d, d, t)
  {
  }

  lemma {:induction false} ArrivedFair(d: Board, id: OrderId, t: Tid)
    requires BoardOk(d) && id !in d.used
    ensures Fair(d, Arrived(d, id, t), t)
  {
  }

  lemma {:induction false} WithBookOk(d: Board, symbol: Symbol)
    requires BoardOk(d) && symbol !in d.books
    ensures BoardOk(WithBook(d, symbol))
  {
    hide OffBoard, Registered;
    var d', b := WithBook(d, symbol), NewBook(d);
    assert b !in d.symbolOf && b !in d.resting;
    assert NewBook(d') == b + 1 by { assert d'.symbolOf.Keys == d.symbolOf.Keys + {b}; }
    forall i | i in d'.resting ensures AtHome(d', i, d'.resting[i]) {
      assert i != b ==> AtHome(d, i, d.resting[i]);
    }
    assert Mapped(d');
  }

  lemma {:induction false} NewIsNew(d: Board)
    requires BoardOk(d)
    ensures NewBook(d) !in d.symbolOf && NewBook(d) !in d.resting
    ensures forall y | y in d.books :: d.books[y] != NewBook(d)
  {
  }

  lemma {:induction false} WithBookFair(d: Board, symbol: Symbol, t: Tid)
    requires BoardOk(d) && symbol !in d.books
    ensures Fair(d, WithBook(d, symbol), t)
  {
    hide Mapped, AtHome, Sent, BoardOk;
    WithBookOk(d, symbol);
    var d' := WithBook(d, symbol);
    NewIsNew(d);
    assert forall id | OffBoard(d, id) :: OffBoard(d', id);
    hide OffBoard;
    forall b | b in d.symbolOf && Registered(d'.books, b) ensures Registered(d.books, b) {
      var y :| y in d'.books && d'.books[y] == b;
      assert y in d.books && d.books[y] == b;
    }
  }

  lemma {:induction false} SentToFair(d: Board, op: Op, b: BookId, t: Tid)
    requires BoardOk(d) && (op.Submitting? ==> Brings(d, t, op.id))
    ensures Fair(d, SentTo(d, op, b), t)
  {
  }

  lemma {:induction false} EndedFair(d: Board, op: Op, t: Tid)
    requires BoardOk(d) && (op.Submitting? ==> Brings(d, t, op.id))
    ensures Fair(d, Ended(d, op), t)
  {
  }

  lemma {:induction false} GoneFair(d: Board, b: BookId, id: OrderId, t: Tid)
    requires BoardOk(d) && b in d.symbolOf
    ensures Fair(d, Gone(d, b, id), t)
  {
  }

  lemma {:induction false} RestedOk(d: Board, b: BookId, id: OrderId)
    requires BoardOk(d) && b in d.symbolOf && id in d.coming && id in d.home && d.home[id] == b
    ensures BoardOk(Rested(d, b, id))
  {
    hide OffBoard, Registered;
  }

  lemma {:induction false} RestedFair(d: Board, b: BookId, id: OrderId, t: Tid)
    requires BoardOk(d) && b in d.symbolOf && Brings(d, t, id) && id in d.home && d.home[id] == b
    ensures Fair(d, Rested(d, b, id), t)
  {
    hide BoardOk;
    RestedOk(d, b, id);
  }

  lemma {:induction false} ListedFair(d: Board, b: BookId, id: OrderId, t: Tid)
    requires BoardOk(d) && Sent(d, id) && d.home[id] == b
    ensures Fair(d, Listed(d, b, id), t)
  {
  }

  lemma {:induction false} UnlistedFair(d: Board, id: OrderId, t: Tid)
    requires BoardOk(d)
    ensures Fair(d, Unlisted(d, id), t)
  {
  }

  lemma {:induction false} SessionFair(d: Board, session: Option<int>, t: Tid)
    requires BoardOk(d)
    ensures Fair(d, d.(session := session), t)
  {
  }

  lemma {:induction false} ClearedFair(d: Board, session: Option<int>, t: Tid)
    requires BoardOk(d)
    ensures Fair(d, Cleared(d).(session := session), t)
  {
  }

  lemma {:induction false} RolledFair(d: Board, date: Option<int>, t: Tid)
    requires BoardOk(d)
    ensures Fair(d, Rolled(d, date), t)
  {
    hide Fair, BoardOk;
    SameFair(d, t);
    SessionFair(d, date, t);
    ClearedFair(d, date, t);
  }

  // ----- What holds of the locks -----

  predicate SameBook(was: Pc, pc: Pc) {
    HoldsBook(was) == HoldsBook(pc) && (HoldsBook(pc) ==> was.b == pc.b)
  }

  ghost predicate LocksOk(s: Sys) {
    && (s.regLock.Some? ==> s.regLock.value in s.threads)
    && (forall t | t in s.threads :: HoldsReg(s.threads[t]) <==> s.regLock == Some(t))
    && (forall t | t in s.threads :: HoldsBook(s.threads[t]) ==>
       s.threads[t].b in s.bookLock && s.bookLock[s.threads[t].b] == t)
    && (forall b | b in s.bookLock ::
          s.bookLock[b] in s.threads && HoldsBook(s.threads[s.bookLock[b]]) && s.threads[s.bookLock[b]].b == b)
  }

  function PcOf(s: Sys, t: Tid): Pc {
    if t in s.threads then s.threads[t] else Done
  }

  lemma {:induction false} MovedLocks(s: Sys, t: Tid, pc: Pc, d: Board)
    requires LocksOk(s) && HoldsReg(PcOf(s, t)) == HoldsReg(pc) && SameBook(PcOf(s, t), pc)
    ensures LocksOk(Moved(s, t, pc, d))
  {
  }

  lemma {:induction false} ReleasedLocks(s: Sys, t: Tid, pc: Pc, d: Board)
    requires LocksOk(s) && HoldsReg(PcOf(s, t)) && !HoldsReg(pc) && SameBook(PcOf(s, t), pc)
    ensures LocksOk(Released(s, t, pc, d))
  {
  }

  lemma {:induction false} TakeRegLocks(s: Sys, t: Tid, pc: Pc)
    requires LocksOk(s) && PcOf(s, t) == pc && WantsReg(pc) && s.regLock == None
    ensures LocksOk(TakeReg(s, t, pc))
  {
  }

  lemma {:induction false} TakeBookLocks(s: Sys, t: Tid, op: Op, b: BookId)
    requires LocksOk(s) && PcOf(s, t) == WantBook(op, b) && b !in s.bookLock
    ensures LocksOk(TakeBook(s, t, op, b))
  {
  }

  lemma {:induction false} LeaveLocks(s: Sys, t: Tid, op: Op, b: BookId)
    requires LocksOk(s) && PcOf(s, t) == Leaving(op, b)
    ensures LocksOk(Leave(s, t, op, b))
  {
  }

  // ----- What a thread may rely on -----

  /** A submission on its way: only this thread brings the id, and to its home. */
  ghost predicate BringsOk(d: Board, t: Tid, pc: Pc) {
    (pc.WantGet? || pc.InGet? || pc.WantBook? || pc.InBook? || pc.WantClose? || pc.InClose?) && pc.op.Submitting? ==>
      Brings(d, t, pc.op.id) && pc.op.id in d.used &&
      (!pc.WantGet? && !pc.InGet? ==> pc.op.id in d.home && d.home[pc.op.id] == pc.b)
  }

  /** A submission that has just come to rest. */
  ghost predicate RestsOk(d: Board, pc: Pc) {
    pc.WantRest? || pc.InRest? ==> Sent(d, pc.id) && d.home[pc.id] == pc.b
  }

  /** Whoever is about to drop an id from the map may. */
  ghost predicate PopsOk(d: Board, pc: Pc) {
    && (pc.WantClose? || pc.InClose? ==> OffBoard(d, pc.v))
    && (pc.WantPop? || pc.InPop? ==> OffBoard(d, pc.id))
    && (pc.Leaving? && pc.op.Canceling? ==> OffBoard(d, pc.op.id))
  }

  /** A cancel that found a symbol looks in the only registered book that can hold the id. */
  ghost predicate CancelsOk(d: Board, pc: Pc) {
    && ((pc.WantGet? || pc.InGet?) && pc.op.Canceling? ==>
       Sent(d, pc.op.id) && d.symbolOf[d.home[pc.op.id]] == pc.symbol)
    && ((pc.WantBook? || pc.InBook? || pc.WantClose? || pc.InClose?) && pc.op.Canceling? ==>
          Sent(d, pc.op.id) && (d.home[pc.op.id] == pc.b || !Registered(d.books, d.home[pc.op.id])))
  }

  ghost predicate ThreadOk(d: Board, t: Tid, pc: Pc) {
    && (pc.WantBook? || HoldsBook(pc) ==> pc.b in d.symbolOf)
    && BringsOk(d, t, pc) && RestsOk(d, pc) && PopsOk(d, pc) && CancelsOk(d, pc)
  }

  ghost predicate ThreadsOk(s: Sys) {
    forall t | t in s.threads :: ThreadOk(s.board, t, s.threads[t])
  }

  lemma {:induction false} OtherBrings(d: Board, d': Board, t: Tid, u: Tid, pc: Pc)
    requires Harmless(d, d', t) && BringsOk(d, u, pc) && RestsOk(d, pc) && u != t
    ensures BringsOk(d', u, pc) && RestsOk(d', pc)
  {
    hide OffBoard, Registered;
  }

  lemma {:induction false} OtherCancels(d: Board, d': Board, t: Tid, pc: Pc)
    requires Harmless(d, d', t) && PopsOk(d, pc) && CancelsOk(d, pc)
    ensures PopsOk(d', pc) && CancelsOk(d', pc)
  {
    hide OffBoard, Registered;
  }

  lemma {:induction false} OtherOk(d: Board, d': Board, t: Tid, u: Tid, pc: Pc)
    requires Harmless(d, d', t) && ThreadOk(d, u, pc) && u != t
    ensures ThreadOk(d', u, pc)
  {
    hide BringsOk, RestsOk, PopsOk, CancelsOk;
    OtherBrings(d, d', t, u, pc);
    OtherCancels(d, d', t, pc);
  }

  /** The submission behind a call to `on_rest` that has not come back. */
  ghost predicate OnItsWay(s: Sys, id: OrderId, b: BookId) {
    b in s.bookLock && s.bookLock[b] in s.threads &&
    (s.threads[s.bookLock[b]] == WantRest(id, b) || s.threads[s.bookLock[b]] == InRest(id, b))
  }

  /** A resting id of a registered book is in the map, unless its on_rest call is still under way. */
  ghost predicate Covered(s: Sys) {
    forall y, id | y in s.board.books && id in Ids(s.board, s.board.books[y]) ::
      id in s.board.orderSymbols || OnItsWay(s, id, s.board.books[y])
  }

  ghost predicate Inv(s: Sys) {
    LocksOk(s) && BoardOk(s.board) && ThreadsOk(s) && Covered(s)
  }

  lemma {:induction false} Assemble(s: Sys, s': Sys, t: Tid, pc: Pc)
    requires Inv(s) && Fair(s.board, s'.board, t) && s'.threads == s.threads[t := pc] && ThreadOk(s'.board, t, pc)
    requires LocksOk(s') && Covered(s')
    ensures Inv(s')
  {
    hide Harmless, ThreadOk, LocksOk, BoardOk, Covered;
    forall u | u in s'.threads
      ensures ThreadOk(s'.board, u, s'.threads[u])
    {
      if u != t {
        OtherOk(s.board, s'.board, t, u, s.threads[u]);
      }
    }
  }

  lemma {:induction false} Own(s: Sys, t: Tid)
    requires Inv(s) && t in s.threads
    ensures ThreadOk(s.board, t, s.threads[t])
  {
  }

  lemma {:induction false} OwnLock(s: Sys, t: Tid)
    requires LocksOk(s) && t in s.threads && HoldsBook(s.threads[t])
    ensures s.threads[t].b in s.bookLock && s.bookLock[s.threads[t].b] == t
  {
  }

  lemma {:induction false} GoneIsOff(d: Board, b: BookId, id: OrderId)
    requires Shapes(d) && id in Ids(d, b)
    ensures OffBoard(Gone(d, b, id), id)
  {
    assert AtHome(d, b, d.resting[b]);
    forall y | y in d.books ensures id !in Ids(Gone(d, b, id), d.books[y]) {
      assert d.books[y] in d.resting && AtHome(d, d.books[y], d.resting[d.books[y]]);
    }
  }

  // ----- Every step keeps the invariant -----

  lemma {:induction false} TakeRegKeeps(s: Sys, t: Tid, pc: Pc)
    requires Inv(s) && t in s.threads && s.threads[t] == pc && WantsReg(pc) && s.regLock == None
    ensures Inv(TakeReg(s, t, pc))
  {
    hide LocksOk, Harmless, ThreadsOk;
    Own(s, t);
    SameFair(s.board, t);
    TakeRegLocks(s, t, pc);
    Assemble(s, TakeReg(s, t, pc), t, Inside(pc));
  }

  lemma {:induction false} RefuseKeeps(s: Sys, t: Tid, op: Op, symbol: Symbol)
    requires Inv(s) && t in s.threads && s.threads[t] == WantGet(op, symbol)
    ensures Inv(Moved(s, t, Done, Ended(s.board, op)))
  {
    hide LocksOk, Harmless, ThreadsOk;
    Own(s, t);
    EndedFair(s.board, op, t);
    MovedLocks(s, t, Done, Ended(s.board, op));
    Assemble(s, Moved(s, t, Done, Ended(s.board, op)), t, Done);
  }

  lemma {:induction false} LookupKeeps(s: Sys, t: Tid, id: OrderId, pc: Pc)
    requires Inv(s) && t in s.threads && s.threads[t] == InLookup(id)
    requires pc == if id in s.board.orderSymbols then WantGet(Canceling(id), s.board.orderSymbols[id]) else Done
    ensures Inv(Released(s, t, pc, s.board))
  {
    hide LocksOk, Harmless, ThreadsOk;
    Own(s, t);
    SameFair(s.board, t);
    ReleasedLocks(s, t, pc, s.board);
    Assemble(s, Released(s, t, pc, s.board), t, pc);
  }

  /** A new, empty book adds nothing to cover. */
  lemma {:induction false} WithBookCovered(s: Sys, symbol: Symbol)
    requires Covered(s) && symbol !in s.board.books && Shapes(s.board)
    ensures Covered(s.(board := WithBook(s.board, symbol)))
  {
    hide AtHome, Registered;
  }

  lemma {:induction false} WithBookKeeps(s: Sys, t: Tid, op: Op, symbol: Symbol)
    requires Inv(s) && t in s.threads && s.threads[t] == InGet(op, symbol) && symbol !in s.board.books
    ensures Inv(s.(board := WithBook(s.board, symbol)))
  {
    hide LocksOk, Harmless, ThreadsOk, Mapped, AtHome, OffBoard, Registered, Covered;
    Own(s, t);
    WithBookCovered(s, symbol);
    WithBookFair(s.board, symbol, t);
    assert Moved(s, t, InGet(op, symbol), WithBook(s.board, symbol)) == s.(board := WithBook(s.board, symbol)) by {
      assert s.threads[t := InGet(op, symbol)] == s.threads;
    }
    MovedLocks(s, t, InGet(op, symbol), WithBook(s.board, symbol));
    Assemble(s, s.(board := WithBook(s.board, symbol)), t, InGet(op, symbol));
  }

  lemma {:induction false} GottenKeeps(s: Sys, t: Tid, op: Op, symbol: Symbol, b: BookId)
    requires Inv(s) && t in s.threads && s.threads[t] == InGet(op, symbol)
    requires symbol in s.board.books && s.board.books[symbol] == b
    ensures Inv(Released(s, t, WantBook(op, b), SentTo(s.board, op, b)))
  {
    hide LocksOk, Harmless, ThreadsOk;
    Own(s, t);
    SentToFair(s.board, op, b, t);
    ReleasedLocks(s, t, WantBook(op, b), SentTo(s.board, op, b));
    Assemble(s, Released(s, t, WantBook(op, b), SentTo(s.board, op, b)), t, WantBook(op, b));
  }

  lemma {:induction false} TakeBookKeeps(s: Sys, t: Tid, op: Op, b: BookId)
    requires Inv(s) && t in s.threads && s.threads[t] == WantBook(op, b) && b !in s.bookLock
    ensures Inv(TakeBook(s, t, op, b))
  {
    hide LocksOk, Harmless, ThreadsOk;
    Own(s, t);
    SameFair(s.board, t);
    TakeBookLocks(s, t, op, b);
    Assemble(s, TakeBook(s, t, op, b), t, InBook(op, b));
  }

  lemma {:induction false} CloseKeeps(s: Sys, t: Tid, op: Op, b: BookId, v: OrderId)
    requires Inv(s) && t in s.threads && s.threads[t] == InBook(op, b) && v in Ids(s.board, b)
    ensures Inv(Moved(s, t, WantClose(op, b, v), Gone(s.board, b, v)))
  {
    hide LocksOk, Harmless, ThreadsOk, OffBoard, Shapes, Mapped, Registered;
    Own(s, t);
    GoneFair(s.board, b, v, t);
    GoneIsOff(s.board, b, v);
    MovedLocks(s, t, WantClose(op, b, v), Gone(s.board, b, v));
    Assemble(s, Moved(s, t, WantClose(op, b, v), Gone(s.board, b, v)), t, WantClose(op, b, v));
  }

  /** The order that enters the index now is on its way into the map. */
  lemma {:induction false} RestCovered(s: Sys, t: Tid, id: OrderId, b: BookId)
    requires Covered(s) && b in s.bookLock && s.bookLock[b] == t && t in s.threads
    requires s.threads[t] == InBook(Submitting(id), b)
    ensures Covered(Moved(s, t, WantRest(id, b), Rested(s.board, b, id)))
  {
  }

  lemma {:induction false} RestKeeps(s: Sys, t: Tid, id: OrderId, b: BookId)
    requires Inv(s) && t in s.threads && s.threads[t] == InBook(Submitting(id), b)
    ensures Inv(Moved(s, t, WantRest(id, b), Rested(s.board, b, id)))
  {
    hide LocksOk, Harmless, ThreadsOk, Mapped, AtHome, OffBoard, Registered, Covered;
    Own(s, t);
    RestedFair(s.board, b, id, t);
    MovedLocks(s, t, WantRest(id, b), Rested(s.board, b, id));
    OwnLock(s, t);
    RestCovered(s, t, id, b);
    Assemble(s, Moved(s, t, WantRest(id, b), Rested(s.board, b, id)), t, WantRest(id, b));
  }

  /** After a cancel in the only registered book that could hold the id, no registered book does. */
  lemma {:induction false} CanceledIsOff(d: Board, b: BookId, id: OrderId)
    requires Shapes(d) && Sent(d, id) && (d.home[id] == b || !Registered(d.books, d.home[id]))
    ensures OffBoard(Gone(d, b, id), id)
  {
    forall y | y in d.books
      ensures id !in Ids(Gone(d, b, id), d.books[y])
    {
      assert Registered(d.books, d.books[y]);
      assert d.books[y] in d.resting && AtHome(d, d.books[y], d.resting[d.books[y]]);
    }
  }

  lemma {:induction false} FinishCancelKeeps(s: Sys, t: Tid, id: OrderId, b: BookId)
    requires Inv(s) && t in s.threads && s.threads[t] == InBook(Canceling(id), b)
    ensures Inv(Moved(s, t, Leaving(Canceling(id), b), Gone(s.board, b, id)))
  {
    hide LocksOk, Harmless, ThreadsOk, OffBoard, Shapes, Mapped, Registered, AtHome;
    Own(s, t);
    GoneFair(s.board, b, id, t);
    CanceledIsOff(s.board, b, id);
    MovedLocks(s, t, Leaving(Canceling(id), b), Gone(s.board, b, id));
    Assemble(s, Moved(s, t, Leaving(Canceling(id), b), Gone(s.board, b, id)), t, Leaving(Canceling(id), b));
  }

  lemma {:induction false} FinishOtherKeeps(s: Sys, t: Tid, op: Op, b: BookId)
    requires Inv(s) && t in s.threads && s.threads[t] == InBook(op, b) && !op.Canceling?
    ensures Inv(Moved(s, t, Leaving(op, b), Ended(s.board, op)))
  {
    hide LocksOk, Harmless, ThreadsOk, Shapes, Mapped, Registered, OffBoard;
    Own(s, t);
    EndedFair(s.board, op, t);
    MovedLocks(s, t, Leaving(op, b), Ended(s.board, op));
    Assemble(s, Moved(s, t, Leaving(op, b), Ended(s.board, op)), t, Leaving(op, b));
  }

  lemma {:induction false} ReportClosedKeeps(s: Sys, t: Tid, op: Op, b: BookId, v: OrderId)
    requires Inv(s) && t in s.threads && s.threads[t] == InClose(op, b, v)
    ensures Inv(Released(s, t, InBook(op, b), Unlisted(s.board, v)))
  {
    hide LocksOk, Harmless, ThreadsOk, Shapes, Mapped, Registered;
    Own(s, t);
    UnlistedFair(s.board, v, t);
    ReleasedLocks(s, t, InBook(op, b), Unlisted(s.board, v));
    Assemble(s, Released(s, t, InBook(op, b), Unlisted(s.board, v)), t, InBook(op, b));
  }

  /** The order is in the map before its thread gives up the call. */
  lemma {:induction false} ListedCovered(s: Sys, t: Tid, id: OrderId, b: BookId)
    requires Covered(s) && t in s.threads && s.threads[t] == InRest(id, b)
    ensures Covered(Released(s, t, Leaving(Submitting(id), b), Listed(s.board, b, id)))
  {
  }

  lemma {:induction false} ReportRestedKeeps(s: Sys, t: Tid, id: OrderId, b: BookId)
    requires Inv(s) && t in s.threads && s.threads[t] == InRest(id, b)
    ensures Inv(Released(s, t, Leaving(Submitting(id), b), Listed(s.board, b, id)))
  {
    hide LocksOk, Harmless, ThreadsOk, Covered;
    Own(s, t);
    ListedCovered(s, t, id, b);
    ListedFair(s.board, b, id, t);
    ReleasedLocks(s, t, Leaving(Submitting(id), b), Listed(s.board, b, id));
    Assemble(s, Released(s, t, Leaving(Submitting(id), b), Listed(s.board, b, id)), t, Leaving(Submitting(id), b));
  }

  lemma {:induction false} LeaveKeeps(s: Sys, t: Tid, op: Op, b: BookId)
    requires Inv(s) && t in s.threads && s.threads[t] == Leaving(op, b)
    ensures Inv(Leave(s, t, op, b))
  {
    hide LocksOk, Harmless, ThreadsOk;
    Own(s, t);
    SameFair(s.board, t);
    LeaveLocks(s, t, op, b);
    OwnLock(s, t);
    Assemble(s, Leave(s, t, op, b), t, if op.Canceling? then WantPop(op.id) else Done);
  }

  lemma {:induction false} PopKeeps(s: Sys, t: Tid, id: OrderId)
    requires Inv(s) && t in s.threads && s.threads[t] == InPop(id)
    ensures Inv(Released(s, t, Done, Unlisted(s.board, id)))
  {
    hide LocksOk, Harmless, ThreadsOk;
    Own(s, t);
    UnlistedFair(s.board, id, t);
    ReleasedLocks(s, t, Done, Unlisted(s.board, id));
    Assemble(s, Released(s, t, Done, Unlisted(s.board, id)), t, Done);
  }

  /** A roll-over leaves books, map and resting orders alone, or no registered book at all. */
  lemma {:induction false} RolledCovers(d: Board, date: Option<int>)
    ensures var d' := Rolled(d, date);
            d' == d.(session := d'.session) || d' == Cleared(d).(session := d'.session)
  {
  }

  lemma {:induction false} RollKeeps(s: Sys, t: Tid, date: Option<int>)
    requires Inv(s) && t in s.threads && s.threads[t] == InRoll(date)
    ensures Inv(Released(s, t, Done, Rolled(s.board, date)))
  {
    hide LocksOk, Harmless, ThreadsOk, Shapes, Mapped, OffBoard, Registered, AtHome, Rolled;
    RolledCovers(s.board, date);
    Own(s, t);
    RolledFair(s.board, date, t);
    ReleasedLocks(s, t, Done, Rolled(s.board, date));
    Assemble(s, Released(s, t, Done, Rolled(s.board, date)), t, Done);
  }

  lemma {:induction false} StartKeeps(s: Sys, t: Tid, call: Call)
    requires Inv(s) && CanStart(s, t, call)
    ensures Inv(Started(s, t, call))
  {
    hide LocksOk, Harmless, ThreadsOk;
    var s' := Started(s, t, call);
    SameFair(s.board, t);
    if call.CallSubmit? {
      ArrivedFair(s.board, call.id, t);
    }
    MovedLocks(s, t, s'.threads[t], s'.board);
    Assemble(s, s', t, s'.threads[t]);
  }

  lemma {:induction false} GetKeeps(s: Sys, t: Tid, op: Op, symbol: Symbol)
    requires Inv(s) && t in s.threads && s.threads[t] == InGet(op, symbol)
    ensures Inv(Get(s, t, op, symbol))
  {
    hide Inv;
    var found := s;
    if symbol !in s.board.books {
      WithBookKeeps(s, t, op, symbol);
      found := s.(board := WithBook(s.board, symbol));
    }
    GottenKeeps(found, t, op, symbol, found.board.books[symbol]);
  }

  lemma {:induction false} InBookKeeps(s: Sys, t: Tid, c: Choice, op: Op, b: BookId)
    requires Inv(s) && Enabled(s, t, c) && s.threads[t] == InBook(op, b)
    ensures Inv(Do(s, t, c))
  {
    hide Inv;
    if c.Closing? {
      CloseKeeps(s, t, op, b, c.v);
    } else if c.Resting? {
      RestKeeps(s, t, op.id, b);
    } else if op.Canceling? {
      FinishCancelKeeps(s, t, op.id, b);
    } else {
      FinishOtherKeeps(s, t, op, b);
    }
  }

  lemma {:induction false} DoKeeps(s: Sys, t: Tid, c: Choice)
    requires Inv(s) && Enabled(s, t, c)
    ensures Inv(Do(s, t, c))
  {
    hide Inv;
    var pc := s.threads[t];
    if c.Refused? {
      RefuseKeeps(s, t, pc.op, pc.symbol);
    } else if WantsReg(pc) {
      TakeRegKeeps(s, t, pc);
    } else {
      match pc
      case InLookup(id) =>
        LookupKeeps(s, t, id, if id in s.board.orderSymbols then WantGet(Canceling(id), s.board.orderSymbols[id])
          else Done);
      case InGet(op, symbol) => GetKeeps(s, t, op, symbol);
      case WantBook(op, b) => TakeBookKeeps(s, t, op, b);
      case InBook(op, b) => InBookKeeps(s, t, c, op, b);
      case InClose(op, b, v) => ReportClosedKeeps(s, t, op, b, v);
      case InRest(id, b) => ReportRestedKeeps(s, t, id, b);
      case Leaving(op, b) => LeaveKeeps(s, t, op, b);
      case InPop(id) => PopKeeps(s, t, id);
      case InRoll(date) => RollKeeps(s, t, date);
      case _ =>
    }
  }

  lemma {:induction false} RunKeeps(s: Sys, es: seq<Event>, s': Sys)
    requires Inv(s) && Run(s, es, s')
    ensures Inv(s')
    decreases |es|
  {
    hide Inv;
    if es != [] {
      match es[0] {
        case Arrive(t, call) => StartKeeps(s, t, call);
        case Advance(t, c) => DoKeeps(s, t, c);
      }
      RunKeeps(Happen(s, es[0]), es[1..], s');
    }
  }

  lemma {:induction false} ReachableKeeps(es: seq<Event>, s: Sys)
    requires Run(EMPTY, es, s)
    ensures Inv(s)
  {
    assert Inv(EMPTY);
    hide Inv;
    RunKeeps(EMPTY, es, s);
  }

  // ----- What every reachable state guarantees -----

  /**
   When the lock of a registered book is free, every id resting in it is in the
   id map under the book's symbol, so a cancel finds the book, whatever rollovers
   orphaned other books in the middle of their submissions.
   */
  lemma {:induction false} RestingIsFindable(es: seq<Event>, s: Sys, symbol: Symbol, id: OrderId)
    requires Run(EMPTY, es, s)
    requires symbol in s.board.books && s.board.books[symbol] !in s.bookLock
    requires id in Ids(s.board, s.board.books[symbol])
    ensures id in s.board.orderSymbols && s.board.orderSymbols[id] == symbol
  {
    ReachableKeeps(es, s);
    var b := s.board.books[symbol];
    assert AtHome(s.board, b, s.board.resting[b]);
  }

  /** No order ever rests in two books, registered or orphaned. */
  lemma {:induction false} RestsOnce(es: seq<Event>, s: Sys, b: BookId, c: BookId, id: OrderId)
    requires Run(EMPTY, es, s)
    requires id in Ids(s.board, b) && id in Ids(s.board, c)
    ensures b == c
  {
    ReachableKeeps(es, s);
    assert AtHome(s.board, b, s.board.resting[b]) && AtHome(s.board, c, s.board.resting[c]);
  }

  /**
   The lock order: a thread waiting for a book holds nothing, so whoever holds the
   registry lock, perhaps with a book, waits for nothing; and whoever waits for the
   registry holds one book at most.
   */
  lemma {:induction false} LockOrder(es: seq<Event>, s: Sys, u: Tid)
    requires Run(EMPTY, es, s) && u in s.threads
    ensures s.threads[u].WantBook? ==> s.regLock != Some(u) && forall b | b in s.bookLock :: s.bookLock[b] != u
    ensures s.regLock == Some(u) ==> Enabled(s, u, Go)
    ensures WantsReg(s.threads[u]) ==> s.regLock != Some(u)
    ensures forall b, c | b in s.bookLock && c in s.bookLock && s.bookLock[b] == s.bookLock[c] == u :: b == c
  {
    hide BoardOk, ThreadsOk, Covered;
    ReachableKeeps(es, s);
  }

  /** No deadlock is reachable: while any request is unfinished, some thread can step. */
  lemma {:induction false} NoDeadlock(es: seq<Event>, s: Sys, t: Tid)
    requires Run(EMPTY, es, s) && t in s.threads && !s.threads[t].Done?
    ensures exists u, c :: Enabled(s, u, c)
  {
    hide BoardOk, ThreadsOk, Covered;
    ReachableKeeps(es, s);
    if s.regLock.Some? {
      assert Enabled(s, s.regLock.value, Go);
    } else {
      var u := t;
      if s.threads[t].WantBook? && s.threads[t].b in s.bookLock {
        u := s.bookLock[s.threads[t].b];
      }
      assert Enabled(s, u, if s.threads[u].InBook? then Finish else Go);
    }
  }
}

/**
 Runs of a new coordinator: polled events, ticks, hand-outs and reports in any
 order. Every answer is determined by the events seen so far, the counters are
 those of the ledger's entries, and they balance event by event if each trader's
 intents were all reported before it was planned anew.
 */
module CoordinatorRuns {
  import opened OrderTypes
  import opened ReactionPlanning
  import opened ReactiveTraders
  import opened EventMemory
  import opened Accounting
  import opened LedgerRuns
  import opened Coordination

  datatype Op =
    | Poll(id: string, symbol: string, direction: Option<DirectionHint>, impact: Option<Impact>, headline: string,
      origin: string, tick: int)
    | Tick(elapsedMs: int, tick: int)
    | Ask(trader: nat, tick: int, snapshot: BookSnapshot)
    | Tell(trader: nat, submitted: bool, elapsedMs: int, tick: int)   // a report; without an intent out there is none

  datatype Done = Judged(verdict: Applied) | Ticked(ok: bool) | Handed(intents: seq<Intent>) | Noted | NothingOut

  // ----- What is remembered -----

  datatype Memory = Memory(processed: Events, live: Events, next: nat, repeats: int)

  /** The first fixture from `next` on that has not started. */
  function NextAfter(events: seq<NewsEvent>, next: nat, elapsedMs: int): (r: nat)
    requires next <= |events|
    ensures next <= r <= |events|
    decreases |events| - next
  {
    if next == |events| || events[next].startsAfterMs > elapsedMs then next else NextAfter(events, next + 1, elapsedMs)
  }

  /** How many of these fixtures are taken before one conflicts. */
  function Accepted(processed: Events, due: seq<NewsEvent>): (r: nat)
    ensures r <= |due|
  {
    if due == [] then 0
    else
      var n := |due| - 1;
      var a := Accepted(processed, due[..n]);
      if a < n || Judge(Absorbed(processed, due[..n]), due[n]) == Conflict then a else n + 1
  }

  function Delivered(op: Op, tickMs: int): NewsEvent
    requires op.Poll? && op.direction.Some? && op.impact.Some?
  {
    LiveEvent(op.id, op.symbol, op.direction.value, op.impact.value, op.headline, op.origin, op.tick * tickMs)
  }

  predicate WellFormed(op: Op) {
    op.Poll? && op.tick >= 1 && op.direction.Some? && op.impact.Some?
  }

  function VerdictOn(m: Memory, op: Op, tickMs: int): Applied
    requires op.Poll?
  {
    if !WellFormed(op) then BadInput else Recognise(m.processed, m.live, Delivered(op, tickMs), op.impact.value)
  }

  function DueAt(m: Memory, events: seq<NewsEvent>, elapsedMs: int): seq<NewsEvent>
    requires m.next <= |events|
  {
    events[m.next..NextAfter(events, m.next, elapsedMs)]
  }

  function After(m: Memory, op: Op, events: seq<NewsEvent>, tickMs: int): (m': Memory)
    requires m.next <= |events|
    ensures m.next <= m'.next <= |events|
  {
    match op
    case Poll(_, _, _, _, _, _, _) =>
      if !WellFormed(op) then m
      else
        var d := Delivered(op, tickMs);
        var r := VerdictOn(m, op, tickMs);
        m.(processed := ProcessedAfter(m.processed, d, r), live := LiveAfter(m.live, d),
           repeats := m.repeats + if r == Again then 1 else 0)
    case Tick(elapsedMs, _) =>
      var due := DueAt(m, events, elapsedMs);
      var taken := due[..Accepted(m.processed, due)];
      m.(processed := Absorbed(m.processed, taken), next := NextAfter(events, m.next, elapsedMs),
         repeats := m.repeats + Repeats(m.processed, taken))
    case _ => m
  }

  lemma {:induction false} NextIs(events: seq<NewsEvent>, next: nat, elapsedMs: int, n: nat)
    requires next <= n <= |events| && (forall k | next <= k < n :: events[k].startsAfterMs <= elapsedMs)
    requires forall k | n <= k < |events| :: events[k].startsAfterMs > elapsedMs
    ensures NextAfter(events, next, elapsedMs) == n
    decreases |events| - next
  {
    if next < n {
      NextIs(events, next + 1, elapsedMs, n);
    }
  }

  lemma {:induction false} AcceptedIs(processed: Events, due: seq<NewsEvent>, n: nat)
    requires n <= |due| && NoConflict(processed, due[..n])
    requires n < |due| ==> Judge(Absorbed(processed, due[..n]), due[n]) == Conflict
    ensures Accepted(processed, due) == n
    decreases |due|
  {
    hide Absorbed, Judge;
    if due != [] {
      var last := |due| - 1;
      if n <= last {
        assert due[..last][..n] == due[..n];
        AcceptedIs(processed, due[..last], n);
      } else {
        assert due[..n] == due;
        PrefixConflicts(processed, due);
        assert due[..last][..last] == due[..last];
        AcceptedIs(processed, due[..last], last);
      }
    }
  }

  // ----- What an operation does -----

  datatype State = State(memory: Memory, book: Ledger, desks: seq<Desk>, lagMaxMs: int)

  /** The fixtures or the polled event taken, and all the entries made. */
  datatype Trace = Trace(applied: seq<Option<seq<ReactionPlan>>>, entries: seq<Entry>)

  ghost predicate PollFits(c: EventCoordinator, s: State, op: Op, done: Done, t: Trace, desks: seq<Desk>)
    requires op.Poll?
  {
    && done == Judged(VerdictOn(s.memory, op, c.tickMs))
    && if done.verdict == Fresh then
         && |t.applied| == 1 && t.applied[0].Some? && c.PlansFor(s.book, Delivered(op, c.tickMs), t.applied[0].value)
         && t.entries == c.Planning(t.applied[0].value, op.id) && desks == c.HandingAll(s.desks, t.applied[0].value)
       else t == Trace([], []) && desks == s.desks
  }

  /** The due fixtures up to a conflict, then, if there was none, late orders and completions. */
  ghost predicate TickFits(c: EventCoordinator, s: State, op: Op, done: Done, t: Trace, desks: seq<Desk>)
    requires op.Tick? && s.memory.next <= |c.source.events|
  {
    var m := s.memory;
    var due := DueAt(m, c.source.events, op.elapsedMs);
    var n := Accepted(m.processed, due);
    && done == Ticked(Agreeing(m.processed, due)) && (done.ok <==> n == |due|)
    && |t.applied| == n && c.Took(s.book, m.processed, due[..n], t.applied)
    && var taken := c.Absorbing(due[..n], t.applied);
       var given := c.HandingAll(s.desks, EventCoordinator.Reactions(t.applied));
       && taken <= t.entries && (forall s | s in t.entries[|taken|..] :: s.Lapsed? || s.Marked?)
       && if !done.ok then t.entries == taken && desks == given
          else
            && Along(s.book, taken).Some?
            && Lapsing(given, Along(s.book, taken).value, op.elapsedMs, op.tick, c.tickMs, m.live.Keys,
               Lags(Absorbed(m.processed, due)), desks)
  }

  function OrdersOn(d: Desk): nat {
    if d.plan.Some? && d.plan.value.activated then d.plan.value.OrderCount() else 0
  }

  /** These are the due orders on the desk, and what is left on it. */
  ghost predicate HandsOut(d: Desk, tick: int, snapshot: BookSnapshot, p: Pricing, intents: seq<Intent>, d': Desk) {
    var n := OrdersOn(d);
    if n == 0 then intents == [] && d' == d
    else
      && d.plan.value.Valid() && n <= |d.plan.value.offsets|
      && intents == DueIntents(d.plan.value, d.consumed, tick, snapshot, p, n)
      && d' == Desk(d.plan, d.consumed + DueIndexes(d.plan.value, d.consumed, tick, n))
  }

  /** The trader hands out its due orders. */
  ghost predicate AskFits(c: EventCoordinator, s: State, op: Op, done: Done, t: Trace, desks: seq<Desk>)
    requires op.Ask?
  {
    var i := op.trader;
    && i < |s.desks| == |desks| && i < |c.traders| && done.Handed? && t == Trace([], [Sent(i, |done.intents|)])
    && HandsOut(s.desks[i], op.tick, op.snapshot, c.traders[i].pricing, done.intents, desks[i])
    && desks == s.desks[i := desks[i]]
  }

  /** A report is heard if the trader has an intent out. */
  ghost predicate TellFits(s: State, op: Op, done: Done, t: Trace, desks: seq<Desk>)
    requires op.Tell?
  {
    && op.trader < |s.book.slots| && desks == s.desks
    && if s.book.slots[op.trader].unreported == 0 then done == NothingOut && t == Trace([], [])
       else done == Noted && t == Trace([], [Heard(op.trader, op.submitted)])
  }

  ghost predicate Fits(c: EventCoordinator, s: State, op: Op, done: Done, t: Trace, desks: seq<Desk>) {
    match op
    case Poll(_, _, _, _, _, _, _) => PollFits(c, s, op, done, t, desks)
    case Tick(_, _) => s.memory.next <= |c.source.events| && TickFits(c, s, op, done, t, desks)
    case Ask(_, _, _) => AskFits(c, s, op, done, t, desks)
    case Tell(_, _, _, _) => TellFits(s, op, done, t, desks)
  }

  /** The largest lag after an operation; only a report that is heard can raise it. */
  function LagOf(s: State, op: Op, done: Done, tickMs: int): int {
    if op.Tell? && done.Noted? && op.trader < |s.book.slots| then
      LagAfter(s.lagMaxMs, s.book.slots[op.trader].event, op.submitted, op.elapsedMs, op.tick, tickMs,
        s.memory.live.Keys)
    else s.lagMaxMs
  }

  /** One operation took the coordinator from `s` to `s'`. */
  ghost predicate Served(c: EventCoordinator, s: State, op: Op, done: Done, t: Trace, s': State) {
    && Fits(c, s, op, done, t, s'.desks) && Along(s.book, t.entries) == Some(s'.book)
    && s.memory.next <= |c.source.events| && s'.memory == After(s.memory, op, c.source.events, c.tickMs)
    && s'.lagMaxMs == LagOf(s, op, done, c.tickMs)
  }

  ghost predicate IsRun(c: EventCoordinator, ops: seq<Op>, dones: seq<Done>, traces: seq<Trace>, states: seq<State>) {
    && |dones| == |traces| == |ops| && |states| == |ops| + 1
    && (forall k | 0 <= k < |ops| :: Served(c, states[k], ops[k], dones[k], traces[k], states[k + 1]))
  }

  ghost function StateOf(c: EventCoordinator): State
    reads c, c.planner, c.source, c.traders
    requires c.TradersOk() && |c.traders| == |c.unreported|
  {
    State(MemoryOf(c), c.Book(), c.Desks(), c.lagMaxMs)
  }

  ghost function MemoryOf(c: EventCoordinator): Memory
    reads c, c.planner, c.source
  {
    Memory(c.planner.processed, c.liveEvents, c.source.nextIndex, c.deduplicated)
  }

  lemma RunMore(c: EventCoordinator, ops: seq<Op>, dones: seq<Done>, traces: seq<Trace>, states: seq<State>, op: Op,
                done: Done, t: Trace, s: State)
    requires IsRun(c, ops, dones, traces, states) && Served(c, states[|ops|], op, done, t, s)
    ensures IsRun(c, ops + [op], dones + [done], traces + [t], states + [s])
  {
    hide Served;
    var ops', dones', traces', states' := ops + [op], dones + [done], traces + [t], states + [s];
    forall k | 0 <= k < |ops'|
      ensures Served(c, states'[k], ops'[k], dones'[k], traces'[k], states'[k + 1])
    {
      if k < |ops| {
        assert Served(c, states[k], ops[k], dones[k], traces[k], states[k + 1]);
      }
    }
  }

  // ----- One operation -----

  method PollOnce(c: EventCoordinator, op: Op) returns (done: Done, ghost t: Trace)
    requires c.Valid() && c.Sourced() && op.Poll?
    modifies c, c.planner, c.traders
    ensures c.Valid() && c.Sourced() && c.unreported == old(c.unreported)
    ensures PollFits(c, old(StateOf(c)), op, done, t, c.Desks())
    ensures Along(old(c.Book()), t.entries) == Some(c.Book())
    ensures MemoryOf(c) == After(old(MemoryOf(c)), op, c.source.events, c.tickMs) && c.lagMaxMs == old(c.lagMaxMs)
  {
    hide EventCoordinator.Valid, EventCoordinator.Sourced, Along, EventCoordinator.PlansFor,
         EventCoordinator.Planning, EventCoordinator.AllBack, Recognise, EventCoordinator.HandingAll,
         EventCoordinator.Desks;
    c.IsShaped();
    AlongNone(c.Book());
    c.HandingMore(c.Desks(), [], []);
    var r;
    ghost var given;
    r, given := c.ApplyMarketEvent(op.id, op.symbol, op.direction, op.impact, op.headline, op.origin, op.tick);
    c.IsShaped();
    done := Judged(r);
    t := if r == Fresh then Trace([Some(given)], c.Planning(given, op.id)) else Trace([], []);
  }

  method TickOnce(c: EventCoordinator, op: Op) returns (done: Done, ghost t: Trace)
    requires c.Valid() && c.Sourced() && op.Tick?
    modifies c, c.planner, c.source, c.traders
    ensures c.Valid() && c.Sourced() && c.unreported == old(c.unreported)
    ensures old(c.source.nextIndex) <= |c.source.events| && TickFits(c, old(StateOf(c)), op, done, t, c.Desks())
    ensures Along(old(c.Book()), t.entries) == Some(c.Book())
    ensures MemoryOf(c) == After(old(MemoryOf(c)), op, c.source.events, c.tickMs) && c.lagMaxMs == old(c.lagMaxMs)
  {
    hide EventCoordinator.Valid, EventCoordinator.Sourced, Along, EventCoordinator.Took, EventCoordinator.Absorbing,
         EventCoordinator.AllBack, EventCoordinator.HandingAll;
    hide Agreeing, Absorbed, NoConflict, Judge, Accepted, NextAfter, EventCoordinator.Reactions,
         EventCoordinator.Desks, Lapsing, Lags, Repeats;
    c.IsShaped();
    ghost var m, l := MemoryOf(c), c.Book();
    var ok;
    ghost var applied, swept;
    ok, applied, swept := c.BeforeTick(op.elapsedMs, op.tick);
    c.IsShaped();
    NextIs(c.source.events, m.next, op.elapsedMs, c.source.nextIndex);
    ghost var due := DueAt(m, c.source.events, op.elapsedMs);
    c.TookAll(l, m.processed, due[..|applied|], applied);
    AcceptedIs(m.processed, due, |applied|);
    assert due[..|due|] == due;
    done := Ticked(ok);
    t := Trace(applied, c.Absorbing(due[..|applied|], applied) + swept);
  }

  method AskOnce(c: EventCoordinator, op: Op) returns (done: Done, ghost t: Trace)
    requires c.Valid() && c.Sourced() && op.Ask? && op.trader < |c.traders|
    modifies c, c.traders
    ensures c.Valid() && c.Sourced() && |c.unreported| == old(|c.unreported|) == |c.traders|
    ensures AskFits(c, old(StateOf(c)), op, done, t, c.Desks()) && done.Handed?
    ensures c.unreported == old(c.unreported)[op.trader := old(c.unreported[op.trader]) + |done.intents|]
    ensures Along(old(c.Book()), t.entries) == Some(c.Book()) && MemoryOf(c) == old(MemoryOf(c))
    ensures c.lagMaxMs == old(c.lagMaxMs)
  {
    hide EventCoordinator.Valid, EventCoordinator.Sourced, ReactionPlan.Valid, DueIntents, DueIndexes, Along,
         EventCoordinator.DesksTo, EventCoordinator.SlotsTo, EventReactiveTrader.Remaining;
    hide EventReactiveTrader.Valid, EventReactiveTrader.Orders, EventCoordinator.TradersOk, ReactionPlan.OrderCount;
    c.IsShaped();
    DeskAt(c, op.trader);
    c.Different(op.trader);
    ghost var d := c.Desks()[op.trader];
    var intents := c.HandOutIntents(op.trader, op.tick, op.snapshot);
    StaysSourced(c);
    c.DeskMoved(op.trader);
    c.IsShaped();
    DeskAt(c, op.trader);
    done, t := Handed(intents), Trace([], [Sent(op.trader, |intents|)]);
    AlongOne(old(c.Book()), Sent(op.trader, |intents|));
  }

  lemma DeskAt(c: EventCoordinator, i: nat)
    requires c.TradersOk() && i < |c.traders|
    ensures var d, trader := c.Desks()[i], c.traders[i];
            && d == Desk(trader.plan, trader.consumed) && trader.Valid() && trader.Orders() == OrdersOn(d)
            && (OrdersOn(d) > 0 ==> d.plan.value.Valid() && OrdersOn(d) <= |d.plan.value.offsets|)
  {
    hide ReactionPlan.Valid;
    var trader := c.traders[i];
    if trader.plan.Some? {
      Lengths(trader.plan.value);
    }
  }

  /** What a report needs of where events come from. */
  twostate lemma StaysSourced(c: EventCoordinator)
    requires old(c.Sourced()) && c.liveEvents == old(c.liveEvents) && c.planner.processed == old(c.planner.processed)
    ensures c.Sourced()
  {
  }

  method TellOnce(c: EventCoordinator, op: Op) returns (done: Done, ghost t: Trace)
    requires c.Valid() && c.Sourced() && op.Tell? && op.trader < |c.traders| == |c.unreported|
    requires c.unreported[op.trader] > 0
    modifies c
    ensures c.Valid() && c.Sourced() && |c.unreported| == old(|c.unreported|)
    ensures done == Noted && t == Trace([], [Heard(op.trader, op.submitted)]) && c.Desks() == old(c.Desks())
    ensures c.unreported == old(c.unreported)[op.trader := old(c.unreported[op.trader]) - 1]
    ensures Along(old(c.Book()), t.entries) == Some(c.Book()) && MemoryOf(c) == old(MemoryOf(c))
    ensures c.lagMaxMs == LagOf(old(StateOf(c)), op, done, c.tickMs)
  {
    hide EventCoordinator.Valid, EventCoordinator.Sourced, EventCoordinator.TradersOk, EventCoordinator.SlotsTo,
         Report, Along, EventReactiveTrader.Valid, EventReactiveTrader.Orders;
    c.IsShaped();
    c.SlotFields(op.trader);
    if c.EventOf(c.traders[op.trader].me.userId).Some? {
      c.HolderKnown(op.trader);
    }
    c.AfterSubmit(op.trader, op.submitted, op.elapsedMs, op.tick);
    StaysSourced(c);
    done, t := Noted, Trace([], [Heard(op.trader, op.submitted)]);
    AlongOne(old(c.Book()), Heard(op.trader, op.submitted));
  }

  method ServeOne(c: EventCoordinator, op: Op, out: seq<nat>) returns (done: Done, more: seq<nat>, ghost t: Trace)
    requires c.Valid() && c.Sourced() && InRange(op, |c.traders|) && out == c.unreported
    modifies c, c.planner, c.source, c.traders
    ensures c.Valid() && c.Sourced() && more == c.unreported
    ensures Served(c, old(StateOf(c)), op, done, t, StateOf(c))
  {
    hide EventCoordinator.Valid, EventCoordinator.Sourced, PollFits, TickFits, AskFits, Along,
         EventReactiveTrader.Valid, EventReactiveTrader.Orders, EventCoordinator.Desks;
    c.IsShaped();
    NextInRange(c);
    match op {
      case Poll(_, _, _, _, _, _, _) =>
        done, t := PollOnce(c, op);
        more := out;
      case Tick(_, _) =>
        done, t := TickOnce(c, op);
        more := out;
      case Ask(i, _, _) =>
        done, t := AskOnce(c, op);
        more := out[i := out[i] + |done.intents|];
      case Tell(i, _, _, _) =>
        c.SlotFields(i);
        if out[i] == 0 {
          AlongNone(c.Book());
          done, t, more := NothingOut, Trace([], []), out;
        } else {
          done, t := TellOnce(c, op);
          more := out[i := out[i] - 1];
        }
    }
    c.IsShaped();
  }

  predicate InRange(op: Op, n: nat) {
    (op.Ask? || op.Tell?) ==> op.trader < n
  }

  lemma NextInRange(c: EventCoordinator)
    requires c.Valid()
    ensures c.source.nextIndex <= |c.source.events|
  {
  }

  /** Any operations on a coordinator with nothing out, one after the other. */
  method ServeAll(c: EventCoordinator, ops: seq<Op>)
    returns (dones: seq<Done>, ghost traces: seq<Trace>, ghost states: seq<State>)
    requires c.Valid() && c.Sourced() && c.unreported == seq(|c.traders|, i => 0)
    requires forall op | op in ops :: InRange(op, |c.traders|)
    modifies c, c.planner, c.source, c.traders
    ensures c.Valid() && c.Sourced() && IsRun(c, ops, dones, traces, states)
    ensures states[0] == old(StateOf(c)) && states[|ops|] == StateOf(c)
  {
    hide EventCoordinator.Valid, EventCoordinator.Sourced, EventCoordinator.TradersOk, EventCoordinator.SlotsTo,
         EventCoordinator.Desks, Served;
    c.IsShaped();
    var out: seq<nat> := seq(|c.traders|, i => 0);
    dones, traces, states := [], [], [StateOf(c)];
    assert ops[..0] == [];
    for k := 0 to |ops|
      invariant c.Valid() && c.Sourced() && c.TradersOk() && out == c.unreported && |c.unreported| == |c.traders|
      invariant IsRun(c, ops[..k], dones, traces, states) && states[0] == old(StateOf(c)) && states[k] == StateOf(c)
    {
      var done;
      ghost var t;
      done, out, t := ServeOne(c, ops[k], out);
      c.IsShaped();
      RunMore(c, ops[..k], dones, traces, states, ops[k], done, t, StateOf(c));
      OneMoreTaken(ops, k);
      dones, traces, states := dones + [done], traces + [t], states + [StateOf(c)];
    }
    assert ops[..|ops|] == ops;
  }

  // ----- What a run adds up to -----

  ghost function All(traces: seq<Trace>): seq<Entry> {
    if traces == [] then [] else All(traces[..|traces| - 1]) + traces[|traces| - 1].entries
  }

  function HandedIn(dones: seq<Done>): nat {
    if dones == [] then 0
    else HandedIn(dones[..|dones| - 1]) + if dones[|dones| - 1].Handed? then |dones[|dones| - 1].intents| else 0
  }

  function NotedIn(dones: seq<Done>): nat {
    if dones == [] then 0 else NotedIn(dones[..|dones| - 1]) + if dones[|dones| - 1].Noted? then 1 else 0
  }

  /** Entries that neither send nor hear anything. */
  ghost predicate Inside(steps: seq<Entry>) {
    forall s | s in steps :: !s.Sent? && !s.Heard?
  }

  lemma {:induction false} InsideWeighs(steps: seq<Entry>)
    requires Inside(steps)
    ensures Weight(steps, SentBy()) == 0 && Weight(steps, HeardBy()) == 0
  {
    if steps != [] {
      assert steps[|steps| - 1] in steps;
      InsideWeighs(steps[..|steps| - 1]);
    }
  }

  lemma {:induction false} GivingInside(c: EventCoordinator, rs: seq<ReactionPlan>, e: string)
    ensures Inside(c.Giving(rs, e))
  {
    if rs != [] {
      GivingInside(c, rs[..|rs| - 1], e);
    }
  }

  lemma {:induction false} AbsorbingInside(c: EventCoordinator, due: seq<NewsEvent>,
                                           applied: seq<Option<seq<ReactionPlan>>>)
    requires |applied| == |due|
    ensures Inside(c.Absorbing(due, applied))
  {
    if due != [] {
      var n := |due| - 1;
      AbsorbingInside(c, due[..n], applied[..n]);
      if applied[n].Some? {
        GivingInside(c, applied[n].value, due[n].eventId);
      }
    }
  }

  lemma {:induction false} TickInside(c: EventCoordinator, s: State, op: Op, done: Done, t: Trace, desks: seq<Desk>)
    requires op.Tick? && s.memory.next <= |c.source.events| && TickFits(c, s, op, done, t, desks)
    ensures done.Ticked? && Inside(t.entries)
  {
    hide Accepted, Agreeing, EventCoordinator.Took, NextAfter, EventCoordinator.Absorbing,
         EventCoordinator.HandingAll, Lapsing, Lags, Along;
    var due := DueAt(s.memory, c.source.events, op.elapsedMs);
    var n := Accepted(s.memory.processed, due);
    var taken := c.Absorbing(due[..n], t.applied);
    AbsorbingInside(c, due[..n], t.applied);
    assert t.entries == taken + t.entries[|taken|..];
  }

  /** What one operation sends and hears is what its answer says. */
  lemma {:induction false} OpFigures(c: EventCoordinator, s: State, op: Op, done: Done, t: Trace, desks: seq<Desk>)
    requires Fits(c, s, op, done, t, desks)
    ensures Weight(t.entries, SentBy()) == if done.Handed? then |done.intents| else 0
    ensures Weight(t.entries, HeardBy()) == if done.Noted? then 1 else 0
  {
    hide VerdictOn, Inside, Weight, TickFits, DueIntents, DueIndexes;
    match op
    case Poll(_, _, _, _, _, _, _) =>
      if done.verdict == Fresh {
        PlanningInside(c, t.applied[0].value, op.id);
      } else {
        NothingInside();
      }
      InsideWeighs(t.entries);
    case Tick(_, _) =>
      TickInside(c, s, op, done, t, desks);
      InsideWeighs(t.entries);
    case Ask(i, _, _) =>
      WeightOne(Sent(i, |done.intents|), SentBy());
      WeightOne(Sent(i, |done.intents|), HeardBy());
    case Tell(i, ok, _, _) =>
      WeightOne(Heard(i, ok), SentBy());
      WeightOne(Heard(i, ok), HeardBy());
  }

  lemma {:induction false} PlanningInside(c: EventCoordinator, rs: seq<ReactionPlan>, e: string)
    ensures Inside(c.Planning(rs, e))
  {
    GivingInside(c, rs, e);
  }

  lemma {:induction false} NothingInside()
    ensures Inside([])
  {
  }

  /**
   The entries of all operations, in order, lead from the first ledger to the last; the answers add
   up to what was sent and heard.
   */
  lemma {:induction false} RunFigures(c: EventCoordinator, ops: seq<Op>, dones: seq<Done>, traces: seq<Trace>,
                                      states: seq<State>)
    requires IsRun(c, ops, dones, traces, states)
    ensures Along(states[0].book, All(traces)) == Some(states[|ops|].book)
    ensures Weight(All(traces), SentBy()) == HandedIn(dones) && Weight(All(traces), HeardBy()) == NotedIn(dones)
    decreases |ops|
  {
    hide Fits, After, Along, Weight;
    if ops == [] {
      AlongNone(states[0].book);
      NothingInside();
      InsideWeighs([]);
    } else {
      var n := |ops| - 1;
      PartOfRun(c, ops, dones, traces, states, 0, n);
      RunFigures(c, ops[..n], dones[..n], traces[..n], states[..n + 1]);
      assert Served(c, states[n], ops[n], dones[n], traces[n], states[n + 1]);
      AlongJoin(states[0].book, All(traces[..n]), traces[n].entries);
      OpFigures(c, states[n], ops[n], dones[n], traces[n], states[n + 1].desks);
      WeightJoin(All(traces[..n]), traces[n].entries, SentBy());
      WeightJoin(All(traces[..n]), traces[n].entries, HeardBy());
    }
  }

  /** The operations from a to b are a run by themselves. */
  lemma {:induction false} PartOfRun(c: EventCoordinator, ops: seq<Op>, dones: seq<Done>, traces: seq<Trace>,
                                     states: seq<State>, a: nat, b: nat)
    requires IsRun(c, ops, dones, traces, states) && a <= b <= |ops|
    ensures IsRun(c, ops[a..b], dones[a..b], traces[a..b], states[a..b + 1])
  {
    hide Served;
    forall k | 0 <= k < b - a
      ensures Served(c, states[a..b + 1][k], ops[a..b][k], dones[a..b][k], traces[a..b][k], states[a..b + 1][k + 1])
    {
      assert Served(c, states[a + k], ops[a + k], dones[a + k], traces[a + k], states[a + k + 1]);
    }
  }

  /** A fixture the source has moved past, and that was not planned, never will be, unless its id comes again. */
  lemma {:induction false} LostFixture(c: EventCoordinator, ops: seq<Op>, dones: seq<Done>, traces: seq<Trace>,
                                       states: seq<State>, id: string)
    requires IsRun(c, ops, dones, traces, states) && id !in states[0].memory.processed
    requires states[0].memory.next <= |c.source.events|
    requires forall k | states[0].memory.next <= k < |c.source.events| :: c.source.events[k].eventId != id
    requires forall op | op in ops && op.Poll? :: op.id != id
    ensures id !in states[|ops|].memory.processed && states[0].memory.next <= states[|ops|].memory.next
    decreases |ops|
  {
    hide Fits, Along, After;
    if ops != [] {
      var n := |ops| - 1;
      PartOfRun(c, ops, dones, traces, states, 0, n);
      LostFixture(c, ops[..n], dones[..n], traces[..n], states[..n + 1], id);
      assert Served(c, states[n], ops[n], dones[n], traces[n], states[n + 1]);
      StillLost(states[n].memory, ops[n], c.source.events, c.tickMs, id);
    }
  }

  lemma {:induction false} StillLost(m: Memory, op: Op, events: seq<NewsEvent>, tickMs: int, id: string)
    requires m.next <= |events| && id !in m.processed && (op.Poll? ==> op.id != id)
    requires forall k | m.next <= k < |events| :: events[k].eventId != id
    ensures id !in After(m, op, events, tickMs).processed
  {
    hide Recognise, NextAfter, Accepted;
    if op.Tick? {
      var due := DueAt(m, events, op.elapsedMs);
      var n := Accepted(m.processed, due);
      AbsorbedKeeps(m.processed, due[..n]);
      assert forall k | 0 <= k < n :: due[..n][k] == events[m.next + k];
    }
  }

  /**
   Any run of a new coordinator: every planned order is waiting, submitted, dropped,
   ignored, or handed out and not yet reported; and if each trader was planned anew
   only after everything it had handed out was reported, nothing is ignored and every
   event's counts balance by themselves.
   */
  method Whole(tickMs: int, dice: Dice, events: seq<NewsEvent>, traders: seq<EventReactiveTrader>, ops: seq<Op>)
    returns (c: EventCoordinator, dones: seq<Done>, ghost traces: seq<Trace>, ghost states: seq<State>)
    requires tickMs >= 1 && Fair(dice) && forall e | e in events :: e.startsAfterMs >= 0
    requires forall i | 0 <= i < |traders| :: traders[i].Valid() && traders[i].Remaining() == 0
    requires forall i, j | 0 <= i < j < |traders| :: traders[i].me.userId != traders[j].me.userId
    requires forall op | op in ops :: InRange(op, |traders|)
    modifies traders
    ensures c.Valid() && c.traders == traders && c.tickMs == tickMs && c.planner.dice == dice
    ensures multiset(c.source.events) == multiset(events)
    ensures IsRun(c, ops, dones, traces, states) && states[|ops|] == StateOf(c)
    ensures states[0].memory == Memory(map[], map[], 0, 0) && states[0].lagMaxMs == 0
    ensures c.planned == Weight(All(traces), PlannedBy()) && c.activatedTraders == Weight(All(traces), TakenBy())
    ensures c.received == |c.planner.processed| == Weight(All(traces), StartedBy())
    ensures c.planned ==
              c.submitted + c.dropped + c.ignored + Sum(c.Book().slots, Remaining())
              + (HandedIn(dones) - NotedIn(dones))
    ensures c.submitted + c.dropped + c.ignored == NotedIn(dones) + Weight(All(traces), LapsedBy())
    ensures AllHeard(All(traces)) ==> c.ignored == 0 && forall e | e in c.runs ::
              c.runs[e].planned == c.runs[e].submitted + c.runs[e].dropped
                                   + Sum(c.Book().slots, RemainingFor(e)) + Sum(c.Book().slots, UnreportedFor(e))
  {
    hide EventCoordinator.Valid, EventCoordinator.Sourced, EventCoordinator.TradersOk, EventCoordinator.SlotsTo,
         EventCoordinator.Desks, EventReactiveTrader.Valid, EventReactiveTrader.Remaining, Served, AllHeard, Sum,
         Weight, Along, LedgerOk;
    c := new EventCoordinator(tickMs, dice, events, traders);
    c.IsShaped();
    NothingOutYet(c);
    dones, traces, states := ServeAll(c, ops);
    c.IsShaped();
    RunFigures(c, ops, dones, traces, states);
    BalancedNow(c);
    EachStarted(c);
    PromptRunsBalance(states[0].book, All(traces));
    Totals(states[0].book, All(traces));
    SumOut(states[0].book);
    assert forall e | AllHeard(All(traces)) && e in c.runs :: RunAccounted(c.Book(), e);
  }

  lemma NothingOutYet(c: EventCoordinator)
    requires c.Valid() && c.unreported == seq(|c.traders|, i => 0)
    ensures LedgerOk(c.Book()) && forall i | 0 <= i < |c.Book().slots| :: c.Book().slots[i].unreported == 0
  {
    hide LedgerOk, EventReactiveTrader.Valid, EventReactiveTrader.Remaining;
  }

  /** There is one run for each event the planner knows. */
  lemma EachStarted(c: EventCoordinator)
    requires c.Valid()
    ensures |c.runs| == |c.planner.processed|
  {
    hide EventCoordinator.TradersOk, LedgerOk, Lags;
    assert |c.runs| == |c.runs.Keys| && |c.planner.processed| == |c.planner.processed.Keys|;
  }

  lemma BalancedNow(c: EventCoordinator)
    requires c.Valid()
    ensures c.planned ==
              c.submitted + c.dropped + Sum(c.Book().slots, Remaining()) + Sum(c.Book().slots, Unreported())
              + c.ignored
  {
    hide EventCoordinator.SlotsTo, Sum;
    c.EveryOrderAccounted();
  }

  lemma {:induction false} SumOut(l: Ledger)
    requires forall i | 0 <= i < |l.slots| :: l.slots[i].unreported == 0
    ensures Sum(l.slots, Unreported()) == 0
  {
    SumZero(l.slots, Unreported());
  }
}

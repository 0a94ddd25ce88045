/**
 The event coordinator: it plans each event once, gives plans to idle traders
 only, drops late orders, and books every report. Its counters are a ledger that
 accounts for every planned order.
 */
module Coordination {
  import opened OrderTypes
  import opened Sorting
  import opened ReactionPlanning
  import opened ReactiveTraders
  import opened EventMemory
  import opened Accounting
  import opened LedgerRuns

  /** Fixture events in order of start, then id. */
  predicate StartsLeq(a: NewsEvent, b: NewsEvent) {
    a.startsAfterMs < b.startsAfterMs || (a.startsAfterMs == b.startsAfterMs && StringLeq(a.eventId, b.eventId))
  }

  lemma {:induction false} StartOrderTotal()
    ensures Total(StartsLeq)
  {
    forall x: NewsEvent, y: NewsEvent
      ensures StartsLeq(x, y) || StartsLeq(y, x)
    {
      StringLeqTotal(x.eventId, y.eventId);
    }
    forall x: NewsEvent, y: NewsEvent, z: NewsEvent | StartsLeq(x, y) && StartsLeq(y, z)
      ensures StartsLeq(x, z)
    {
      if x.startsAfterMs == z.startsAfterMs {
        StringLeqTransitive(x.eventId, y.eventId, z.eventId);
      }
    }
  }

  class SyntheticEventSource {
    const events: seq<NewsEvent>
    var nextIndex: nat

    ghost predicate Valid() reads this {
      nextIndex <= |events| && forall i, j | 0 <= i < j < |events| :: StartsLeq(events[i], events[j])
    }

    constructor (events: seq<NewsEvent>)
      ensures Valid() && nextIndex == 0 && multiset(this.events) == multiset(events)
    {
      StartOrderTotal();
      SortSorts(events, StartsLeq);
      this.events, nextIndex := SortBy(events, StartsLeq), 0;
    }

    /** Every event that has started and was not returned before, in order; nothing started is left behind. */
    method DueEvents(elapsedMs: int) returns (due: seq<NewsEvent>)
      requires Valid()
      modifies this`nextIndex
      ensures Valid() && old(nextIndex) <= nextIndex && due == events[old(nextIndex)..nextIndex]
      ensures forall e | e in due :: e.startsAfterMs <= elapsedMs
      ensures forall i | nextIndex <= i < |events| :: events[i].startsAfterMs > elapsedMs
    {
      due := [];
      while nextIndex < |events| && events[nextIndex].startsAfterMs <= elapsedMs
        invariant old(nextIndex) <= nextIndex <= |events| && due == events[old(nextIndex)..nextIndex]
        invariant forall e | e in due :: e.startsAfterMs <= elapsedMs
        decreases |events| - nextIndex
      {
        due := due + [events[nextIndex]];
        nextIndex := nextIndex + 1;
      }
    }
  }

  /** The orders planned for these users. */
  function OrdersFor(rs: seq<ReactionPlan>, users: set<string>): nat {
    if rs == [] then 0 else (if rs[0].userId in users then rs[0].OrderCount() else 0) + OrdersFor(rs[1..], users)
  }

  lemma {:induction false} OrdersForAppend(rs: seq<ReactionPlan>, r: ReactionPlan, users: set<string>)
    ensures OrdersFor(rs + [r], users) == OrdersFor(rs, users) + if r.userId in users then r.OrderCount() else 0
  {
    if rs != [] {
      OrdersForAppend(rs[1..], r, users);
      assert (rs + [r])[1..] == rs[1..] + [r];
    }
  }

  /** The late orders of one plan: live events run on the tick, fixtures on the run clock. */
  ghost function LateUnder(event: Option<string>, plan: Option<ReactionPlan>, consumed: set<int>, elapsedMs: int,
                           tick: int, tickMs: int, live: set<string>, maxLag: map<string, int>): set<int>
    requires plan.Some? ==> plan.value.Valid()
  {
    if event.Some? && event.value in maxLag && plan.Some? then
      Late(plan.value, consumed, if event.value in live then tick * tickMs
        else elapsedMs, tickMs, maxLag[event.value], plan.value.OrderCount())
    else {}
  }

  /**
   The largest lag after a report: a submitted order of a fixture is as late as the run clock is
   ahead of its tick.
   */
  function LagAfter(lag: int, event: Option<string>, submitted: bool, elapsedMs: int, tick: int, tickMs: int,
                    live: set<string>): int {
    if !submitted || event.None? then lag
    else Max(lag, if event.value in live then 0 else Max(0, elapsedMs - tick * tickMs))
  }

  /** What is dropped is not late again. */
  lemma {:induction false} LateOnce(event: Option<string>, plan: Option<ReactionPlan>, consumed: set<int>,
                                    elapsedMs: int, tick: int, tickMs: int, live: set<string>, maxLag: map<string, int>)
    requires plan.Some? ==> plan.value.Valid()
    ensures LateUnder(event, plan, consumed + LateUnder(event, plan, consumed, elapsedMs, tick, tickMs, live, maxLag),
              elapsedMs, tick, tickMs, live, maxLag) == {}
  {
  }

  lemma {:induction false} OneMoreTaken<T>(s: seq<T>, i: nat)
    requires i < |s|
    ensures s[..i + 1] == s[..i] + [s[i]] && s[..i + 1][..i] == s[..i]
  {
  }

  /** What a trader is working on: its plan, and the orders of it handed out or dropped. */
  datatype Desk = Desk(plan: Option<ReactionPlan>, consumed: set<int>)

  /** Every desk loses exactly the orders that are late under its trader's event. */
  ghost predicate Lapsing(d: seq<Desk>, l: Ledger, elapsedMs: int, tick: int, tickMs: int, live: set<string>,
                          lags: map<string, int>, d': seq<Desk>) {
    && |d'| == |d| <= |l.slots|
    && forall i | 0 <= i < |d| ::
         && (d[i].plan.Some? ==> d[i].plan.value.Valid())
         && d'[i] == Desk(d[i].plan,
            d[i].consumed + LateUnder(l.slots[i].event, d[i].plan, d[i].consumed, elapsedMs, tick, tickMs, live, lags))
  }

  class EventCoordinator {
    const tickMs: int
    const source: SyntheticEventSource
    const planner: ReactionPlanner
    const traders: seq<EventReactiveTrader>
    var traderEvent: map<string, string>
    var eventMaxLag: map<string, int>
    var runs: map<string, EventRun>
    var received: int
    var deduplicated: int
    var activatedTraders: int
    var planned: int
    var submitted: int
    var dropped: int
    var lagMaxMs: int
    var liveEvents: map<string, NewsEvent>
    ghost var unreported: seq<nat>   // per trader, intents handed out and not reported
    ghost var ignored: int           // reports for a trader without an event
    ghost var prompt: bool           // no trader was planned anew with something unreported

    ghost predicate TradersOk() reads traders {
      && (forall i | 0 <= i < |traders| :: traders[i].Valid())
      && (forall i, j | 0 <= i < j < |traders| :: traders[i].me.userId != traders[j].me.userId)
    }

    function EventOf(userId: string): Option<string> reads this`traderEvent {
      if userId in traderEvent then Some(traderEvent[userId]) else None
    }

    ghost function SlotOf(i: nat): Slot
      requires i < |traders| == |unreported| && traders[i].Valid()
      reads this, traders
    {
      Slot(EventOf(traders[i].me.userId), traders[i].Remaining(), unreported[i])
    }

    ghost function SlotsTo(n: nat): (r: seq<Slot>)
      requires TradersOk() && n <= |traders| == |unreported|
      reads this, traders
      ensures |r| == n && forall i | 0 <= i < n :: r[i] == SlotOf(i)
    {
      if n == 0 then [] else SlotsTo(n - 1) + [SlotOf(n - 1)]
    }

    ghost function DesksTo(n: nat): (r: seq<Desk>)
      requires n <= |traders|
      reads traders
      ensures |r| == n && forall i | 0 <= i < n :: r[i] == Desk(traders[i].plan, traders[i].consumed)
    {
      if n == 0 then [] else DesksTo(n - 1) + [Desk(traders[n - 1].plan, traders[n - 1].consumed)]
    }

    ghost function Desks(): seq<Desk>
      reads traders
    {
      DesksTo(|traders|)
    }

    ghost function Book(): Ledger
      requires TradersOk() && |traders| == |unreported|
      reads this, traders
    {
      Ledger(SlotsTo(|traders|), runs, received, activatedTraders, planned, submitted, dropped, ignored, prompt)
    }

    ghost predicate Shaped()
      reads this, traders, planner, source
    {
      && tickMs >= 1 && planner.tickMs == tickMs && Fair(planner.dice) && source.Valid() && TradersOk()
         && |traders| == |unreported|
      && runs.Keys == planner.processed.Keys == eventMaxLag.Keys && eventMaxLag == Lags(planner.processed)
      && (forall e | e in liveEvents :: liveEvents[e].eventId == e)
    }

    ghost predicate Valid()
      reads this, traders, planner, source
    {
      Shaped() && LedgerOk(Book())
    }

    constructor (tickMs: int, dice: Dice, events: seq<NewsEvent>, traders: seq<EventReactiveTrader>)
      requires tickMs >= 1 && Fair(dice)
      requires forall i | 0 <= i < |traders| :: traders[i].Valid() && traders[i].Remaining() == 0
      requires forall i, j | 0 <= i < j < |traders| :: traders[i].me.userId != traders[j].me.userId
      requires forall e | e in events :: e.startsAfterMs >= 0
      ensures Valid() && Sourced() && fresh({source, planner})
      ensures this.traders == traders && this.tickMs == tickMs && planner.dice == dice
      ensures multiset(source.events) == multiset(events) && source.nextIndex == 0
      ensures planner.processed == map[] && liveEvents == map[] && runs == map[] && traderEvent == map[]
      ensures received == deduplicated == activatedTraders == lagMaxMs == 0
      ensures planned == submitted == dropped == ignored == 0
      ensures prompt && unreported == seq(|traders|, i => 0)
    {
      hide Sum, EventReactiveTrader.Valid, EventReactiveTrader.Remaining;
      this.tickMs, this.traders := tickMs, traders;
      traderEvent, eventMaxLag, runs, liveEvents := map[], map[], map[], map[];
      received, deduplicated, activatedTraders, planned, submitted, dropped, lagMaxMs := 0, 0, 0, 0, 0, 0, 0;
      unreported, ignored, prompt := seq(|traders|, i => 0), 0, true;
      var s := new SyntheticEventSource(events);
      var p := new ReactionPlanner(dice, tickMs);
      source, planner := s, p;
      new;
      NothingYet(Book());
      forall k | 0 <= k < |source.events|
        ensures source.events[k].startsAfterMs >= 0
      {
        assert source.events[k] in multiset(source.events);
      }
    }

    /**
     Every planned order is waiting, submitted, dropped, out and unreported, or was reported
     and ignored. If nothing was ever planned anew with an order out, none was ignored and
     each event's counts balance by themselves.
     */
    lemma EveryOrderAccounted()
      requires Valid()
      ensures planned >= submitted + dropped + Sum(Book().slots, Remaining()) + Sum(Book().slots, Unreported())
      ensures planned ==
                submitted + dropped + Sum(Book().slots, Remaining()) + Sum(Book().slots, Unreported()) + ignored
      ensures prompt ==> ignored == 0 && forall e | e in runs ::
                runs[e].planned == runs[e].submitted + runs[e].dropped
                                   + Sum(Book().slots, RemainingFor(e)) + Sum(Book().slots, UnreportedFor(e))
    {
      hide Lags, Sum;
      assert forall e | e in runs && prompt :: RunAccounted(Book(), e);
    }

    /** Only trader i's slot may have changed. */
    twostate lemma OneSlot(i: nat)
      requires old(TradersOk()) && TradersOk() && i < |traders| == |unreported| == old(|unreported|)
      requires forall k | 0 <= k < |traders| && k != i ::
                 SlotOf(k) == old(SlotOf(k))
      ensures SlotsTo(|traders|) == old(SlotsTo(|traders|))[i := SlotOf(i)]
    {
    }

    lemma Different(i: nat)
      requires TradersOk() && i < |traders|
      ensures forall k | 0 <= k < |traders| && k != i :: traders[k] != traders[i]
    {
      hide Lags, EventReactiveTrader.Valid;
    }

    /** Trader i has moved on, the others have not. */
    twostate lemma TraderMoved(i: nat)
      requires old(TradersOk()) && i < |traders| == |unreported| == old(|unreported|) && traders[i].Valid()
      requires forall k | 0 <= k < |traders| && k != i :: unchanged(traders[k]) && unreported[k] == old(unreported[k])
      requires traderEvent == old(traderEvent)
      ensures TradersOk() && SlotsTo(|traders|) == old(SlotsTo(|traders|))[i := SlotOf(i)]
    {
      hide Lags, EventReactiveTrader.Orders;
      forall k | 0 <= k < |traders| && k != i
        ensures traders[k].Valid() && SlotOf(k) == old(SlotOf(k))
      {
        assert old(traders[k].Valid());
      }
      OneSlot(i);
    }

    method RecordDrops(e: string, n: nat)
      requires TradersOk() && |traders| == |unreported| && e in runs
      modifies this`dropped, this`runs
      ensures Book() == Drops(old(Book()), e, n) && runs.Keys == old(runs.Keys)
    {
      hide Lags, Sum, EventReactiveTrader.Valid, EventReactiveTrader.Remaining, EventReactiveTrader.Orders;
      dropped := dropped + n;
      runs := runs[e := runs[e].(dropped := runs[e].dropped + n)];
      SameSlots();
    }

    /** No trader, assignment or unreported count has changed. */
    twostate lemma SameSlots()
      requires old(TradersOk()) && |traders| == |unreported|
      requires unchanged(traders) && traderEvent == old(traderEvent) && unreported == old(unreported)
      ensures TradersOk() && SlotsTo(|traders|) == old(SlotsTo(|traders|))
    {
    }

    method MaybeComplete(e: string)
      requires TradersOk() && |traders| == |unreported| && e in runs
      modifies this`runs
      ensures Book() == Complete(old(Book()), e) && runs.Keys == old(runs.Keys)
    {
      hide Lags, Sum, EventReactiveTrader.Valid, EventReactiveTrader.Remaining, EventReactiveTrader.Orders;
      if runs[e].completed || runs[e].planned == 0 {
        return;
      }
      SumOfNone(RemainingFor(e));
      var remaining := 0;
      for i := 0 to |traders|
        invariant runs == old(runs) && remaining == Sum(SlotsTo(i), RemainingFor(e))
      {
        SumAppend(SlotsTo(i), SlotOf(i), RemainingFor(e));
        if EventOf(traders[i].me.userId) == Some(e) {
          remaining := remaining + traders[i].Remaining();
        }
      }
      if remaining > 0 {
        return;
      }
      runs := runs[e := runs[e].(completed := true)];
      SameSlots();
    }

    lemma HolderKnown(i: nat)
      requires Valid() && i < |traders| && EventOf(traders[i].me.userId).Some?
      ensures EventOf(traders[i].me.userId).value in runs && EventOf(traders[i].me.userId).value in eventMaxLag
    {
      assert Book().slots[i] == SlotOf(i);
    }

    /** The orders of trader i that are now too late. */
    ghost function LateNow(i: nat, consumed: set<int>, elapsedMs: int, tick: int): set<int>
      requires i < |traders| && traders[i].Valid()
      reads this`traderEvent, this`liveEvents, this`eventMaxLag, traders
    {
      LateUnder(EventOf(traders[i].me.userId), traders[i].plan, consumed, elapsedMs, tick, tickMs, liveEvents.Keys,
        eventMaxLag)
    }

    /** One trader's late orders: the event's clock is the tick for live events, the run clock for fixtures. */
    method DropLateFor(i: nat, elapsedMs: int, tick: int) returns (ghost steps: seq<Entry>)
      requires Valid() && i < |traders|
      modifies this`dropped, this`runs, traders[i]
      ensures Valid() && Along(old(Book()), steps) == Some(Book())
      ensures steps == [] || steps == [Lapsed(i, |old(LateNow(i, traders[i].consumed, elapsedMs, tick))|)]
      ensures traders[i].plan == old(traders[i].plan)
      ensures traders[i].consumed == old(traders[i].consumed) + old(LateNow(i, traders[i].consumed, elapsedMs, tick))
      ensures dropped == old(dropped) + |old(LateNow(i, traders[i].consumed, elapsedMs, tick))|
    {
      hide Lags, Sum, Accounted, PromptOk, Held, Completed, EventReactiveTrader.Valid, EventReactiveTrader.Remaining,
           EventReactiveTrader.Orders, Late, SlotsTo, LateUnder, SlotOf;
      Different(i);
      SlotFields(i);
      var user := traders[i].me.userId;
      if user !in traderEvent {
        NothingLate(i, traders[i].consumed, elapsedMs, tick);
        return [];
      }
      var e := traderEvent[user];
      HolderKnown(i);
      var n := DropFrom(i, elapsedMs, tick);
      TraderMoved(i);
      SlotFields(i);
      RecordDrops(e, n);
      assert Book() == DropLate(old(Book()), i, n);
      DropLateOk(old(Book()), i, n);
      AlongOne(old(Book()), Lapsed(i, n));
      steps := [Lapsed(i, n)];
    }

    lemma NothingLate(i: nat, consumed: set<int>, elapsedMs: int, tick: int)
      requires i < |traders| && traders[i].Valid() && traders[i].me.userId !in traderEvent
      ensures LateNow(i, consumed, elapsedMs, tick) == {} && consumed + {} == consumed
    {
    }

    /** The trader's side of it. */
    method DropFrom(i: nat, elapsedMs: int, tick: int) returns (n: nat)
      requires i < |traders| && traders[i].Valid()
      requires traders[i].me.userId in traderEvent && traderEvent[traders[i].me.userId] in eventMaxLag
      modifies traders[i]
      ensures traders[i].Valid() && traders[i].plan == old(traders[i].plan)
      ensures traders[i].Remaining() == old(traders[i].Remaining()) - n
      ensures n == |old(LateNow(i, traders[i].consumed, elapsedMs, tick))|
      ensures traders[i].consumed == old(traders[i].consumed) + old(LateNow(i, traders[i].consumed, elapsedMs, tick))
    {
      hide Lags, EventReactiveTrader.Valid, EventReactiveTrader.Remaining, EventReactiveTrader.Orders, Late, LateNow;
      LateIsLate(i, traders[i].consumed, elapsedMs, tick);
      var e := traderEvent[traders[i].me.userId];
      n := traders[i].DropLateOrders(if e in liveEvents then tick * tickMs else elapsedMs, tickMs, eventMaxLag[e]);
    }

    lemma LateIsLate(i: nat, consumed: set<int>, elapsedMs: int, tick: int)
      requires i < |traders| && traders[i].Valid()
      requires traders[i].me.userId in traderEvent && traderEvent[traders[i].me.userId] in eventMaxLag
      ensures var e := traderEvent[traders[i].me.userId];
              LateNow(i, consumed, elapsedMs, tick) ==
                if traders[i].Orders() == 0 then {}
                else Late(traders[i].plan.value, consumed, if e in liveEvents then tick * tickMs else elapsedMs, tickMs,
                          eventMaxLag[e], traders[i].Orders())
      ensures consumed + {} == consumed
    {
    }

    method DropLateOrders(elapsedMs: int, tick: int) returns (ghost steps: seq<Entry>)
      requires Valid()
      modifies this`dropped, this`runs, traders
      ensures Valid() && Along(old(Book()), steps) == Some(Book()) && forall s | s in steps :: s.Lapsed?
      ensures forall i | 0 <= i < |traders| ::
                && traders[i].plan == old(traders[i].plan)
                && traders[i].consumed
                   == old(traders[i].consumed) + old(LateNow(i, traders[i].consumed, elapsedMs, tick))
      ensures forall i | 0 <= i < |traders| ::
                traders[i].Valid() && LateNow(i, traders[i].consumed, elapsedMs, tick) == {}
      ensures Lapsing(old(Desks()), old(Book()), elapsedMs, tick, tickMs, liveEvents.Keys, eventMaxLag, Desks())
    {
      hide Lags, Valid, TradersOk, LateUnder, EventReactiveTrader.Valid, EventReactiveTrader.Orders, SlotsTo, Along;
      AllDifferent();
      steps := [];
      AlongNone(Book());
      for n := 0 to |traders|
        invariant Valid() && TradersOk() && |traders| == |unreported|
        invariant Along(old(Book()), steps) == Some(Book()) && forall s | s in steps :: s.Lapsed?
        invariant forall i | 0 <= i < |traders| :: traders[i].Valid() && traders[i].plan == old(traders[i].plan)
        invariant forall i | n <= i < |traders| :: traders[i].consumed == old(traders[i].consumed)
        invariant forall i | 0 <= i < n ::
                    traders[i].consumed
                      == old(traders[i].consumed) + old(LateNow(i, traders[i].consumed, elapsedMs, tick))
      {
        ghost var more := DropLateFor(n, elapsedMs, tick);
        AlongJoin(old(Book()), steps, more);
        steps := steps + more;
        AllDifferent();
      }
      forall i | 0 <= i < |traders|
        ensures LateNow(i, traders[i].consumed, elapsedMs, tick) == {}
      {
        NoLonger(i, old(traders[i].consumed), elapsedMs, tick);
      }
      DesksLapsed(elapsedMs, tick);
    }

    twostate lemma DesksLapsed(elapsedMs: int, new tick: int)
      requires old(Valid()) && traderEvent == old(traderEvent) && liveEvents == old(liveEvents)
      requires eventMaxLag == old(eventMaxLag)
      requires forall i | 0 <= i < |traders| :: old(traders[i].Valid()) && traders[i].plan == old(traders[i].plan)
                 && traders[i].consumed
                    == old(traders[i].consumed) + old(LateNow(i, traders[i].consumed, elapsedMs, tick))
      ensures Lapsing(old(Desks()), old(Book()), elapsedMs, tick, tickMs, liveEvents.Keys, eventMaxLag, Desks())
    {
      hide Lags, LedgerOk, LateUnder, EventReactiveTrader.Remaining, EventReactiveTrader.Orders;
      var d, l := old(Desks()), old(Book());
      forall i | 0 <= i < |traders|
        ensures l.slots[i].event == old(EventOf(traders[i].me.userId))
      {
      }
    }

    lemma NoLonger(i: nat, consumed: set<int>, elapsedMs: int, tick: int)
      requires i < |traders| && traders[i].Valid()
      ensures LateNow(i, consumed + LateNow(i, consumed, elapsedMs, tick), elapsedMs, tick) == {}
    {
      LateOnce(EventOf(traders[i].me.userId), traders[i].plan, consumed, elapsedMs, tick, tickMs, liveEvents.Keys,
        eventMaxLag);
    }

    lemma AllDifferent()
      requires Valid()
      ensures TradersOk() && |traders| == |unreported|
      ensures forall i, k | 0 <= i < k < |traders| :: traders[i] != traders[k]
      ensures forall i | 0 <= i < |traders| :: traders[i].Valid()
    {
    }

    /** What the runner does with trader i: the intents leave the plan and await their reports. */
    method HandOutIntents(i: nat, tick: int, snapshot: BookSnapshot) returns (intents: seq<Intent>)
      requires Valid() && i < |traders|
      modifies this`unreported, traders[i]
      ensures Valid() && |intents| <= old(Book().slots[i]).remaining
      ensures Book() == HandOut(old(Book()), i, |intents|)
      ensures unreported == old(unreported)[i := old(unreported[i]) + |intents|]
      ensures traders[i].plan == old(traders[i].plan)
      ensures traders[i].Orders() == 0 ==> intents == [] && traders[i].consumed == old(traders[i].consumed)
      ensures traders[i].Orders() > 0 && traders[i].Valid() ==>
        && intents == DueIntents(traders[i].plan.value, old(traders[i].consumed), tick, snapshot, traders[i].pricing,
           traders[i].Orders())
        && traders[i].consumed
           == old(traders[i].consumed)
           + DueIndexes(traders[i].plan.value, old(traders[i].consumed), tick, traders[i].Orders())
    {
      hide Lags, Sum, Accounted, PromptOk, Held, Completed, EventReactiveTrader.Valid, EventReactiveTrader.Remaining,
           EventReactiveTrader.Orders, Late, DueIntents, DueIndexes, SlotsTo;
      Different(i);
      intents := traders[i].NextIntents(tick, snapshot);
      unreported := unreported[i := unreported[i] + |intents|];
      TraderMoved(i);
      HandOutOk(old(Book()), i, |intents|);
    }

    /** A report is charged to the trader's present event; without one it is ignored. */
    method AfterSubmit(i: nat, ok: bool, elapsedMs: int, tick: int)
      requires Valid() && i < |traders| && unreported[i] > 0
      modifies this`submitted, this`dropped, this`runs, this`lagMaxMs, this`unreported, this`ignored
      ensures Valid() && Book() == Report(old(Book()), i, ok)
      ensures unreported == old(unreported)[i := old(unreported[i]) - 1]
      ensures lagMaxMs ==
                LagAfter(old(lagMaxMs), old(Book()).slots[i].event, ok, elapsedMs, tick, tickMs, liveEvents.Keys)
    {
      hide Lags, SlotOf, Complete, Sum, Accounted, PromptOk, Completed, EventReactiveTrader.Valid,
           EventReactiveTrader.Remaining, EventReactiveTrader.Orders, Late, DueIntents, DueIndexes, SlotsTo;
      var user := traders[i].me.userId;
      SlotFields(i);
      ReportOk(Book(), i, ok);
      if user !in traderEvent {
        Reportedly(i);
        Ignore();
        return;
      }
      HolderKnown(i);
      var e := traderEvent[user];
      Reportedly(i);
      Charge(e, ok, elapsedMs, tick);
    }

    method Charge(e: string, ok: bool, elapsedMs: int, tick: int)
      requires TradersOk() && |traders| == |unreported| && e in runs
      modifies this`submitted, this`dropped, this`runs, this`lagMaxMs
      ensures Book() == Complete(if ok then Submits(old(Book()), e) else Drops(old(Book()), e, 1), e)
      ensures runs.Keys == old(runs.Keys)
      ensures lagMaxMs == LagAfter(old(lagMaxMs), Some(e), ok, elapsedMs, tick, tickMs, liveEvents.Keys)
    {
      hide Lags, TradersOk, SlotsTo, Complete;
      if !ok {
        RecordDrops(e, 1);
      } else {
        RecordSubmitted(e, elapsedMs, tick);
      }
      MaybeComplete(e);
    }

    lemma SlotFields(i: nat)
      requires TradersOk() && i < |traders| == |unreported|
      ensures Book().slots[i] == SlotOf(i) && SlotOf(i).unreported == unreported[i]
      ensures SlotOf(i).event == EventOf(traders[i].me.userId) && SlotOf(i).remaining == traders[i].Remaining()
    {
    }

    ghost method Ignore()
      requires TradersOk() && |traders| == |unreported|
      modifies this`ignored
      ensures Book() == old(Book()).(ignored := old(ignored) + 1)
    {
      hide Lags, EventReactiveTrader.Valid, EventReactiveTrader.Remaining, EventReactiveTrader.Orders;
      ignored := ignored + 1;
      SameSlots();
    }

    ghost method Reportedly(i: nat)
      requires TradersOk() && i < |traders| == |unreported| && unreported[i] > 0
      modifies this`unreported
      ensures unreported == old(unreported)[i := old(unreported[i]) - 1]
      ensures Book() ==
                old(Book()).(slots := old(Book()).slots[i := old(SlotOf(i)).(unreported := old(unreported[i]) - 1)])
    {
      hide Lags, EventReactiveTrader.Valid, EventReactiveTrader.Remaining, EventReactiveTrader.Orders;
      unreported := unreported[i := unreported[i] - 1];
      OneSlot(i);
    }

    method RecordSubmitted(e: string, elapsedMs: int, tick: int)
      requires TradersOk() && |traders| == |unreported| && e in runs
      modifies this`submitted, this`runs, this`lagMaxMs
      ensures Book() == Submits(old(Book()), e) && runs.Keys == old(runs.Keys)
      ensures lagMaxMs == LagAfter(old(lagMaxMs), Some(e), true, elapsedMs, tick, tickMs, liveEvents.Keys)
    {
      hide Lags, Sum, EventReactiveTrader.Valid, EventReactiveTrader.Remaining, EventReactiveTrader.Orders;
      submitted := submitted + 1;
      runs := runs[e := runs[e].(submitted := runs[e].submitted + 1)];
      var scheduledMs := tick * tickMs;
      var currentMs := if e in liveEvents then scheduledMs else elapsedMs;
      lagMaxMs := Max(lagMaxMs, Max(0, currentMs - scheduledMs));
      SameSlots();
    }

    // ----- Planning -----

    /** The trader leaves its old event; whatever its plan still had is counted as dropped there. */
    method AbandonPrevious(i: nat)
      requires TradersOk() && i < |traders| == |unreported|
      requires EventOf(traders[i].me.userId).Some? ==> EventOf(traders[i].me.userId).value in runs
      modifies this`traderEvent, this`dropped, this`runs
      ensures traderEvent == old(traderEvent) - {traders[i].me.userId} && runs.Keys == old(runs.Keys)
      ensures old(EventOf(traders[i].me.userId)).None? || traders[i].Remaining() == 0 ==>
                dropped == old(dropped) && runs == old(runs)
      ensures old(EventOf(traders[i].me.userId)).Some? ==> dropped == old(dropped) + traders[i].Remaining()
    {
      hide Lags, Complete, EventReactiveTrader.Orders, SlotsTo;
      var user := traders[i].me.userId;
      var previous := EventOf(user);
      traderEvent := traderEvent - {user};
      var leftover := traders[i].Remaining();
      if previous.None? || leftover == 0 {
        return;
      }
      RecordDrops(previous.value, leftover);
      MaybeComplete(previous.value);
    }

    /** The writes of one assignment, for a trader with an empty plan. */
    method Assign(i: nat, r: ReactionPlan, e: string)
      requires TradersOk() && i < |traders| == |unreported| && traders[i].Remaining() == 0 && r.Valid()
      requires r.userId == traders[i].me.userId && r.symbol == traders[i].me.symbol
      requires e in runs && (EventOf(r.userId).Some? ==> EventOf(r.userId).value in runs)
      modifies this`traderEvent, this`dropped, this`runs, this`planned, this`activatedTraders, this`prompt, traders[i]
      ensures traders[i].Valid() && traders[i].plan == Some(r) && traders[i].consumed == {}
      ensures traders[i].Remaining() == r.OrderCount()
      ensures dropped == old(dropped) && prompt == (old(prompt) && unreported[i] == 0)
      ensures planned == if r.activated then old(planned) + r.OrderCount() else old(planned)
      ensures activatedTraders == old(activatedTraders) + if r.activated then 1 else 0
      ensures traderEvent == if r.activated then old(traderEvent)[r.userId := e] else old(traderEvent) - {r.userId}
      ensures runs == if !r.activated then old(runs) else
        old(runs)[e :=
          old(runs[e]).(planned := old(runs[e]).planned + r.OrderCount(), activated := old(runs[e]).activated + 1)]
    {
      hide Lags, SlotOf, EventReactiveTrader.Valid, EventReactiveTrader.Remaining, EventReactiveTrader.Orders,
           SlotsTo, ReactionPlan.Valid;
      assert traders[i].Valid();
      AbandonPrevious(i);
      var ok := traders[i].ApplyPlan(r);
      prompt := prompt && unreported[i] == 0;
      if r.activated {
        runs := runs[e := runs[e].(planned := runs[e].planned + r.OrderCount(), activated := runs[e].activated + 1)];
        traderEvent := traderEvent[r.userId := e];
        activatedTraders := activatedTraders + 1;
        planned := planned + r.OrderCount();
      }
    }

    /** One reaction of the plan reaches its idle trader: nothing is dropped for it. */
    method GivePlan(i: nat, r: ReactionPlan, e: string)
      requires Valid() && i < |traders| && traders[i].Remaining() == 0 && r.Valid()
      requires r.userId == traders[i].me.userId && r.symbol == traders[i].me.symbol
      requires e in runs && !runs[e].completed
      modifies this`traderEvent, this`dropped, this`runs, this`planned, this`activatedTraders, this`prompt, traders[i]
      ensures Valid() && dropped == old(dropped) && planned == old(planned) + r.OrderCount()
      ensures Book() == if r.activated then Take(Vacate(old(Book()), i), i, e, r.OrderCount())
                else Vacate(old(Book()), i)
      ensures Along(old(Book()), [Vacated(i)] + if r.activated then [Taken(i, e, r.OrderCount())] else [])
                == Some(Book())
      ensures prompt == (old(prompt) && unreported[i] == 0)
      ensures runs.Keys == old(runs.Keys) && !runs[e].completed
      ensures traders[i].plan == Some(r) && traders[i].consumed == {} && traders[i].Remaining() == r.OrderCount()
      ensures traderEvent == if r.activated then old(traderEvent)[r.userId := e] else old(traderEvent) - {r.userId}
    {
      hide Lags, SlotOf, Sum, Accounted, PromptOk, Held, Completed, EventReactiveTrader.Valid,
           EventReactiveTrader.Remaining, EventReactiveTrader.Orders, SlotsTo, ReactionPlan.Valid, Along;
      Different(i);
      SlotFields(i);
      Asleep(r);
      ghost var after := Vacate(Book(), i);
      VacateOk(Book(), i);
      AlongOne(Book(), Vacated(i));
      assert [Vacated(i)] + [] == [Vacated(i)];
      if r.activated {
        TakeOk(after, i, e, r.OrderCount());
        AlongMore(Book(), [Vacated(i)], Taken(i, e, r.OrderCount()));
        after := Take(after, i, e, r.OrderCount());
      }
      if EventOf(r.userId).Some? {
        HolderKnown(i);
      }
      Assign(i, r, e);
      assert traderEvent - {r.userId} == old(traderEvent) - {r.userId};
      SlotMoved(i);
      assert Book() == after;
    }

    lemma Asleep(r: ReactionPlan)
      requires r.Valid()
      ensures !r.activated ==> r.OrderCount() == 0
    {
    }

    /** The trader with this user id. */
    method Find(userId: string) returns (r: Option<nat>)
      requires TradersOk()
      ensures r.None? ==> forall i | 0 <= i < |traders| :: traders[i].me.userId != userId
      ensures r.Some? ==> r.value < |traders| && traders[r.value].me.userId == userId
    {
      hide Lags, EventReactiveTrader.Valid;
      for i := 0 to |traders|
        invariant forall k | 0 <= k < i :: traders[k].me.userId != userId
      {
        if traders[i].me.userId == userId {
          return Some(i);
        }
      }
      r := None;
    }

    /** Where the trader with this user id stands. */
    ghost function TraderOf(userId: string): (r: Option<nat>)
      ensures r.None? ==> forall i | 0 <= i < |traders| :: traders[i].me.userId != userId
      ensures r.Some? ==> r.value < |traders| && traders[r.value].me.userId == userId
    {
      if i: nat :| i < |traders| && traders[i].me.userId == userId then Some(i) else None
    }

    /** One reaction in the ledger: its trader is freed, and takes the orders if it is activated. */
    ghost function EntriesFor(r: ReactionPlan, e: string): seq<Entry> {
      match TraderOf(r.userId)
      case None => []
      case Some(i) => [Vacated(i)] + if r.activated then [Taken(i, e, r.OrderCount())] else []
    }

    ghost function Giving(rs: seq<ReactionPlan>, e: string): seq<Entry> {
      if rs == [] then [] else Giving(rs[..|rs| - 1], e) + EntriesFor(rs[|rs| - 1], e)
    }

    lemma GivingMore(rs: seq<ReactionPlan>, j: nat, e: string)
      requires j < |rs|
      ensures Giving(rs[..j + 1], e) == Giving(rs[..j], e) + EntriesFor(rs[j], e)
    {
      OneMoreTaken(rs, j);
    }

    lemma NothingGiven(e: string)
      ensures Giving([], e) == []
    {
    }

    /** A newly planned event in the ledger. */
    ghost function Planning(rs: seq<ReactionPlan>, e: string): seq<Entry> {
      [Started(e)] + Giving(rs, e)
    }

    /** Nothing is out from any trader the plan names. */
    ghost predicate AllBack(rs: seq<ReactionPlan>)
      requires |traders| == |unreported|
      reads this`unreported
    {
      forall k, i | 0 <= k < |rs| && 0 <= i < |traders| && rs[k].userId == traders[i].me.userId :: unreported[i] == 0
    }

    lemma AllBackMore(rs: seq<ReactionPlan>, more: seq<ReactionPlan>)
      requires |traders| == |unreported|
      ensures AllBack(rs + more) <==> AllBack(rs) && AllBack(more)
      ensures AllBack([])
    {
      var all := rs + more;
      assert forall k | 0 <= k < |rs| :: all[k] == rs[k];
      assert forall k | 0 <= k < |more| :: all[|rs| + k] == more[k];
    }

    ghost function Users(): set<string> {
      set i | 0 <= i < |traders| :: traders[i].me.userId
    }

    /** The reactions from the j-th on are for traders with nothing left, of their own symbol. */
    ghost predicate Idle(rs: seq<ReactionPlan>, j: nat)
      requires TradersOk() && j <= |rs|
      reads traders
    {
      forall k, i | j <= k < |rs| && 0 <= i < |traders| && rs[k].userId == traders[i].me.userId ::
        traders[i].Remaining() == 0 && rs[k].symbol == traders[i].me.symbol
    }

    /** The first n reactions have reached their traders. */
    ghost predicate Given(rs: seq<ReactionPlan>, n: nat, e: string)
      requires n <= |rs|
      reads this`traderEvent, traders
    {
      forall k, i | 0 <= k < n && 0 <= i < |traders| && rs[k].userId == traders[i].me.userId ::
        && traders[i].plan == Some(rs[k]) && traders[i].consumed == {}
        && EventOf(rs[k].userId) == if rs[k].activated then Some(e) else None
    }

    /** The whole plan is handed to its traders; the counters grow by its orders and nothing is dropped. */
    method AssignPlans(rs: seq<ReactionPlan>, e: string)
      requires Valid() && e in runs && !runs[e].completed && Idle(rs, 0)
      requires forall k | 0 <= k < |rs| :: rs[k].Valid()
      requires forall j, k | 0 <= j < k < |rs| :: rs[j].userId != rs[k].userId
      modifies this`traderEvent, this`dropped, this`runs, this`planned, this`activatedTraders, this`prompt, traders
      ensures Valid() && dropped == old(dropped) && planned == old(planned) + OrdersFor(rs, Users())
      ensures Along(old(Book()), Giving(rs, e)) == Some(Book()) && prompt == (old(prompt) && AllBack(rs))
      ensures Desks() == HandingAll(old(Desks()), rs)
      ensures runs.Keys == old(runs.Keys) && Given(rs, |rs|, e)
      ensures forall i | 0 <= i < |traders| && old(traders[i].Remaining()) > 0 ::
                traders[i].plan == old(traders[i].plan) && traders[i].consumed == old(traders[i].consumed)
    {
      hide Lags, Sum, LedgerOk, EventReactiveTrader.Valid, EventReactiveTrader.Remaining, EventReactiveTrader.Orders,
           SlotsTo, ReactionPlan.Valid, Along, EntriesFor, Giving, AllBack, Valid, TradersOk, Desks, Handing,
           HandingAll;
      IsShaped();
      HandingMore(Desks(), [], []);
      AllBackMore([], []);
      NothingGiven(e);
      AlongNone(Book());
      for j := 0 to |rs|
        invariant Valid() && dropped == old(dropped) && planned == old(planned) + OrdersFor(rs[..j], Users())
        invariant |traders| == |unreported| && TradersOk()
        invariant Along(old(Book()), Giving(rs[..j], e)) == Some(Book()) && prompt == (old(prompt) && AllBack(rs[..j]))
        invariant Desks() == HandingAll(old(Desks()), rs[..j])
        invariant e in runs && !runs[e].completed && runs.Keys == old(runs.Keys) && Idle(rs, j) && Given(rs, j, e)
        invariant forall i | 0 <= i < |traders| && old(traders[i].Remaining()) > 0 :: unchanged(traders[i])
      {
        OneMoreTaken(rs, j);
        GivingMore(rs, j, e);
        HandingMore(old(Desks()), rs[..j], [rs[j]]);
        HandingOne(Desks(), rs[j]);
        OrdersForAppend(rs[..j], rs[j], Users());
        AllBackMore(rs[..j], [rs[j]]);
        AlongJoin(old(Book()), Giving(rs[..j], e), EntriesFor(rs[j], e));
        GiveNext(rs, j, e);
        IsShaped();
      }
      assert rs[..|rs|] == rs;
    }

    /** The reaction reached its trader and no other. */
    twostate lemma Reached(rs: seq<ReactionPlan>, new j: nat, new e: string, new i: nat)
      requires old(TradersOk()) && TradersOk() && j < |rs| && i < |traders| && rs[j].userId == traders[i].me.userId
      requires old(Given(rs, j, e)) && old(Idle(rs, j))
      requires forall a, b | 0 <= a < b < |rs| :: rs[a].userId != rs[b].userId
      requires forall k | 0 <= k < |traders| && k != i :: unchanged(traders[k])
      requires traderEvent == if rs[j].activated then old(traderEvent)[rs[j].userId := e]
                 else old(traderEvent) - {rs[j].userId}
      requires traders[i].plan == Some(rs[j]) && traders[i].consumed == {}
      ensures Given(rs, j + 1, e) && Idle(rs, j + 1)
    {
      hide EventReactiveTrader.Valid, EventReactiveTrader.Remaining, EventReactiveTrader.Orders;
      assert forall k | 0 <= k < |rs| && k != j :: rs[k].userId != rs[j].userId;
      assert forall k | 0 <= k < |traders| && k != i :: traders[k].me.userId != traders[i].me.userId;
    }

    lemma IdleAt(rs: seq<ReactionPlan>, j: nat, i: nat)
      requires TradersOk() && j < |rs| && Idle(rs, j) && i < |traders| && rs[j].userId == traders[i].me.userId
      ensures traders[i].Remaining() == 0 && rs[j].symbol == traders[i].me.symbol
    {
      hide EventReactiveTrader.Valid, EventReactiveTrader.Remaining, EventReactiveTrader.Orders;
    }

    lemma ReachedNobody(rs: seq<ReactionPlan>, j: nat, e: string)
      requires TradersOk() && j < |rs| && Given(rs, j, e) && Idle(rs, j) && TraderOf(rs[j].userId) == None
      ensures Given(rs, j + 1, e) && Idle(rs, j + 1)
    {
      hide EventReactiveTrader.Valid, EventReactiveTrader.Remaining, EventReactiveTrader.Orders;
    }

    /** The j-th reaction reaches its trader, if there is one. */
    method GiveNext(rs: seq<ReactionPlan>, j: nat, e: string)
      requires Valid() && e in runs && !runs[e].completed && j < |rs| && rs[j].Valid() && Idle(rs, j) && Given(rs, j, e)
      requires forall j, k | 0 <= j < k < |rs| :: rs[j].userId != rs[k].userId
      modifies this`traderEvent, this`dropped, this`runs, this`planned, this`activatedTraders, this`prompt, traders
      ensures Valid() && e in runs && !runs[e].completed && runs.Keys == old(runs.Keys)
      ensures Idle(rs, j + 1) && Given(rs, j + 1, e)
      ensures Along(old(Book()), EntriesFor(rs[j], e)) == Some(Book()) && prompt == (old(prompt) && AllBack([rs[j]]))
      ensures Desks() == Handing(old(Desks()), rs[j])
      ensures dropped == old(dropped)
      ensures planned == old(planned) + if rs[j].userId in Users() then rs[j].OrderCount() else 0
      ensures forall i | 0 <= i < |traders| && rs[j].userId != traders[i].me.userId :: unchanged(traders[i])
    {
      hide Lags, Valid, EventReactiveTrader.Valid, EventReactiveTrader.Remaining, EventReactiveTrader.Orders,
           SlotsTo, ReactionPlan.Valid, Take, Vacate, AllBack, Along, DesksTo, Given, Idle;
      IsShaped();
      var found := Find(rs[j].userId);
      if found.Some? {
        IdleAt(rs, j, found.value);
        Different(found.value);
        Only(found.value);
        BackOne(rs[j]);
        GivePlan(found.value, rs[j], e);
        DeskMoved(found.value);
        IsShaped();
        Reached(rs, j, e, found.value);
      } else {
        BackOne(rs[j]);
        ReachedNobody(rs, j, e);
        AlongNone(Book());
      }
    }

    /** Only trader i's desk has changed. */
    twostate lemma DeskMoved(i: nat)
      requires i < |traders| && forall k | 0 <= k < |traders| && k != i :: unchanged(traders[k])
      ensures Desks() == old(Desks())[i := Desk(traders[i].plan, traders[i].consumed)]
    {
    }

    /** A reaction replaces what is on its trader's desk. */
    ghost function Handing(d: seq<Desk>, r: ReactionPlan): (d': seq<Desk>)
      ensures |d'| == |d|
    {
      match TraderOf(r.userId)
      case None => d
      case Some(i) => if i < |d| then d[i := Desk(Some(r), {})] else d
    }

    ghost function HandingAll(d: seq<Desk>, rs: seq<ReactionPlan>): (d': seq<Desk>)
      ensures |d'| == |d|
    {
      if rs == [] then d else Handing(HandingAll(d, rs[..|rs| - 1]), rs[|rs| - 1])
    }

    lemma HandingMore(d: seq<Desk>, rs: seq<ReactionPlan>, more: seq<ReactionPlan>)
      ensures HandingAll(d, rs + more) == HandingAll(HandingAll(d, rs), more) && HandingAll(d, []) == d
      decreases |more|
    {
      hide Lags, Handing;
      if more == [] {
        assert rs + more == rs;
      } else {
        var n := |more| - 1;
        assert (rs + more)[..|rs + more| - 1] == rs + more[..n];
        HandingMore(d, rs, more[..n]);
      }
    }

    lemma HandingOne(d: seq<Desk>, r: ReactionPlan)
      ensures HandingAll(d, [r]) == Handing(d, r) && HandingAll(d, []) == d
    {
      assert [r][..0] == [];
    }

    lemma BackOne(r: ReactionPlan)
      requires TradersOk() && |traders| == |unreported|
      ensures AllBack([r]) <==> match TraderOf(r.userId) case None => true case Some(i) => unreported[i] == 0
    {
      hide Lags, EventReactiveTrader.Valid;
      assert [r][0] == r;
      if TraderOf(r.userId).Some? {
        var i := TraderOf(r.userId).value;
        Only(i);
        assert [r][0].userId == traders[i].me.userId;
      }
    }

    /** No other trader has this user id. */
    lemma Only(i: nat)
      requires TradersOk() && i < |traders|
      ensures TraderOf(traders[i].me.userId) == Some(i)
      ensures forall k | 0 <= k < |traders| && traders[k].me.userId == traders[i].me.userId :: k == i
    {
      hide Lags, EventReactiveTrader.Valid;
    }

    lemma IsShaped()
      requires Valid()
      ensures TradersOk() && |traders| == |unreported|
    {
    }

    /** Exactly the traders with nothing left to hand out stand for a new event. */
    method Candidates() returns (cs: seq<Candidate>)
      requires TradersOk()
      ensures UniqueUsers(cs)
      ensures forall c :: c in cs <==>
                exists i :: 0 <= i < |traders| && traders[i].me == c && traders[i].Remaining() == 0
    {
      hide Lags, EventReactiveTrader.Remaining, EventReactiveTrader.Valid, EventReactiveTrader.Orders;
      cs := [];
      for i := 0 to |traders|
        invariant UniqueUsers(cs)
        invariant forall c :: c in cs <==> exists k :: 0 <= k < i && traders[k].me == c && traders[k].Remaining() == 0
      {
        if traders[i].Remaining() == 0 {
          forall j | 0 <= j < |cs|
            ensures cs[j].userId != traders[i].me.userId
          {
            assert cs[j] in cs;
          }
          cs := cs + [traders[i].me];
        }
      }
    }

    /** A trader that is this candidate has no orders left in this ledger. */
    ghost predicate Stands(l: Ledger, c: Candidate) {
      exists i :: 0 <= i < |traders| && i < |l.slots| && traders[i].me == c && l.slots[i].remaining == 0
    }

    /** The candidates are exactly the traders without orders left, in some order. */
    ghost predicate IdleIn(l: Ledger, cs: seq<Candidate>) {
      UniqueUsers(cs) && forall c :: c in cs <==> Stands(l, c)
    }

    /** What the event gives to the traders that are idle in this ledger. */
    ghost predicate PlansFor(l: Ledger, event: NewsEvent, rs: seq<ReactionPlan>) {
      && tickMs >= 1
      && exists cs ::
           IdleIn(l, cs) && Resolve(planner.dice, tickMs, event, cs).Plan?
             && rs == Resolve(planner.dice, tickMs, event, cs).value.reactions
    }

    lemma IdleNow(cs: seq<Candidate>)
      requires TradersOk() && |traders| == |unreported| && UniqueUsers(cs)
      requires forall c :: c in cs <==>
                 exists i :: 0 <= i < |traders| && traders[i].me == c && traders[i].Remaining() == 0
      ensures IdleIn(Book(), cs)
    {
      hide Lags, EventReactiveTrader.Valid, EventReactiveTrader.Remaining, EventReactiveTrader.Orders, UniqueUsers;
      forall i | 0 <= i < |traders|
        ensures i < |Book().slots| && Book().slots[i].remaining == traders[i].Remaining()
      {
        SlotFields(i);
      }
      forall c
        ensures c in cs <==> Stands(Book(), c)
      {
        if c in cs {
          var i :| 0 <= i < |traders| && traders[i].me == c && traders[i].Remaining() == 0;
          assert Book().slots[i].remaining == 0;
        }
      }
    }

    /** A plan for idle candidates names idle traders only. */
    lemma PlannedAreIdle(event: NewsEvent, cs: seq<Candidate>)
      requires TradersOk() && tickMs >= 1 && UniqueUsers(cs)
      requires forall c | c in cs :: exists i :: 0 <= i < |traders| && traders[i].me == c && traders[i].Remaining() == 0
      ensures Resolve(planner.dice, tickMs, event, cs).Plan?
      ensures Idle(Resolve(planner.dice, tickMs, event, cs).value.reactions, 0)
    {
      hide Lags, EventReactiveTrader.Remaining, EventReactiveTrader.Valid, EventReactiveTrader.Orders, Resolve;
      ReactionsAreCandidates(planner.dice, tickMs, event, cs);
      var rs := Resolve(planner.dice, tickMs, event, cs).value.reactions;
      forall k, i | 0 <= k < |rs| && 0 <= i < |traders| && rs[k].userId == traders[i].me.userId
        ensures traders[i].Remaining() == 0 && rs[k].symbol == traders[i].me.symbol
      {
        assert rs[k] in rs;
        var c :| c in cs && c.userId == rs[k].userId && c.symbol == rs[k].symbol;
        var m :| 0 <= m < |traders| && traders[m].me == c && traders[m].Remaining() == 0;
      }
    }

    /**
     An event is planned for the idle traders, once: a trader that still has orders
     keeps its plan, and nothing is dropped.
     */
    method ApplyEvent(event: NewsEvent) returns (r: Planned<EventPlan>)
      requires Valid() && event.startsAfterMs >= 0
      modifies this`received, this`deduplicated, this`eventMaxLag, planner
      modifies this`traderEvent, this`dropped, this`runs, this`planned, this`activatedTraders, this`prompt, traders
      ensures Valid() && dropped == old(dropped)
      ensures r.Plan? <==> event.eventId !in old(planner.processed)
      ensures r == Duplicate <==>
                event.eventId in old(planner.processed) && old(planner.processed)[event.eventId] == event
      ensures r == PayloadConflict <==>
                event.eventId in old(planner.processed) && old(planner.processed)[event.eventId] != event
      ensures planner.processed == if r.Plan? then old(planner.processed)[event.eventId := event]
                else old(planner.processed)
      ensures r.Plan? ==>
        var rs := r.value.reactions;
        && PlansFor(old(Book()), event, rs) && Along(old(Book()), Planning(rs, event.eventId)) == Some(Book())
        && prompt == (old(prompt) && AllBack(rs)) && Given(rs, |rs|, event.eventId)
           && Desks() == HandingAll(old(Desks()), rs)
        && received == old(received) + 1 && planned == old(planned) + OrdersFor(rs, Users())
      ensures !r.Plan? ==> Book() == old(Book()) && received == old(received) && Desks() == old(Desks())
      ensures deduplicated == if r == Duplicate then old(deduplicated) + 1 else old(deduplicated)
      ensures forall i | 0 <= i < |traders| && old(traders[i].Remaining()) > 0 ::
                traders[i].plan == old(traders[i].plan) && traders[i].consumed == old(traders[i].consumed)
    {
      hide Sum, LedgerOk, EventReactiveTrader.Valid, EventReactiveTrader.Remaining, EventReactiveTrader.Orders,
           ReactionPlan.Valid, Resolve, Fair, EventPlan.Valid, UniqueUsers, SlotsTo, OrdersFor, Along, AllBack,
           IdleIn, HandingAll, Lags, Given, Idle, Desks, Planning;
      var cs := Candidates();
      IdleNow(cs);
      PlannedAreIdle(event, cs);
      CandidatesAreValid(cs);
      PlanIsValid(planner.dice, tickMs, event, cs);
      PlannedLag(event, cs);
      LagsMore(planner.processed, event);
      r := planner.PlanOnce(event, cs);
      if r == Duplicate {
        NoteDuplicate();
      } else if r.Plan? {
        TakeOn(r.value, event.eventId);
      }
    }

    /** A fresh plan gets its run and reaches its traders. */
    method TakeOn(plan: EventPlan, e: string)
      requires TradersOk() && |traders| == |unreported| && LedgerOk(Book()) && e !in runs && e in planner.processed
      requires tickMs >= 1 && planner.tickMs == tickMs && Fair(planner.dice) && source.Valid()
      requires runs.Keys == eventMaxLag.Keys && planner.processed.Keys == runs.Keys + {e}
      requires eventMaxLag[e := plan.maxLagMs] == Lags(planner.processed)
      requires forall e | e in liveEvents :: liveEvents[e].eventId == e
      requires plan.Valid() && Idle(plan.reactions, 0)
      requires forall k | 0 <= k < |plan.reactions| :: plan.reactions[k].Valid()
      modifies this`received, this`eventMaxLag
      modifies this`traderEvent, this`dropped, this`runs, this`planned, this`activatedTraders, this`prompt, traders
      ensures Valid() && dropped == old(dropped) && received == old(received) + 1
      ensures Along(old(Book()), Planning(plan.reactions, e)) == Some(Book())
      ensures prompt == (old(prompt) && AllBack(plan.reactions))
      ensures Desks() == HandingAll(old(Desks()), plan.reactions)
      ensures planned == old(planned) + OrdersFor(plan.reactions, Users()) && Given(plan.reactions, |plan.reactions|, e)
      ensures forall i | 0 <= i < |traders| && old(traders[i].Remaining()) > 0 ::
                traders[i].plan == old(traders[i].plan) && traders[i].consumed == old(traders[i].consumed)
    {
      hide Sum, LedgerOk, EventReactiveTrader.Valid, EventReactiveTrader.Remaining, EventReactiveTrader.Orders,
           ReactionPlan.Valid, Fair, EventPlan.Valid, SlotsTo, OrdersFor, Along, AllBack, Giving, Desks, HandingAll,
           Lags;
      AlongOne(Book(), Started(e));
      AlongJoin(Book(), [Started(e)], Giving(plan.reactions, e));
      Begin(e, plan.maxLagMs);
      PlanUsers(plan);
      AssignPlans(plan.reactions, e);
    }

    lemma PlannedLag(event: NewsEvent, cs: seq<Candidate>)
      requires tickMs >= 1
      ensures var p := Resolve(planner.dice, tickMs, event, cs); p.Plan? ==>
                p.value.maxLagMs == PresetOf(event.preset).maxLagMs
    {
    }

    method NoteDuplicate()
      requires Valid()
      modifies this`deduplicated
      ensures Valid() && Book() == old(Book()) && deduplicated == old(deduplicated) + 1
    {
      hide Lags, Sum, LedgerOk, EventReactiveTrader.Valid, EventReactiveTrader.Remaining,
           EventReactiveTrader.Orders, Fair;
      deduplicated := deduplicated + 1;
      SameSlots();
    }

    /** A run for an event that has just been planned. */
    method Begin(e: string, maxLagMs: int)
      requires TradersOk() && |traders| == |unreported| && LedgerOk(Book()) && e !in runs && e in planner.processed
      requires tickMs >= 1 && planner.tickMs == tickMs && Fair(planner.dice) && source.Valid()
      requires runs.Keys == eventMaxLag.Keys && planner.processed.Keys == runs.Keys + {e}
      requires eventMaxLag[e := maxLagMs] == Lags(planner.processed)
      requires forall e | e in liveEvents :: liveEvents[e].eventId == e
      modifies this`eventMaxLag, this`runs, this`received
      ensures received == old(received) + 1
      ensures Valid() && runs == old(runs)[e := EventRun(0, 0, 0, 0, false)] && Book() == Start(old(Book()), e)
    {
      hide Lags, Sum, LedgerOk, EventReactiveTrader.Valid, EventReactiveTrader.Remaining,
           EventReactiveTrader.Orders, Fair;
      StartOk(Book(), e);
      received := received + 1;
      eventMaxLag := eventMaxLag[e := maxLagMs];
      runs := runs[e := EventRun(0, 0, 0, 0, false)];
      SameSlots();
    }

    lemma PlanUsers(plan: EventPlan)
      requires plan.Valid()
      ensures forall j, k | 0 <= j < k < |plan.reactions| :: plan.reactions[j].userId != plan.reactions[k].userId
    {
    }

    lemma CandidatesAreValid(cs: seq<Candidate>)
      requires TradersOk()
      requires forall c | c in cs :: exists i :: 0 <= i < |traders| && traders[i].me == c && traders[i].Remaining() == 0
      ensures forall c | c in cs :: c.Valid()
    {
    }

    // ----- Where events come from -----

    /**
     Every planned event is the live one of its id, or a fixture; every live one has been planned,
     `pending` apart.
     */
    ghost predicate SourcedBut(pending: set<string>)
      reads this`liveEvents, planner
    {
      && (forall e | e in liveEvents ::
         liveEvents[e].eventId == e && liveEvents[e].startsAfterMs >= 0 && (e in planner.processed || e in pending))
      && (forall e | e in planner.processed :: (e in liveEvents && planner.processed[e] == liveEvents[e]) || Fixture(e))
      && (forall k | 0 <= k < |source.events| :: source.events[k].startsAfterMs >= 0)
    }

    ghost predicate Sourced()
      reads this`liveEvents, planner
    {
      SourcedBut({})
    }

    ghost predicate Fixture(e: string) {
      exists k :: 0 <= k < |source.events| && source.events[k].eventId == e
    }

    /**
     A polled event. Delivered again after a lost acknowledgement, at whatever later
     tick, it is recognised: never planned twice, never a conflict, unless its id
     collides with a fixture's.
     */
    method ApplyMarketEvent(id: string, symbol: string, direction: Option<DirectionHint>, impact: Option<Impact>,
                            headline: string, origin: string, tick: int)
      returns (r: Applied, ghost given: seq<ReactionPlan>)
      requires Valid() && Sourced()
      modifies this`received, this`deduplicated, this`eventMaxLag, planner, this`liveEvents
      modifies this`traderEvent, this`dropped, this`runs, this`planned, this`activatedTraders, this`prompt, traders
      ensures Valid() && Sourced() && dropped == old(dropped)
      ensures r == BadInput <==> tick < 1 || direction == None || impact == None
      ensures r == BadInput ==>
                Book() == old(Book()) && planner.processed == old(planner.processed) && liveEvents == old(liveEvents)
      ensures r != Fresh ==> given == [] && prompt == old(prompt)
      ensures deduplicated == old(deduplicated) + if r == Again then 1 else 0
      ensures Desks() == HandingAll(old(Desks()), given)
      ensures r == Fresh <==> r != BadInput && id !in old(planner.processed)
      ensures r == Fresh ==> received == old(received) + 1 && id in planner.processed && id in liveEvents
      ensures r == Again || r == Conflict ==> Book() == old(Book()) && planner.processed == old(planner.processed)
      ensures r != BadInput ==>
        var delivered := LiveEvent(id, symbol, direction.value, impact.value, headline, origin, tick * tickMs);
        && r == Recognise(old(planner.processed), old(liveEvents), delivered, impact.value)
        && planner.processed == ProcessedAfter(old(planner.processed), delivered, r)
        && liveEvents == LiveAfter(old(liveEvents), delivered)
        && (r == Fresh ==>
              PlansFor(old(Book()), delivered, given) && Along(old(Book()), Planning(given, id)) == Some(Book())
              && prompt == (old(prompt) && AllBack(given)))
      ensures r != BadInput && !Fixture(id) && id in old(liveEvents)
                && SamePayload(old(liveEvents[id]), symbol, direction.value, impact.value, headline, origin) ==>
        r == Again
    {
      hide Lags, LedgerOk, EventReactiveTrader.Valid, EventReactiveTrader.Remaining, EventReactiveTrader.Orders,
           SlotsTo, SlotOf, Fair, OrdersFor, Shaped, Fixture, Along, AllBack, PlansFor, Desks, HandingAll;
      HandingMore(Desks(), [], []);
      TickPositive();
      if tick < 1 || direction == None || impact == None {
        return BadInput, [];
      }
      if id in liveEvents {
        if !SamePayload(liveEvents[id], symbol, direction.value, impact.value, headline, origin) {
          return Conflict, [];
        }
        r, given := ApplyLive(liveEvents[id]);
        return;
      }
      var event := LiveEvent(id, symbol, direction.value, impact.value, headline, origin, tick * tickMs);
      assert event.startsAfterMs >= 0 by {
        Positive(tick, tickMs);
      }
      Remember(event);
      r, given := ApplyLive(event);
    }

    lemma TickPositive()
      requires Valid()
      ensures tickMs >= 1
    {
    }

    lemma Positive(a: int, b: int)
      requires a >= 0 && b >= 0
      ensures a * b >= 0
    {
    }

    /** A live event is applied; known ids are recognised by their whole payload. */
    method ApplyLive(event: NewsEvent) returns (r: Applied, ghost given: seq<ReactionPlan>)
      requires Valid() && SourcedBut({event.eventId}) && event.eventId in liveEvents
      requires liveEvents[event.eventId] == event
      modifies this`received, this`deduplicated, this`eventMaxLag, planner
      modifies this`traderEvent, this`dropped, this`runs, this`planned, this`activatedTraders, this`prompt, traders
      ensures Valid() && Sourced() && dropped == old(dropped)
      ensures r == Fresh <==> event.eventId !in old(planner.processed)
      ensures r == Fresh ==> received == old(received) + 1 && event.eventId in planner.processed
      ensures r == Again || r == Conflict ==> Book() == old(Book()) && planner.processed == old(planner.processed)
      ensures r == Judge(old(planner.processed), event)
      ensures deduplicated == old(deduplicated) + if r == Again then 1 else 0
      ensures planner.processed == ProcessedAfter(old(planner.processed), event, r)
      ensures r == Conflict ==> Fixture(event.eventId)
      ensures r != BadInput
      ensures r != Fresh ==> given == [] && prompt == old(prompt)
      ensures r == Fresh ==>
        && PlansFor(old(Book()), event, given) && Along(old(Book()), Planning(given, event.eventId)) == Some(Book())
        && prompt == (old(prompt) && AllBack(given))
      ensures Desks() == HandingAll(old(Desks()), given)
    {
      hide Lags, LedgerOk, EventReactiveTrader.Valid, EventReactiveTrader.Remaining, EventReactiveTrader.Orders,
           SlotsTo, SlotOf, Fair, OrdersFor, Shaped, Along, AllBack, PlansFor, Desks, HandingAll;
      HandingMore(Desks(), [], []);
      var planned := ApplyEvent(event);
      r, given := Outcome(planned), if planned.Plan? then planned.value.reactions else [];
    }

    method Remember(event: NewsEvent)
      requires Valid()
      modifies this`liveEvents
      ensures Valid() && Book() == old(Book()) && liveEvents == old(liveEvents)[event.eventId := event]
    {
      hide Lags, LedgerOk, EventReactiveTrader.Valid, EventReactiveTrader.Remaining, EventReactiveTrader.Orders, Fair;
      liveEvents := liveEvents[event.eventId := event];
      SameSlots();
    }

    // ----- The tick -----

    /** Nothing is left to complete. */
    ghost predicate Swept(done: set<string>)
      requires TradersOk() && |traders| == |unreported|
      reads this, traders
    {
      forall e | e in done && e in runs :: Settled(Book(), e)
    }

    /** Every run whose orders have all left their plans is marked complete. */
    method CompleteAll() returns (ghost steps: seq<Entry>)
      requires Valid()
      modifies this`runs
      ensures Valid() && Swept(runs.Keys) && runs.Keys == old(runs.Keys)
      ensures Along(old(Book()), steps) == Some(Book()) && forall s | s in steps :: s.Marked?
    {
      hide Lags, LedgerOk, EventReactiveTrader.Valid, EventReactiveTrader.Remaining, EventReactiveTrader.Orders,
           SlotsTo, SlotOf, Fair, Sum, Complete, Settled, TradersOk, Along;
      var todo := runs.Keys;
      steps := [];
      AlongNone(Book());
      while todo != {}
        invariant Valid() && runs.Keys == old(runs.Keys) && todo <= runs.Keys && Swept(runs.Keys - todo)
        invariant Along(old(Book()), steps) == Some(Book()) && forall s | s in steps :: s.Marked?
        decreases |todo|
      {
        var e :| e in todo;
        todo := todo - {e};
        CompleteOk(Book(), e);
        CompleteSettles(Book(), e);
        AlongMore(old(Book()), steps, Marked(e));
        steps := steps + [Marked(e)];
        MaybeComplete(e);
      }
    }

    /** What one fixture puts into the ledger; `None` is a duplicate. */
    ghost function EntriesOf(a: Option<seq<ReactionPlan>>, e: string): seq<Entry> {
      match a
      case None => []
      case Some(rs) => Planning(rs, e)
    }

    static ghost function ReactionsOf(a: Option<seq<ReactionPlan>>): seq<ReactionPlan> {
      match a
      case None => []
      case Some(rs) => rs
    }

    /** What these fixtures put into the ledger. */
    ghost function Absorbing(due: seq<NewsEvent>, applied: seq<Option<seq<ReactionPlan>>>): seq<Entry>
      requires |applied| == |due|
    {
      if due == [] then []
      else
        var n := |due| - 1;
        Absorbing(due[..n], applied[..n]) + EntriesOf(applied[n], due[n].eventId)
    }

    static ghost function Reactions(applied: seq<Option<seq<ReactionPlan>>>): seq<ReactionPlan> {
      if applied == [] then []
      else Reactions(applied[..|applied| - 1]) + ReactionsOf(applied[|applied| - 1])
    }

    /** A fixture met this ledger and these known events: it was planned for the traders then idle, or recognised. */
    ghost predicate Takes(before: Option<Ledger>, known: Events, event: NewsEvent, a: Option<seq<ReactionPlan>>) {
      match Judge(known, event)
      case Fresh => a.Some? && before.Some? && PlansFor(before.value, event, a.value)
      case Again => a.None?
      case _ => false
    }

    /** The fixtures were taken one after the other. */
    ghost predicate Took(l: Ledger, processed: Events, due: seq<NewsEvent>, applied: seq<Option<seq<ReactionPlan>>>)
      requires |applied| == |due|
    {
      forall k {:trigger applied[k]} | 0 <= k < |due| ::
        Takes(Along(l, Absorbing(due[..k], applied[..k])), Absorbed(processed, due[..k]), due[k], applied[k])
    }

    lemma TookMore(l: Ledger, processed: Events, due: seq<NewsEvent>, applied: seq<Option<seq<ReactionPlan>>>,
                   event: NewsEvent, a: Option<seq<ReactionPlan>>)
      requires |applied| == |due| && Took(l, processed, due, applied)
      requires Takes(Along(l, Absorbing(due, applied)), Absorbed(processed, due), event, a)
      ensures Took(l, processed, due + [event], applied + [a])
    {
      hide Lags, Along, Absorbing, Absorbed, Takes;
      var due', applied' := due + [event], applied + [a];
      forall k {:trigger applied'[k]} | 0 <= k < |due'|
        ensures Takes(Along(l, Absorbing(due'[..k], applied'[..k])), Absorbed(processed, due'[..k]), due'[k],
                  applied'[k])
      {
        if k < |due| {
          assert due'[..k] == due[..k] && applied'[..k] == applied[..k] && due'[k] == due[k]
            && applied'[k] == applied[k];
        } else {
          assert due'[..k] == due && applied'[..k] == applied;
        }
      }
    }

    lemma AbsorbingMore(due: seq<NewsEvent>, applied: seq<Option<seq<ReactionPlan>>>, event: NewsEvent,
                        a: Option<seq<ReactionPlan>>, processed: Events)
      requires |applied| == |due|
      ensures Absorbing(due + [event], applied + [a]) == Absorbing(due, applied) + EntriesOf(a, event.eventId)
      ensures Reactions(applied + [a]) == Reactions(applied) + ReactionsOf(a)
      ensures Absorbed(processed, due + [event]) ==
                ProcessedAfter(Absorbed(processed, due), event, Judge(Absorbed(processed, due), event))
    {
      assert (due + [event])[..|due|] == due && (applied + [a])[..|due|] == applied;
    }

    /** One more fixture of `due` has been taken. */
    lemma TakenOn(l: Ledger, processed: Events, due: seq<NewsEvent>, i: nat, applied: seq<Option<seq<ReactionPlan>>>,
                  before: Ledger, known: Events, a: Option<seq<ReactionPlan>>, after: Ledger)
      requires |applied| == i < |due| && Took(l, processed, due[..i], applied) && known == Absorbed(processed, due[..i])
      requires Along(l, Absorbing(due[..i], applied)) == Some(before) && Takes(Some(before), known, due[i], a)
      requires Along(before, EntriesOf(a, due[i].eventId)) == Some(after)
      ensures Took(l, processed, due[..i + 1], applied + [a])
      ensures Absorbed(processed, due[..i + 1]) == ProcessedAfter(known, due[i], Judge(known, due[i]))
      ensures Along(l, Absorbing(due[..i + 1], applied + [a])) == Some(after)
      ensures Reactions(applied + [a]) == Reactions(applied) + ReactionsOf(a)
    {
      hide Lags, Along, Absorbing, Absorbed, Reactions, Took, Takes, EntriesOf, Judge;
      OneMoreTaken(due, i);
      TookMore(l, processed, due[..i], applied, due[i], a);
      AbsorbingMore(due[..i], applied, due[i], a, processed);
      AlongJoin(l, Absorbing(due[..i], applied), EntriesOf(a, due[i].eventId));
    }

    lemma TookAll(l: Ledger, processed: Events, due: seq<NewsEvent>, applied: seq<Option<seq<ReactionPlan>>>)
      requires |applied| == |due| && Took(l, processed, due, applied)
      ensures NoConflict(processed, due)
    {
      hide Lags, Along, Absorbing, Absorbed, PlansFor;
      forall k | 0 <= k < |due|
        ensures Judge(Absorbed(processed, due[..k]), due[k]) != Conflict
      {
        assert applied[k] == applied[k];
      }
    }

    /**
     The fixtures that have started are applied in order until one conflicts. All are
     accepted exactly when they agree with each other and with what the planner knows.
     */
    method AbsorbFixtures(due: seq<NewsEvent>) returns (ok: bool, ghost applied: seq<Option<seq<ReactionPlan>>>)
      requires Valid() && Sourced() && forall e | e in due :: e.startsAfterMs >= 0 && Fixture(e.eventId)
      modifies this`received, this`deduplicated, this`eventMaxLag, planner
      modifies this`traderEvent, this`dropped, this`runs, this`planned, this`activatedTraders, this`prompt, traders
      ensures Valid() && Sourced() && dropped == old(dropped)
      ensures ok <==> Agreeing(old(planner.processed), due)
      ensures |applied| <= |due| && (ok <==> |applied| == |due|)
      ensures !ok ==> Judge(planner.processed, due[|applied|]) == Conflict
      ensures deduplicated == old(deduplicated) + Repeats(old(planner.processed), due[..|applied|])
      ensures planner.processed == Absorbed(old(planner.processed), due[..|applied|])
      ensures Took(old(Book()), old(planner.processed), due[..|applied|], applied)
      ensures Along(old(Book()), Absorbing(due[..|applied|], applied)) == Some(Book())
      ensures prompt == (old(prompt) && AllBack(Reactions(applied)))
      ensures Desks() == HandingAll(old(Desks()), Reactions(applied))
    {
      hide Lags, Desks, HandingAll, Valid, Sourced, Along, AllBack, Absorbing, Absorbed, Reactions, ReactionsOf,
           EntriesOf, Took, Takes, Agreeing, NoConflict, Fixture, Judge;
      IsShaped();
      AlongNone(Book());
      AllBackMore([], []);
      HandingMore(Desks(), [], []);
      ok, applied := true, [];
      NoneYet(Book(), planner.processed);
      assert due[..0] == [] && Repeats(planner.processed, []) == 0;
      for i := 0 to |due|
        invariant Valid() && Sourced() && dropped == old(dropped) && TradersOk() && |traders| == |unreported|
        invariant |applied| == i && planner.processed == Absorbed(old(planner.processed), due[..i])
        invariant deduplicated == old(deduplicated) + Repeats(old(planner.processed), due[..i])
        invariant Took(old(Book()), old(planner.processed), due[..i], applied)
        invariant Along(old(Book()), Absorbing(due[..i], applied)) == Some(Book())
        invariant prompt == (old(prompt) && AllBack(Reactions(applied)))
        invariant Desks() == HandingAll(old(Desks()), Reactions(applied))
      {
        ghost var before, known, desks := Book(), planner.processed, Desks();
        RepeatsMore(old(planner.processed), due, i);
        var r, given := ApplyFixture(due[i]);
        IsShaped();
        if r == Conflict {
          ok := false;
          ConflictAt(old(planner.processed), due, i);
          AcceptedIffAgreeing(old(planner.processed), due);
          return;
        }
        ghost var a: Option<seq<ReactionPlan>> := if r == Fresh then Some(given) else None;
        TakenOn(old(Book()), old(planner.processed), due, i, applied, before, known, a, Book());
        AllBackMore(Reactions(applied), ReactionsOf(a));
        HandingMore(old(Desks()), Reactions(applied), ReactionsOf(a));
        FreshOnly(a, given);
        HandingMore(desks, [], []);
        applied := applied + [a];
      }
      assert due[..|due|] == due;
      TookAll(old(Book()), old(planner.processed), due, applied);
      AcceptedIffAgreeing(old(planner.processed), due);
    }

    lemma NoneYet(l: Ledger, processed: Events)
      ensures Took(l, processed, [], []) && Absorbing([], []) == [] && Absorbed(processed, []) == processed
      ensures Reactions([]) == []
    {
    }

    static lemma FreshOnly(a: Option<seq<ReactionPlan>>, given: seq<ReactionPlan>)
      requires a == Some(given) || (a == None && given == [])
      ensures ReactionsOf(a) == given
    {
    }

    static lemma ConflictAt(processed: Events, due: seq<NewsEvent>, i: nat)
      requires i < |due| && Judge(Absorbed(processed, due[..i]), due[i]) == Conflict
      ensures !NoConflict(processed, due)
    {
    }

    /**
     Due fixtures are applied in order, late orders dropped, finished runs completed. A
     conflicting fixture ends the tick: it and the due ones behind it are never applied,
     since the source has moved past them, and nothing is dropped or completed.
     */
    method BeforeTick(elapsedMs: int, tick: int)
      returns (ok: bool, ghost applied: seq<Option<seq<ReactionPlan>>>, ghost swept: seq<Entry>)
      requires Valid() && Sourced()
      modifies this`received, this`deduplicated, this`eventMaxLag, planner, source
      modifies this`traderEvent, this`dropped, this`runs, this`planned, this`activatedTraders, this`prompt, traders
      ensures Valid() && Sourced() && old(source.nextIndex) <= source.nextIndex <= |source.events|
      ensures forall k | old(source.nextIndex) <= k < source.nextIndex :: source.events[k].startsAfterMs <= elapsedMs
      ensures forall k | source.nextIndex <= k < |source.events| :: source.events[k].startsAfterMs > elapsedMs
      ensures var due := source.events[old(source.nextIndex)..source.nextIndex];
              && (ok <==> Agreeing(old(planner.processed), due))
              && |applied| <= |due| && (ok <==> |applied| == |due|)
              && (!ok ==> Judge(planner.processed, due[|applied|]) == Conflict)
              && (!ok ==> swept == [] && dropped == old(dropped))
              && planner.processed == Absorbed(old(planner.processed), due[..|applied|])
              && deduplicated == old(deduplicated) + Repeats(old(planner.processed), due[..|applied|])
              && Took(old(Book()), old(planner.processed), due[..|applied|], applied)
              && Along(old(Book()), Absorbing(due[..|applied|], applied) + swept) == Some(Book())
      ensures prompt == (old(prompt) && AllBack(Reactions(applied)))
      ensures forall s | s in swept :: s.Lapsed? || s.Marked?
      ensures var due := source.events[old(source.nextIndex)..source.nextIndex];
              var l := Along(old(Book()), Absorbing(due[..|applied|], applied));
              var d := HandingAll(old(Desks()), Reactions(applied));
              if !ok then Desks() == d
              else
                && l.Some?
                && Lapsing(d, l.value, elapsedMs, tick, tickMs, liveEvents.Keys, Lags(planner.processed), Desks())
      ensures ok ==> Swept(runs.Keys) && forall i | 0 <= i < |traders| ::
                traders[i].Valid() && LateNow(i, traders[i].consumed, elapsedMs, tick) == {}
    {
      hide LedgerOk, Shaped, EventReactiveTrader.Valid, EventReactiveTrader.Remaining, EventReactiveTrader.Orders,
           SlotsTo, SlotOf, LateUnder, Repeats;
      hide Lags, Sourced, Along, AllBack, Absorbing, Absorbed, Reactions, Took, PlansFor, Agreeing, Fixture, Judge,
           Swept, Desks, HandingAll, Lapsing;
      var due := TakeDue(elapsedMs);
      IsShaped();
      ok, applied := AbsorbFixtures(due);
      swept := [];
      ghost var taken := Absorbing(due[..|applied|], applied);
      assert taken + [] == taken;
      if !ok {
        return;
      }
      LagsNow();
      ghost var lapsed := DropLateOrders(elapsedMs, tick);
      ghost var marked := CompleteAll();
      AlongJoin(old(Book()), taken, lapsed);
      AlongJoin(old(Book()), taken + lapsed, marked);
      swept := lapsed + marked;
      assert taken + lapsed + marked == taken + swept;
    }

    lemma LagsNow()
      requires Valid()
      ensures eventMaxLag == Lags(planner.processed)
    {
    }

    method TakeDue(elapsedMs: int) returns (due: seq<NewsEvent>)
      requires Valid() && Sourced()
      modifies source
      ensures Valid() && Sourced() && forall e | e in due :: e.startsAfterMs >= 0 && Fixture(e.eventId)
      ensures old(source.nextIndex) <= source.nextIndex <= |source.events|
      ensures due == source.events[old(source.nextIndex)..source.nextIndex]
      ensures forall k | old(source.nextIndex) <= k < source.nextIndex :: source.events[k].startsAfterMs <= elapsedMs
      ensures forall k | source.nextIndex <= k < |source.events| :: source.events[k].startsAfterMs > elapsedMs
    {
      hide Lags, LedgerOk, EventReactiveTrader.Valid, EventReactiveTrader.Remaining, EventReactiveTrader.Orders,
           SlotsTo, SlotOf, Fair;
      due := source.DueEvents(elapsedMs);
      forall k | old(source.nextIndex) <= k < source.nextIndex
        ensures source.events[k].startsAfterMs <= elapsedMs
      {
        assert source.events[k] == due[k - old(source.nextIndex)];
      }
    }

    method ApplyFixture(event: NewsEvent) returns (r: Applied, ghost given: seq<ReactionPlan>)
      requires Valid() && Sourced() && event.startsAfterMs >= 0 && Fixture(event.eventId)
      modifies this`received, this`deduplicated, this`eventMaxLag, planner
      modifies this`traderEvent, this`dropped, this`runs, this`planned, this`activatedTraders, this`prompt, traders
      ensures Valid() && Sourced() && dropped == old(dropped)
      ensures r == Judge(old(planner.processed), event) && r != BadInput
      ensures planner.processed == ProcessedAfter(old(planner.processed), event, r)
      ensures r != Fresh ==> Book() == old(Book())
      ensures deduplicated == old(deduplicated) + if r == Again then 1 else 0
      ensures r != Conflict ==>
        var a := if r == Fresh then Some(given) else None;
        && Takes(Some(old(Book())), old(planner.processed), event, a)
        && Along(old(Book()), EntriesOf(a, event.eventId)) == Some(Book())
        && prompt == (old(prompt) && AllBack(ReactionsOf(a)))
      ensures r == Conflict ==> prompt == old(prompt)
      ensures if r == Fresh then Desks() == HandingAll(old(Desks()), given) else given == [] && Desks() == old(Desks())
    {
      hide Lags, Desks, HandingAll, LedgerOk, EventReactiveTrader.Valid, EventReactiveTrader.Remaining,
           EventReactiveTrader.Orders, SlotsTo, SlotOf, Fair, OrdersFor, Shaped, Fixture, Along, AllBack, PlansFor;
      IsShaped();
      AlongNone(Book());
      HandingMore(Desks(), [], []);
      var planned := ApplyEvent(event);
      IsShaped();
      AllBackMore([], []);
      r, given := Outcome(planned), if planned.Plan? then planned.value.reactions else [];
    }

    twostate lemma SlotMoved(i: nat)
      requires old(TradersOk()) && i < |traders| == |unreported| && unreported == old(unreported) && traders[i].Valid()
      requires forall k | 0 <= k < |traders| && k != i :: unchanged(traders[k])
      requires traderEvent - {traders[i].me.userId} == old(traderEvent) - {traders[i].me.userId}
      ensures TradersOk()
      ensures SlotsTo(|traders|) ==
                old(SlotsTo(|traders|))[i :=
                Slot(EventOf(traders[i].me.userId), traders[i].Remaining(), unreported[i])]
    {
      hide Lags, EventReactiveTrader.Orders;
      forall k | 0 <= k < |traders| && k != i
        ensures traders[k].Valid() && SlotOf(k) == old(SlotOf(k))
      {
        assert old(traders[k].Valid());
        var u := traders[k].me.userId;
        assert u != traders[i].me.userId;
        assert EventOf(u) == SameEvent(traderEvent - {traders[i].me.userId}, u) == old(EventOf(u));
      }
      OneSlot(i);
    }

    static function SameEvent(m: map<string, string>, u: string): Option<string> {
      if u in m then Some(m[u]) else None
    }
  }
}

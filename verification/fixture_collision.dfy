/**
 A fixture whose id a polled event already used: the tick that is due to apply it
 fails, and the fixture behind it is lost for good.
 */
module FixtureCollision {
  import opened OrderTypes
  import opened ReactionPlanning
  import opened ReactiveTraders
  import opened EventMemory
  import opened LedgerRuns
  import opened Coordination
  import opened CoordinatorRuns

  const FIRST := NewsEvent("a", "S", 0, MinorNews, NoHint, "first", "fixture", 42)
  const SECOND := NewsEvent("b", "S", 1, MinorNews, NoHint, "second", "fixture", 42)

  /** An event polled under the id of the first fixture, and then a tick at which both fixtures are due. */
  function Ops(): seq<Op> {
    [Poll("a", "S", Some(NoHint), Some(Low), "polled", "inbox", 1), Tick(1, 1)]
  }

  lemma {:induction false} Sorted(events: seq<NewsEvent>)
    requires multiset(events) == multiset([FIRST, SECOND])
    requires forall i, j | 0 <= i < j < |events| :: StartsLeq(events[i], events[j])
    ensures events == [FIRST, SECOND]
  {
    assert |multiset(events)| == 2;
    assert events[0] in multiset(events) && events[1] in multiset(events);
    assert events == [events[0], events[1]];
  }

  /** What the two operations leave in memory. */
  lemma {:induction false} Remembers(m: Memory, m1: Memory, m2: Memory, tickMs: int)
    requires m == Memory(map[], map[], 0, 0) && tickMs >= 1
    requires m1 == After(m, Ops()[0], [FIRST, SECOND], tickMs) && m2 == After(m1, Ops()[1], [FIRST, SECOND], tickMs)
    ensures VerdictOn(m, Ops()[0], tickMs) == Fresh
    ensures DueAt(m1, [FIRST, SECOND], 1) == [FIRST, SECOND] && !Agreeing(m1.processed, [FIRST, SECOND])
    ensures m2.next == 2 && m2.processed.Keys == {"a"} && m2.processed["a"] != FIRST
  {
    hide Absorbed, Accepted;
    var d := Delivered(Ops()[0], tickMs);
    assert m1 == Memory(map["a" := d], map["a" := d], 0, 0);
    NextIs([FIRST, SECOND], 0, 1, 2);
    assert DueAt(m1, [FIRST, SECOND], 1) == [FIRST, SECOND];
    NothingAbsorbed(m1.processed);
    AcceptedIs(m1.processed, [FIRST, SECOND], 0);
    assert [FIRST, SECOND][..0] == [];
  }

  lemma {:induction false} NothingAbsorbed(processed: Events)
    ensures Absorbed(processed, []) == processed && NoConflict(processed, [])
  {
  }

  /**
   In the run the tick fails; the second fixture, which conflicts with nothing, is not planned, and
   the source is past it.
   */
  lemma {:induction false} Lost(c: EventCoordinator, dones: seq<Done>, traces: seq<Trace>, states: seq<State>)
    requires IsRun(c, Ops(), dones, traces, states) && states[0].memory == Memory(map[], map[], 0, 0)
    requires c.source.events == [FIRST, SECOND] && c.tickMs >= 1
    ensures dones == [Judged(Fresh), Ticked(false)] && states[2].memory.next == 2
    ensures SECOND.eventId !in states[2].memory.processed && Judge(states[2].memory.processed, SECOND) == Fresh
  {
    hide After, Agreeing, Accepted, DueAt, VerdictOn, Along, Absorbed, Lapsing, Lags;
    assert Served(c, states[0], Ops()[0], dones[0], traces[0], states[1]);
    assert Served(c, states[1], Ops()[1], dones[1], traces[1], states[2]);
    Remembers(states[0].memory, states[1].memory, states[2].memory, c.tickMs);
    assert dones == [dones[0], dones[1]];
  }

  /** However the run goes on, the second fixture is never planned, unless an event is polled under its id. */
  lemma {:induction false} NeverPlanned(c: EventCoordinator, more: seq<Op>, dones: seq<Done>, traces: seq<Trace>,
                                        states: seq<State>)
    requires IsRun(c, Ops() + more, dones, traces, states) && states[0].memory == Memory(map[], map[], 0, 0)
    requires c.source.events == [FIRST, SECOND] && c.tickMs >= 1
    requires forall op | op in more && op.Poll? :: op.id != SECOND.eventId
    ensures dones[..2] == [Judged(Fresh), Ticked(false)]
    ensures forall k | 2 <= k < |states| :: SECOND.eventId !in states[k].memory.processed && states[k].memory.next == 2
  {
    hide Served;
    var ops := Ops() + more;
    PartOfRun(c, ops, dones, traces, states, 0, 2);
    assert ops[0..2] == Ops();
    Lost(c, dones[0..2], traces[0..2], states[0..3]);
    forall k | 2 <= k < |states|
      ensures SECOND.eventId !in states[k].memory.processed && states[k].memory.next == 2
    {
      PartOfRun(c, ops, dones, traces, states, 2, k);
      assert forall op | op in ops[2..k] :: op in more;
      LostFixture(c, ops[2..k], dones[2..k], traces[2..k], states[2..k + 1], SECOND.eventId);
      Bounded(c, ops, dones, traces, states, k);
    }
  }

  lemma Bounded(c: EventCoordinator, ops: seq<Op>, dones: seq<Done>, traces: seq<Trace>, states: seq<State>, k: nat)
    requires IsRun(c, ops, dones, traces, states) && 1 <= k < |states|
    ensures states[k].memory.next <= |c.source.events|
  {
    hide After, Fits, Along;
    assert Served(c, states[k - 1], ops[k - 1], dones[k - 1], traces[k - 1], states[k]);
  }

  /** The run itself, on any dice, with any traders and any continuation. */
  method Collide(dice: Dice, tickMs: int, traders: seq<EventReactiveTrader>, more: seq<Op>)
    returns (c: EventCoordinator, dones: seq<Done>)
    requires tickMs >= 1 && Fair(dice)
    requires forall i | 0 <= i < |traders| :: traders[i].Valid() && traders[i].Remaining() == 0
    requires forall i, j | 0 <= i < j < |traders| :: traders[i].me.userId != traders[j].me.userId
    requires forall op | op in more :: InRange(op, |traders|) && (op.Poll? ==> op.id != SECOND.eventId)
    modifies traders
    ensures c.Valid() && |dones| == 2 + |more| && dones[..2] == [Judged(Fresh), Ticked(false)]
    ensures SECOND in c.source.events[..c.source.nextIndex] && SECOND.eventId !in c.planner.processed
  {
    hide EventCoordinator.Valid, Served, After, AllHeard, EventReactiveTrader.Valid, EventReactiveTrader.Remaining;
    ghost var traces, states;
    c, dones, traces, states := Whole(tickMs, dice, [FIRST, SECOND], traders, Ops() + more);
    Ordered(c);
    Sorted(c.source.events);
    NeverPlanned(c, more, dones, traces, states);
    assert c.source.events[1] == SECOND;
  }

  lemma Ordered(c: EventCoordinator)
    requires c.Valid()
    ensures c.tickMs >= 1 && c.source.nextIndex <= |c.source.events|
    ensures forall i, j | 0 <= i < j < |c.source.events| :: StartsLeq(c.source.events[i], c.source.events[j])
  {
  }
}

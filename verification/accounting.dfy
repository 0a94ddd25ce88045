/**
 What becomes of every planned reaction order: it waits in its trader's plan, is
 dropped late, or is handed out and then reported, ignored or never heard of
 again. The coordinator's counters, as a ledger over the traders.
 */
module Accounting {
  import opened OrderTypes

  /** One trader: the event its plan is for, orders not yet handed out, orders handed out and not reported. */
  datatype Slot = Slot(event: Option<string>, remaining: nat, unreported: nat)

  datatype EventRun = EventRun(planned: int, submitted: int, dropped: int, activated: int, completed: bool)

  /** `prompt`: so far no trader was planned anew while one of its orders was unreported. */
  datatype Ledger = Ledger(
    slots: seq<Slot>, runs: map<string, EventRun>, received: int, activated: int,
    planned: int, submitted: int, dropped: int, ignored: int, prompt: bool)

  function Sum(slots: seq<Slot>, w: Slot -> nat): nat {
    if slots == [] then 0 else w(slots[0]) + Sum(slots[1..], w)
  }

  function Remaining(): Slot -> nat {
    (s: Slot) => s.remaining
  }

  function Unreported(): Slot -> nat {
    (s: Slot) => s.unreported
  }

  function RemainingFor(e: string): Slot -> nat {
    (s: Slot) => if s.event == Some(e) then s.remaining else 0
  }

  function UnreportedFor(e: string): Slot -> nat {
    (s: Slot) => if s.event == Some(e) then s.unreported else 0
  }

  lemma {:induction false} SumUpdate(slots: seq<Slot>, i: nat, s: Slot, w: Slot -> nat)
    requires i < |slots|
    ensures Sum(slots[i := s], w) == Sum(slots, w) - w(slots[i]) + w(s)
  {
    if i == 0 {
      assert slots[0 := s][1..] == slots[1..];
    } else {
      SumUpdate(slots[1..], i - 1, s, w);
      assert slots[i := s][1..] == slots[1..][i - 1 := s];
    }
  }

  lemma {:induction false} SumAppend(slots: seq<Slot>, s: Slot, w: Slot -> nat)
    ensures Sum(slots + [s], w) == Sum(slots, w) + w(s)
  {
    if slots != [] {
      SumAppend(slots[1..], s, w);
      assert (slots + [s])[1..] == slots[1..] + [s];
    }
  }

  lemma {:induction false} SumZero(slots: seq<Slot>, w: Slot -> nat)
    requires forall i | 0 <= i < |slots| :: w(slots[i]) == 0
    ensures Sum(slots, w) == 0
  {
    if slots != [] {
      SumZero(slots[1..], w);
    }
  }

  // ----- Steps -----

  /** A run is complete once none of its traders has orders left to hand out. */
  function Complete(l: Ledger, e: string): Ledger
    requires e in l.runs
  {
    var run := l.runs[e];
    if run.completed || run.planned == 0 || Sum(l.slots, RemainingFor(e)) > 0 then l
    else l.(runs := l.runs[e := run.(completed := true)])
  }

  function Drops(l: Ledger, e: string, n: nat): Ledger
    requires e in l.runs
  {
    l.(dropped := l.dropped + n, runs := l.runs[e := l.runs[e].(dropped := l.runs[e].dropped + n)])
  }

  function Submits(l: Ledger, e: string): Ledger
    requires e in l.runs
  {
    l.(submitted := l.submitted + 1, runs := l.runs[e := l.runs[e].(submitted := l.runs[e].submitted + 1)])
  }

  /** Late orders leave the plan of trader i. */
  function DropLate(l: Ledger, i: nat, n: nat): Ledger
    requires i < |l.slots| && n <= l.slots[i].remaining && l.slots[i].event.Some? && l.slots[i].event.value in l.runs
  {
    Drops(l.(slots := l.slots[i := l.slots[i].(remaining := l.slots[i].remaining - n)]), l.slots[i].event.value, n)
  }

  /** Trader i hands out n intents. */
  function HandOut(l: Ledger, i: nat, n: nat): Ledger
    requires i < |l.slots| && n <= l.slots[i].remaining
  {
    var s := l.slots[i];
    l.(slots := l.slots[i := s.(remaining := s.remaining - n, unreported := s.unreported + n)])
  }

  /** One handed-out intent of trader i is reported, and charged to the trader's current event, if any. */
  function Reported(l: Ledger, i: nat, submitted: bool): Ledger
    requires i < |l.slots| && l.slots[i].unreported > 0
    requires l.slots[i].event.Some? ==> l.slots[i].event.value in l.runs
  {
    var s := l.slots[i];
    var l1 := l.(slots := l.slots[i := s.(unreported := s.unreported - 1)]);
    match s.event
    case None => l1.(ignored := l1.ignored + 1)
    case Some(e) => if submitted then Submits(l1, e) else Drops(l1, e, 1)
  }

  function Report(l: Ledger, i: nat, submitted: bool): Ledger
    requires i < |l.slots| && l.slots[i].unreported > 0
    requires l.slots[i].event.Some? ==> l.slots[i].event.value in l.runs
  {
    var l1 := Reported(l, i, submitted);
    match l.slots[i].event
    case None => l1
    case Some(e) => Complete(l1, e)
  }

  /** The plan of trader i, with nothing left in it, is taken away. */
  function Vacate(l: Ledger, i: nat): Ledger
    requires i < |l.slots| && l.slots[i].remaining == 0
  {
    var s := l.slots[i];
    l.(slots := l.slots[i := s.(event := None)], prompt := l.prompt && s.unreported == 0)
  }

  /** Trader i gets a plan of n orders for event e. */
  function Take(l: Ledger, i: nat, e: string, n: nat): Ledger
    requires i < |l.slots| && e in l.runs
  {
    var run := l.runs[e];
    l.(slots := l.slots[i := Slot(Some(e), n, l.slots[i].unreported)],
       planned := l.planned + n, activated := l.activated + 1,
       runs := l.runs[e := run.(planned := run.planned + n, activated := run.activated + 1)])
  }

  function Start(l: Ledger, e: string): Ledger {
    l.(received := l.received + 1, runs := l.runs[e := EventRun(0, 0, 0, 0, false)])
  }

  // ----- What always holds -----

  /** Every planned order is accounted for exactly once. */
  ghost predicate Accounted(l: Ledger) {
    l.planned == l.submitted + l.dropped + Sum(l.slots, Remaining()) + Sum(l.slots, Unreported()) + l.ignored
      && l.ignored >= 0
  }

  ghost predicate RunAccounted(l: Ledger, e: string)
    requires e in l.runs
  {
    var run := l.runs[e];
    run.planned == run.submitted + run.dropped + Sum(l.slots, RemainingFor(e)) + Sum(l.slots, UnreportedFor(e))
  }

  /** As long as everything is reported before re-planning, nothing is ignored and each event balances by itself. */
  ghost predicate PromptOk(l: Ledger) {
    l.prompt ==>
      && l.ignored == 0
      && (forall i | 0 <= i < |l.slots| && l.slots[i].event == None :: l.slots[i].unreported == 0)
      && (forall e | e in l.runs :: RunAccounted(l, e))
  }

  ghost predicate Held(l: Ledger) {
    && (forall i | 0 <= i < |l.slots| :: l.slots[i].event.Some? ==> l.slots[i].event.value in l.runs)
    && (forall i | 0 <= i < |l.slots| :: l.slots[i].event == None ==> l.slots[i].remaining == 0)
  }

  /** A completed run stays complete: none of its traders has an order left. */
  ghost predicate Completed(l: Ledger) {
    forall e | e in l.runs && l.runs[e].completed :: Sum(l.slots, RemainingFor(e)) == 0
  }

  ghost predicate LedgerOk(l: Ledger) {
    Accounted(l) && PromptOk(l) && Held(l) && Completed(l)
  }

  lemma {:induction false} CompleteOk(l: Ledger, e: string)
    requires LedgerOk(l) && e in l.runs
    ensures LedgerOk(Complete(l, e))
  {
    hide Sum;
    var l' := Complete(l, e);
    forall x | l'.prompt && x in l'.runs
      ensures RunAccounted(l', x)
    {
      assert RunAccounted(l, x);
    }
  }

  /** What changing one slot does to the four sums. */
  lemma {:induction false} SlotChange(l: Ledger, i: nat, s: Slot)
    requires i < |l.slots|
    ensures var slots' := l.slots[i := s];
            && Sum(slots', Remaining()) == Sum(l.slots, Remaining()) - l.slots[i].remaining + s.remaining
            && Sum(slots', Unreported()) == Sum(l.slots, Unreported()) - l.slots[i].unreported + s.unreported
  {
    SumUpdate(l.slots, i, s, Remaining());
    SumUpdate(l.slots, i, s, Unreported());
  }

  lemma {:induction false} SlotChangeFor(l: Ledger, i: nat, s: Slot, e: string)
    requires i < |l.slots|
    ensures var slots' := l.slots[i := s];
            && Sum(slots', RemainingFor(e))
               == Sum(l.slots, RemainingFor(e)) - RemainingFor(e)(l.slots[i]) + RemainingFor(e)(s)
            && Sum(slots', UnreportedFor(e))
               == Sum(l.slots, UnreportedFor(e)) - UnreportedFor(e)(l.slots[i]) + UnreportedFor(e)(s)
  {
    SumUpdate(l.slots, i, s, RemainingFor(e));
    SumUpdate(l.slots, i, s, UnreportedFor(e));
  }

  lemma {:induction false} HandOutOk(l: Ledger, i: nat, n: nat)
    requires LedgerOk(l) && i < |l.slots| && n <= l.slots[i].remaining
    ensures LedgerOk(HandOut(l, i, n))
  {
    hide Sum;
    var l' := HandOut(l, i, n);
    SlotChange(l, i, l'.slots[i]);
    forall e | e in l.runs
      ensures l.prompt ==> RunAccounted(l', e)
      ensures l.runs[e].completed ==> Sum(l'.slots, RemainingFor(e)) == 0
    {
      SlotChangeFor(l, i, l'.slots[i], e);
      assert l.prompt ==> RunAccounted(l, e);
    }
  }

  lemma {:induction false} DropLateOk(l: Ledger, i: nat, n: nat)
    requires LedgerOk(l) && i < |l.slots| && n <= l.slots[i].remaining && l.slots[i].event.Some?
    ensures LedgerOk(DropLate(l, i, n))
  {
    hide Sum;
    var l' := DropLate(l, i, n);
    SlotChange(l, i, l'.slots[i]);
    forall e | e in l.runs
      ensures l.prompt ==> RunAccounted(l', e)
      ensures l.runs[e].completed ==> Sum(l'.slots, RemainingFor(e)) == 0
    {
      SlotChangeFor(l, i, l'.slots[i], e);
      assert l.prompt ==> RunAccounted(l, e);
    }
  }

  lemma {:induction false} ReportedOk(l: Ledger, i: nat, submitted: bool)
    requires LedgerOk(l) && i < |l.slots| && l.slots[i].unreported > 0
    ensures LedgerOk(Reported(l, i, submitted))
  {
    hide Sum;
    var l' := Reported(l, i, submitted);
    SlotChange(l, i, l'.slots[i]);
    forall e | e in l.runs
      ensures l.prompt ==> RunAccounted(l', e)
      ensures l.runs[e].completed ==> Sum(l'.slots, RemainingFor(e)) == 0
    {
      SlotChangeFor(l, i, l'.slots[i], e);
      assert l.prompt ==> RunAccounted(l, e);
    }
  }

  lemma {:induction false} ReportOk(l: Ledger, i: nat, submitted: bool)
    requires LedgerOk(l) && i < |l.slots| && l.slots[i].unreported > 0
    ensures LedgerOk(Report(l, i, submitted))
  {
    ReportedOk(l, i, submitted);
    if l.slots[i].event.Some? {
      CompleteOk(Reported(l, i, submitted), l.slots[i].event.value);
    }
  }

  lemma {:induction false} VacateOk(l: Ledger, i: nat)
    requires LedgerOk(l) && i < |l.slots| && l.slots[i].remaining == 0
    ensures LedgerOk(Vacate(l, i))
  {
    hide Sum;
    var l' := Vacate(l, i);
    SlotChange(l, i, l'.slots[i]);
    forall e | e in l.runs
      ensures l'.prompt ==> RunAccounted(l', e)
      ensures l.runs[e].completed ==> Sum(l'.slots, RemainingFor(e)) == 0
    {
      SlotChangeFor(l, i, l'.slots[i], e);
      assert l.prompt ==> RunAccounted(l, e);
    }
  }

  lemma {:induction false} TakeOk(l: Ledger, i: nat, e: string, n: nat)
    requires LedgerOk(l) && i < |l.slots| && l.slots[i].event == None && e in l.runs && !l.runs[e].completed
    ensures LedgerOk(Take(l, i, e, n))
  {
    hide Sum;
    var l' := Take(l, i, e, n);
    SlotChange(l, i, l'.slots[i]);
    forall x | x in l.runs
      ensures l.prompt ==> RunAccounted(l', x)
      ensures l.runs[x].completed ==> Sum(l'.slots, RemainingFor(x)) == 0
    {
      SlotChangeFor(l, i, l'.slots[i], x);
      assert l.prompt ==> RunAccounted(l, x);
    }
  }

  lemma {:induction false} StartOk(l: Ledger, e: string)
    requires LedgerOk(l) && e !in l.runs
    ensures LedgerOk(Start(l, e))
  {
    var l' := Start(l, e);
    SumZero(l.slots, RemainingFor(e));
    SumZero(l.slots, UnreportedFor(e));
    forall x | x in l'.runs
      ensures l.prompt ==> RunAccounted(l', x)
    {
      assert x != e && l.prompt ==> RunAccounted(l, x);
    }
  }

  lemma {:induction false} SumOfNone(w: Slot -> nat)
    ensures Sum([], w) == 0
  {
  }

  lemma {:induction false} NothingYet(l: Ledger)
    requires l.runs == map[] && l.planned == l.submitted == l.dropped == l.ignored == 0
    requires forall i | 0 <= i < |l.slots| :: l.slots[i] == Slot(None, 0, 0)
    ensures LedgerOk(l)
  {
    SumZero(l.slots, Remaining());
    SumZero(l.slots, Unreported());
  }

  /** There is nothing to mark: the run is complete, or empty, or has orders left. */
  ghost predicate Settled(l: Ledger, e: string)
    requires e in l.runs
  {
    l.runs[e].completed || l.runs[e].planned == 0 || Sum(l.slots, RemainingFor(e)) > 0
  }

  lemma {:induction false} CompleteSettles(l: Ledger, e: string)
    requires e in l.runs
    ensures Settled(Complete(l, e), e)
    ensures forall x | x in l.runs && Settled(l, x) :: Settled(Complete(l, e), x)
  {
    hide Sum;
  }

  // ----- What completion and reports do and do not promise -----

  /** A completed event has all its orders submitted or dropped exactly when none of them is still unreported. */
  lemma {:induction false} CompletedBalance(l: Ledger, e: string)
    requires LedgerOk(l) && l.prompt && e in l.runs && l.runs[e].completed
    ensures l.runs[e].planned == l.runs[e].submitted + l.runs[e].dropped <==> Sum(l.slots, UnreportedFor(e)) == 0
  {
    assert RunAccounted(l, e);
  }

  /** One trader, and one event that has given it one order. */
  function OneGiven(e: string): Ledger {
    Take(Start(Ledger([Slot(None, 0, 0)], map[], 0, 0, 0, 0, 0, 0, true), e), 0, e, 1)
  }

  /** The order is handed out and not yet reported. */
  function OneOut(e: string): Ledger {
    HandOut(OneGiven(e), 0, 1)
  }

  lemma {:induction false} OneGivenOk(e: string)
    ensures LedgerOk(OneGiven(e)) && OneGiven(e).slots == [Slot(Some(e), 1, 0)]
    ensures OneGiven(e).runs == map[e := EventRun(1, 0, 0, 1, false)]
  {
    hide LedgerOk;
    var l0 := Ledger([Slot(None, 0, 0)], map[], 0, 0, 0, 0, 0, 0, true);
    NothingYet(l0);
    StartOk(l0, e);
    TakeOk(Start(l0, e), 0, e, 1);
  }

  /** A run can be marked complete before its last order is reported. */
  lemma {:induction false} CompletesEarly(e: string)
    ensures LedgerOk(OneOut(e)) && e in OneOut(e).runs
    ensures Complete(OneOut(e), e).runs[e] == EventRun(1, 0, 0, 1, true)
  {
    hide LedgerOk, OneGiven;
    OneGivenOk(e);
    HandOutOk(OneGiven(e), 0, 1);
    var l := OneOut(e);
    SumZero(l.slots, RemainingFor(e));
  }

  /** If the trader is planned anew before the report, and not activated, the report is ignored. */
  lemma {:induction false} IgnoresLateReport(e: string)
    ensures |OneOut(e).slots| == 1 && OneOut(e).slots[0].remaining == 0 && OneOut(e).slots[0].unreported == 1
    ensures var l := Report(Vacate(OneOut(e), 0), 0, true); l.ignored == 1 && l.submitted == 0 && l.planned == 1
  {
    hide LedgerOk;
    OneGivenOk(e);
  }
}

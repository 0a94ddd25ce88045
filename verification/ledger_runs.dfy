/**
 Runs of the ledger, entry by entry: what the counters add up to, and when every
 trader was planned anew only after all its intents had been reported.
 */
module LedgerRuns {
  import opened OrderTypes
  import opened Accounting

  /** One change of the ledger. */
  datatype Entry =
    | Started(event: string)                              // a run for a newly planned event
    | Vacated(trader: nat)                                // its empty plan is taken away
    | Taken(trader: nat, event: string, orders: nat)      // it gets a plan
    | Lapsed(trader: nat, orders: nat)                    // late orders leave its plan
    | Sent(trader: nat, orders: nat)                      // it hands out intents
    | Heard(trader: nat, submitted: bool)                 // one of them is reported
    | Marked(event: string)                               // the run is completed if nothing is left

  ghost predicate CanEnter(l: Ledger, s: Entry) {
    match s
    case Started(e) => e !in l.runs
    case Vacated(i) => i < |l.slots| && l.slots[i].remaining == 0
    case Taken(i, e, n) => i < |l.slots| && l.slots[i].event == None && e in l.runs && !l.runs[e].completed
    case Lapsed(i, n) => i < |l.slots| && n <= l.slots[i].remaining && l.slots[i].event.Some?
      && l.slots[i].event.value in l.runs
    case Sent(i, n) => i < |l.slots| && n <= l.slots[i].remaining
    case Heard(i, ok) => i < |l.slots| && l.slots[i].unreported > 0
      && (l.slots[i].event.Some? ==> l.slots[i].event.value in l.runs)
    case Marked(e) => e in l.runs
  }

  ghost function Entered(l: Ledger, s: Entry): Ledger
    requires CanEnter(l, s)
  {
    match s
    case Started(e) => Start(l, e)
    case Vacated(i) => Vacate(l, i)
    case Taken(i, e, n) => Take(l, i, e, n)
    case Lapsed(i, n) => DropLate(l, i, n)
    case Sent(i, n) => HandOut(l, i, n)
    case Heard(i, ok) => Report(l, i, ok)
    case Marked(e) => Complete(l, e)
  }

  /** The ledger after these entries; `None` once one was not possible. */
  ghost function Along(l: Ledger, steps: seq<Entry>): Option<Ledger> {
    if steps == [] then Some(l)
    else
      var n := |steps| - 1;
      match Along(l, steps[..n])
      case None => None
      case Some(m) => if CanEnter(m, steps[n]) then Some(Entered(m, steps[n])) else None
  }

  lemma {:induction false} AlongNone(l: Ledger)
    ensures Along(l, []) == Some(l)
  {
  }

  lemma {:induction false} AlongOne(l: Ledger, s: Entry)
    requires CanEnter(l, s)
    ensures Along(l, [s]) == Some(Entered(l, s))
  {
    assert [s][..0] == [];
  }

  lemma {:induction false} AlongJoin(l: Ledger, a: seq<Entry>, b: seq<Entry>)
    requires Along(l, a).Some?
    ensures Along(l, a + b) == Along(Along(l, a).value, b)
    decreases |b|
  {
    hide CanEnter, Entered;
    if b == [] {
      assert a + b == a;
    } else {
      var n := |b| - 1;
      assert (a + b)[..|a + b| - 1] == a + b[..n];
      AlongJoin(l, a, b[..n]);
    }
  }

  lemma {:induction false} AlongMore(l: Ledger, steps: seq<Entry>, s: Entry)
    requires Along(l, steps).Some? && CanEnter(Along(l, steps).value, s)
    ensures Along(l, steps + [s]) == Some(Entered(Along(l, steps).value, s))
  {
    hide CanEnter, Entered;
    AlongJoin(l, steps, [s]);
    AlongOne(Along(l, steps).value, s);
  }

  lemma {:induction false} EnteredOk(l: Ledger, s: Entry)
    requires LedgerOk(l) && CanEnter(l, s)
    ensures LedgerOk(Entered(l, s))
  {
    hide LedgerOk, Start, Vacate, Take, DropLate, HandOut, Report, Complete;
    match s
    case Started(e) => StartOk(l, e);
    case Vacated(i) => VacateOk(l, i);
    case Taken(i, e, n) => TakeOk(l, i, e, n);
    case Lapsed(i, n) => DropLateOk(l, i, n);
    case Sent(i, n) => HandOutOk(l, i, n);
    case Heard(i, ok) => ReportOk(l, i, ok);
    case Marked(e) => CompleteOk(l, e);
  }

  /** Every entry keeps the ledger balanced, so every run does. */
  lemma {:induction false} AlongOk(l: Ledger, steps: seq<Entry>)
    requires LedgerOk(l) && Along(l, steps).Some?
    ensures LedgerOk(Along(l, steps).value)
  {
    hide LedgerOk, CanEnter, Entered;
    if steps != [] {
      var n := |steps| - 1;
      AlongOk(l, steps[..n]);
      EnteredOk(Along(l, steps[..n]).value, steps[n]);
    }
  }

  // ----- What the entries add up to -----

  function Weight(steps: seq<Entry>, w: Entry -> nat): nat {
    if steps == [] then 0 else Weight(steps[..|steps| - 1], w) + w(steps[|steps| - 1])
  }

  function PlannedBy(): Entry -> nat {
    (s: Entry) => if s.Taken? then s.orders else 0
  }

  function StartedBy(): Entry -> nat {
    (s: Entry) => if s.Started? then 1 else 0
  }

  function TakenBy(): Entry -> nat {
    (s: Entry) => if s.Taken? then 1 else 0
  }

  function LapsedBy(): Entry -> nat {
    (s: Entry) => if s.Lapsed? then s.orders else 0
  }

  function SentBy(): Entry -> nat {
    (s: Entry) => if s.Sent? then s.orders else 0
  }

  function HeardBy(): Entry -> nat {
    (s: Entry) => if s.Heard? then 1 else 0
  }

  function SentFrom(i: nat): Entry -> nat {
    (s: Entry) => if s.Sent? && s.trader == i then s.orders else 0
  }

  function HeardFrom(i: nat): Entry -> nat {
    (s: Entry) => if s.Heard? && s.trader == i then 1 else 0
  }

  lemma {:induction false} WeightJoin(a: seq<Entry>, b: seq<Entry>, w: Entry -> nat)
    ensures Weight(a + b, w) == Weight(a, w) + Weight(b, w)
    decreases |b|
  {
    if b == [] {
      assert a + b == a;
    } else {
      assert (a + b)[..|a + b| - 1] == a + b[..|b| - 1];
      WeightJoin(a, b[..|b| - 1], w);
    }
  }

  lemma {:induction false} WeightOne(s: Entry, w: Entry -> nat)
    ensures Weight([s], w) == w(s) && Weight([], w) == 0
  {
    assert [s][..0] == [];
  }

  /** One entry changes the counters by what it says. */
  ghost predicate Figured(l: Ledger, s: Entry, l': Ledger) {
    && |l'.slots| == |l.slots|
    && l'.planned == l.planned + PlannedBy()(s) && l'.activated == l.activated + TakenBy()(s)
    && l'.received - l.received == |l'.runs| - |l.runs| == StartedBy()(s)
    && l'.submitted + l'.dropped + l'.ignored == l.submitted + l.dropped + l.ignored + LapsedBy()(s) + HeardBy()(s)
    && Sum(l'.slots, Unreported()) + HeardBy()(s) == Sum(l.slots, Unreported()) + SentBy()(s)
    && (forall i {:trigger l.slots[i]} {:trigger l'.slots[i]} |
          0 <= i < |l.slots| :: l'.slots[i].unreported + HeardFrom(i)(s) == l.slots[i].unreported + SentFrom(i)(s))
    && (s.Vacated? ==> s.trader < |l.slots|)
    && l'.prompt == (l.prompt && (s.Vacated? ==> l.slots[s.trader].unreported == 0))
  }

  lemma {:induction false} SlotFigured(l: Ledger, s: Entry)
    requires CanEnter(l, s) && (s.Vacated? || s.Taken? || s.Lapsed? || s.Sent?)
    ensures Figured(l, s, Entered(l, s))
  {
    hide Sum;
    SlotChange(l, s.trader, Entered(l, s).slots[s.trader]);
  }

  lemma {:induction false} HeardFigured(l: Ledger, i: nat, ok: bool)
    requires CanEnter(l, Heard(i, ok))
    ensures Figured(l, Heard(i, ok), Entered(l, Heard(i, ok)))
  {
    hide Sum;
    SlotChange(l, i, Reported(l, i, ok).slots[i]);
  }

  lemma {:induction false} EveryFigured(l: Ledger, s: Entry)
    requires CanEnter(l, s)
    ensures Figured(l, s, Entered(l, s))
  {
    match s
    case Started(e) =>
    case Marked(e) => hide Sum;
    case Heard(i, ok) => HeardFigured(l, i, ok);
    case _ => SlotFigured(l, s);
  }

  /** Every Vacated entry came when all that its trader had sent since the start was heard back. */
  predicate AllHeard(steps: seq<Entry>) {
    forall k | 0 <= k < |steps| && steps[k].Vacated? ::
      Weight(steps[..k], SentFrom(steps[k].trader)) == Weight(steps[..k], HeardFrom(steps[k].trader))
  }

  /** The counters of a run that starts with nothing out are read off its entries. */
  ghost predicate Totalled(l: Ledger, steps: seq<Entry>, l': Ledger) {
    && |l'.slots| == |l.slots|
    && l'.planned == l.planned + Weight(steps, PlannedBy()) && l'.activated == l.activated + Weight(steps, TakenBy())
    && l'.received - l.received == |l'.runs| - |l.runs| == Weight(steps, StartedBy())
    && l'.submitted + l'.dropped + l'.ignored
       == l.submitted + l.dropped + l.ignored + Weight(steps, LapsedBy()) + Weight(steps, HeardBy())
    && Sum(l'.slots, Unreported()) + Weight(steps, HeardBy()) == Sum(l.slots, Unreported()) + Weight(steps, SentBy())
    && (forall i | 0 <= i < |l.slots| ::
       l'.slots[i].unreported + Weight(steps, HeardFrom(i)) == Weight(steps, SentFrom(i)))
    && l'.prompt == (l.prompt && AllHeard(steps))
  }

  lemma {:induction false} AllHeardMore(steps: seq<Entry>)
    requires steps != []
    ensures var n := |steps| - 1;
            AllHeard(steps) <==>
              AllHeard(steps[..n]) && (steps[n].Vacated? ==>
                Weight(steps[..n], SentFrom(steps[n].trader)) == Weight(steps[..n], HeardFrom(steps[n].trader)))
  {
    hide Weight;
    var n := |steps| - 1;
    forall k | 0 <= k < n
      ensures steps[..n][..k] == steps[..k]
    {
    }
    assert forall k | 0 <= k < n :: steps[..n][k] == steps[k];
  }

  lemma {:induction false} Totals(l: Ledger, steps: seq<Entry>)
    requires Along(l, steps).Some? && forall i | 0 <= i < |l.slots| :: l.slots[i].unreported == 0
    ensures Totalled(l, steps, Along(l, steps).value)
  {
    hide CanEnter, Entered, Sum, AllHeard;
    if steps == [] {
      Nothing(l);
    } else {
      var n := |steps| - 1;
      Totals(l, steps[..n]);
      var m := Along(l, steps[..n]).value;
      EveryFigured(m, steps[n]);
      TotalsMore(l, steps, m, Entered(m, steps[n]));
    }
  }

  lemma {:induction false} Nothing(l: Ledger)
    requires forall i | 0 <= i < |l.slots| :: l.slots[i].unreported == 0
    ensures Totalled(l, [], l)
  {
    hide Sum;
  }

  lemma {:induction false} TotalsMore(l: Ledger, steps: seq<Entry>, m: Ledger, l': Ledger)
    requires steps != [] && Totalled(l, steps[..|steps| - 1], m) && Figured(m, steps[|steps| - 1], l')
    ensures Totalled(l, steps, l')
  {
    hide Sum, AllHeard;
    AllHeardMore(steps);
  }

  /**
   A run of entries from a ledger with nothing out: if each trader was planned anew only
   after everything it had sent was heard, no report is ignored and every event balances.
   */
  lemma {:induction false} PromptRunsBalance(l: Ledger, steps: seq<Entry>)
    requires LedgerOk(l) && l.prompt && Along(l, steps).Some?
    requires forall i | 0 <= i < |l.slots| :: l.slots[i].unreported == 0
    ensures var l' := Along(l, steps).value;
            && (l'.prompt <==> AllHeard(steps))
            && (AllHeard(steps) ==> l'.ignored == 0 && forall e | e in l'.runs :: RunAccounted(l', e))
  {
    hide Sum, AllHeard, CanEnter, Entered;
    AlongOk(l, steps);
    Totals(l, steps);
  }
}

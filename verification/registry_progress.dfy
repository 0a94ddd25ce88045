/**
 Requests come to an end: without new arrivals every run of the registry's threads
 is bounded, and when no thread can step every request has finished.
 */
module RegistryProgress {
  import opened FiniteSets
  import opened OrderTypes
  import opened RegistrySteps

  /** How many steps a thread has left, not counting the orders it may close. */
  function Weight(pc: Pc): nat {
    match pc
    case Done => 0
    case WantLookup(_) => 14
    case InLookup(_) => 13
    case WantGet(_, _) => 12
    case InGet(_, _) => 11
    case WantBook(_, _) => 10
    case InBook(_, _) => 9
    case WantClose(_, _, _) => 11
    case InClose(_, _, _) => 10
    case WantRest(_, _) => 5
    case InRest(_, _) => 4
    case Leaving(_, _) => 3
    case WantPop(_) => 2
    case InPop(_) => 1
    case WantRoll(_) => 2
    case InRoll(_) => 1
  }

  ghost function Pick(m: map<Tid, Pc>): (t: Tid)
    requires m != map[]
    ensures t in m
  {
    var t :| t in m;
    t
  }

  ghost function Sum(m: map<Tid, Pc>): nat
    decreases |m|
  {
    if m == map[] then 0
    else
      var t := Pick(m);
      Smaller(m, t);
      Weight(m[t]) + Sum(m - {t})
  }

  lemma {:induction false} Smaller(m: map<Tid, Pc>, t: Tid)
    requires t in m
    ensures |m - {t}| < |m|
  {
    assert (m - {t}).Keys == m.Keys - {t};
    assert |m.Keys| == |m.Keys - {t}| + 1;
  }

  /** The sum does not depend on who is counted first. */
  lemma {:induction false} SumOut(m: map<Tid, Pc>, t: Tid)
    requires t in m
    ensures Sum(m) == Weight(m[t]) + Sum(m - {t})
    decreases |m|
  {
    var u := Pick(m);
    if u != t {
      Smaller(m, u);
      Smaller(m, t);
      SumOut(m - {u}, t);
      SumOut(m - {t}, u);
      assert m - {u} - {t} == m - {t} - {u};
    }
  }

  lemma {:induction false} SumUpdate(m: map<Tid, Pc>, t: Tid, pc: Pc)
    requires t in m
    ensures Sum(m[t := pc]) + Weight(m[t]) == Sum(m) + Weight(pc)
  {
    SumOut(m, t);
    SumOut(m[t := pc], t);
    assert m[t := pc] - {t} == m - {t};
  }

  /** Every order resting somewhere. */
  ghost function AllResting(d: Board): set<OrderId> {
    set b, id | b in d.resting && id in d.resting[b] :: id
  }

  /** Each resting order can still cost three steps to close. */
  ghost function Measure(s: Sys): nat {
    Sum(s.threads) + 3 * |AllResting(s.board)|
  }

  lemma {:induction false} GoneFewer(d: Board, b: BookId, id: OrderId)
    requires Shapes(d)
    ensures |AllResting(Gone(d, b, id))| <= |AllResting(d)|
    ensures id in Ids(d, b) ==> |AllResting(Gone(d, b, id))| < |AllResting(d)|
  {
    var a, a' := AllResting(d), AllResting(Gone(d, b, id));
    forall x | x in a'
      ensures x in a && (id in Ids(d, b) ==> x != id)
    {
      var c :| c in Gone(d, b, id).resting && x in Gone(d, b, id).resting[c];
      if c == b {
        assert x in Ids(d, b) && x != id;
      } else if id in Ids(d, b) {
        assert AtHome(d, c, d.resting[c]) && AtHome(d, b, d.resting[b]);
      }
    }
    if id in Ids(d, b) {
      assert id in a && a' <= a - {id};
      SubsetSize(a', a - {id});
    } else {
      SubsetSize(a', a);
    }
  }

  lemma {:induction false} RestedMore(d: Board, b: BookId, id: OrderId)
    ensures |AllResting(RegistrySteps.Rested(d, b, id))| <= |AllResting(d)| + 1
  {
    var a, a' := AllResting(d), AllResting(RegistrySteps.Rested(d, b, id));
    forall x | x in a'
      ensures x in a + {id}
    {
      var c :| c in RegistrySteps.Rested(d, b, id).resting && x in RegistrySteps.Rested(d, b, id).resting[c];
    }
    SubsetSize(a', a + {id});
  }

  lemma {:induction false} NewBookEmpty(d: Board, symbol: Symbol)
    requires Shapes(d)
    ensures AllResting(WithBook(d, symbol)) == AllResting(d)
  {
    var d' := WithBook(d, symbol);
    assert NewBook(d) !in d.resting;
    forall x
      ensures x in AllResting(d') <==> x in AllResting(d)
    {
      if b :| b in d.resting && x in d.resting[b] {
        assert b in d'.resting && x in d'.resting[b];
      }
    }
  }

  /** What a step's board holds, compared with before. */
  lemma {:induction false} RestingChange(s: Sys, t: Tid, c: Choice)
    requires Inv(s) && Enabled(s, t, c)
    ensures var d, d' := s.board, Do(s, t, c).board;
            && (c.Closing? ==> |AllResting(d')| < |AllResting(d)|)
            && (c.Resting? ==> |AllResting(d')| <= |AllResting(d)| + 1)
            && (!c.Closing? && !c.Resting? ==> |AllResting(d')| <= |AllResting(d)|)
  {
    hide AllResting, LocksOk, ThreadsOk, Covered, Mapped, Shapes;
    var pc := s.threads[t];
    if pc.InBook? && c.Closing? {
      GoneFewer(s.board, pc.b, c.v);
    } else if pc.InBook? && c.Resting? {
      RestedMore(s.board, pc.b, pc.op.id);
    } else if pc.InBook? && pc.op.Canceling? {
      GoneFewer(s.board, pc.b, pc.op.id);
    } else if pc.InGet? {
      NewBookEmpty(s.board, pc.symbol);
      SameResting(s.board, Do(s, t, c).board);
      SameResting(WithBook(s.board, pc.symbol), Do(s, t, c).board);
    } else {
      SameResting(s.board, Do(s, t, c).board);
    }
  }

  lemma {:induction false} SameResting(d: Board, d': Board)
    ensures d'.resting == d.resting ==> AllResting(d') == AllResting(d)
  {
  }

  /** Every step uses something up. */
  lemma {:induction false} StepDescends(s: Sys, t: Tid, c: Choice)
    requires Inv(s) && Enabled(s, t, c)
    ensures Measure(Do(s, t, c)) < Measure(s)
  {
    hide Inv, AllResting, Sum;
    RestingChange(s, t, c);
    SumUpdate(s.threads, t, Do(s, t, c).threads[t]);
  }

  ghost predicate NoArrivals(es: seq<Event>) {
    forall e | e in es :: e.Advance?
  }

  /** Without new requests a run has at most as many steps as its first state measures. */
  lemma {:induction false} RunIsBounded(s: Sys, es: seq<Event>, s': Sys)
    requires Inv(s) && Run(s, es, s') && NoArrivals(es)
    ensures |es| + Measure(s') <= Measure(s)
    decreases |es|
  {
    if es != [] {
      hide Inv, Measure, Do, Enabled;
      assert es[0] in es;
      StepDescends(s, es[0].t, es[0].c);
      DoKeeps(s, es[0].t, es[0].c);
      assert forall e | e in es[1..] :: e in es;
      RunIsBounded(Do(s, es[0].t, es[0].c), es[1..], s');
    }
  }

  /**
   From any reachable state, letting the threads go on without new requests takes
   boundedly many steps, and once none of them can step every request is finished.
   */
  lemma {:induction false} EveryRequestFinishes(es: seq<Event>, s: Sys, more: seq<Event>, s': Sys)
    requires Run(EMPTY, es, s) && Run(s, more, s') && NoArrivals(more)
    ensures |more| <= Measure(s)
    ensures (forall u, c :: !Enabled(s', u, c)) ==> forall t | t in s'.threads :: s'.threads[t].Done?
  {
    hide Inv, Measure, Enabled;
    ReachableKeeps(es, s);
    RunIsBounded(s, more, s');
    RunsJoin(EMPTY, es, s, more, s');
    forall t | t in s'.threads && !s'.threads[t].Done?
      ensures exists u, c :: Enabled(s', u, c)
    {
      NoDeadlock(es + more, s', t);
    }
  }

  lemma {:induction false} RunsJoin(a: Sys, es: seq<Event>, b: Sys, more: seq<Event>, c: Sys)
    requires Run(a, es, b) && Run(b, more, c)
    ensures Run(a, es + more, c)
    decreases |es|
  {
    if es == [] {
      assert es + more == more;
    } else {
      RunsJoin(Happen(a, es[0]), es[1..], b, more, c);
      assert (es + more)[1..] == es[1..] + more;
    }
  }
}

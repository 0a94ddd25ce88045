/** A trader that sleeps until it is given a reaction plan, and then consumes the plan's orders one index at a time. */
module ReactiveTraders {
  import opened FiniteSets
  import opened OrderTypes
  import opened ReactionPlanning

  datatype Intent = Intent(userId: string, symbol: string, side: Side, price: int, quantity: int, ttlSeconds: int)

  /** The trader's own settings behind its reaction candidate. */
  datatype Pricing = Pricing(referencePrice: int, priceStep: int)

  /** Take the best opposing price; on an empty side, one step past the reference. */
  function ReactionPrice(side: Side, snapshot: BookSnapshot, p: Pricing): int {
    if side.BUY? then
      if snapshot.asks != [] then snapshot.asks[0].price else Max(p.priceStep, p.referencePrice + p.priceStep)
    else
      if snapshot.bids != [] then snapshot.bids[0].price else Max(p.priceStep, p.referencePrice - p.priceStep)
  }

  function IntentOf(plan: ReactionPlan, i: nat, snapshot: BookSnapshot, p: Pricing): Intent
    requires plan.Valid() && i < plan.OrderCount()
  {
    Intent(plan.userId, plan.symbol, plan.sides[i], ReactionPrice(plan.sides[i], snapshot, p), plan.quantities[i],
      plan.ttls[i])
  }

  /** The first n indexes. */
  function UpTo(n: nat): (r: set<int>)
    ensures |r| == n && forall i :: i in r <==> 0 <= i < n
  {
    if n == 0 then {} else UpTo(n - 1) + {n - 1}
  }

  lemma {:induction false} Within(a: set<int>, n: nat)
    requires a <= UpTo(n)
    ensures |a| <= n
  {
    SubsetSize(a, UpTo(n));
  }

  /** Scheduled orders that are too late and not consumed, among the first n. */
  function Late(plan: ReactionPlan, consumed: set<int>, elapsedMs: int, tickMs: int, maxLagMs: int, n: nat): set<int>
    requires n <= |plan.offsets|
  {
    set i | 0 <= i < n && i !in consumed && elapsedMs - plan.offsets[i] * tickMs > maxLagMs
  }

  predicate Due(plan: ReactionPlan, consumed: set<int>, tick: int, i: nat)
    requires i < |plan.offsets|
  {
    i !in consumed && Max(plan.offsets[i], 1) == tick
  }

  /** The intents due at this tick among the first n orders, in plan order. */
  function DueIntents(plan: ReactionPlan, consumed: set<int>, tick: int, snapshot: BookSnapshot, p: Pricing,
                      n: nat): seq<Intent>
    requires plan.Valid() && n <= plan.OrderCount()
  {
    if n == 0 then []
    else
      DueIntents(plan, consumed, tick, snapshot, p, n - 1) +
      if Due(plan, consumed, tick, n - 1) then [IntentOf(plan, n - 1, snapshot, p)] else []
  }

  function DueIndexes(plan: ReactionPlan, consumed: set<int>, tick: int, n: nat): set<int>
    requires n <= |plan.offsets|
  {
    set i | 0 <= i < n && Due(plan, consumed, tick, i)
  }

  lemma {:induction false} LateStep(plan: ReactionPlan, consumed: set<int>, elapsedMs: int, tickMs: int, maxLagMs: int,
                                    i: nat)
    requires i < |plan.offsets|
    ensures var late := Late(plan, consumed, elapsedMs, tickMs, maxLagMs, i);
            var late' := Late(plan, consumed, elapsedMs, tickMs, maxLagMs, i + 1);
            && i !in late && Late(plan, consumed, elapsedMs, tickMs, maxLagMs, 0) == {} && consumed + {} == consumed
            && if i !in consumed && elapsedMs - plan.offsets[i] * tickMs > maxLagMs
               then consumed + late' == consumed + late + {i} && |late'| == |late| + 1
               else late' == late
  {
    var late := Late(plan, consumed, elapsedMs, tickMs, maxLagMs, i);
    var late' := Late(plan, consumed, elapsedMs, tickMs, maxLagMs, i + 1);
    assert late' == late + if i !in consumed && elapsedMs - plan.offsets[i] * tickMs > maxLagMs then {i} else {};
  }

  lemma {:induction false} LateFresh(plan: ReactionPlan, consumed: set<int>, elapsedMs: int, tickMs: int, maxLagMs: int,
                                     n: nat)
    requires n <= |plan.offsets|
    ensures var late := Late(plan, consumed, elapsedMs, tickMs, maxLagMs, n);
            late !! consumed && late <= UpTo(n) && |consumed + late| == |consumed| + |late|
  {
    Union(consumed, Late(plan, consumed, elapsedMs, tickMs, maxLagMs, n));
  }

  lemma {:induction false} DueStep(plan: ReactionPlan, consumed: set<int>, tick: int, i: nat)
    requires i < |plan.offsets|
    ensures var due := DueIndexes(plan, consumed, tick, i);
            var due' := DueIndexes(plan, consumed, tick, i + 1);
            && i !in due && DueIndexes(plan, consumed, tick, 0) == {} && consumed + {} == consumed
            && if Due(plan, consumed, tick, i)
               then consumed + due' == consumed + due + {i} && |due'| == |due| + 1
               else due' == due
  {
    var due, due' := DueIndexes(plan, consumed, tick, i), DueIndexes(plan, consumed, tick, i + 1);
    assert due' == due + if Due(plan, consumed, tick, i) then {i} else {};
  }

  lemma {:induction false} IntentStep(plan: ReactionPlan, consumed: set<int>, tick: int, snapshot: BookSnapshot,
                                      p: Pricing, i: nat)
    requires plan.Valid() && i < plan.OrderCount()
    ensures DueIntents(plan, consumed, tick, snapshot, p, 0) == []
    ensures DueIntents(plan, consumed, tick, snapshot, p, i + 1) ==
              DueIntents(plan, consumed, tick, snapshot, p, i) +
              if Due(plan, consumed, tick, i) then [IntentOf(plan, i, snapshot, p)] else []
  {
  }

  lemma {:induction false} Lengths(plan: ReactionPlan)
    requires plan.Valid()
    ensures |plan.offsets| == plan.OrderCount() && (plan.activated ==> plan.OrderCount() > 0)
  {
  }

  lemma {:induction false} DueFresh(plan: ReactionPlan, consumed: set<int>, tick: int, n: nat)
    requires n <= |plan.offsets|
    ensures var due := DueIndexes(plan, consumed, tick, n);
            due !! consumed && due <= UpTo(n) && |consumed + due| == |consumed| + |due|
  {
    Union(consumed, DueIndexes(plan, consumed, tick, n));
  }

  lemma {:induction false} Union(a: set<int>, b: set<int>)
    requires a !! b
    ensures |a + b| == |a| + |b|
  {
  }

  class EventReactiveTrader {
    const me: Candidate
    const pricing: Pricing
    var plan: Option<ReactionPlan>
    var consumed: set<int>

    ghost predicate Valid() reads this {
      && me.Valid()
      && (plan.Some? ==> plan.value.Valid() && plan.value.userId == me.userId && plan.value.symbol == me.symbol)
      && consumed <= UpTo(Orders())
    }

    function Orders(): nat reads this`plan {
      if plan.Some? && plan.value.activated then plan.value.OrderCount() else 0
    }

    function Remaining(): nat
      requires Valid()
      reads this
    {
      Within(consumed, Orders());
      Orders() - |consumed|
    }

    constructor (me: Candidate, pricing: Pricing)
      requires me.Valid()
      ensures Valid() && Remaining() == 0 && this.me == me && plan == None
    {
      this.me, this.pricing, plan, consumed := me, pricing, None, {};
    }

    /** A plan for somebody else, or for another symbol, is refused. */
    method ApplyPlan(p: ReactionPlan) returns (ok: bool)
      requires Valid() && p.Valid()
      modifies this
      ensures Valid() && ok == (p.userId == me.userId && p.symbol == me.symbol)
      ensures ok ==> plan == Some(p) && consumed == {} && Remaining() == p.OrderCount()
      ensures !ok ==> plan == old(plan) && consumed == old(consumed)
    {
      if p.userId != me.userId || p.symbol != me.symbol {
        return false;
      }
      plan, consumed := Some(p), {};
      ok := true;
    }

    /** Exactly the late orders are dropped, and each order at most once. */
    method DropLateOrders(elapsedMs: int, tickMs: int, maxLagMs: int) returns (dropped: nat)
      requires Valid()
      modifies this`consumed
      ensures Valid() && Remaining() == old(Remaining()) - dropped
      ensures Orders() == 0 ==> dropped == 0 && consumed == old(consumed)
      ensures Orders() > 0 ==>
        var late := Late(plan.value, old(consumed), elapsedMs, tickMs, maxLagMs, Orders());
        consumed == old(consumed) + late && old(consumed) !! late && dropped == |late|
    {
      hide Late, ReactionPlan.Valid;
      if plan.None? || !plan.value.activated {
        return 0;
      }
      dropped := 0;
      var n := plan.value.OrderCount();
      ghost var was := consumed;
      Lengths(plan.value);
      LateStep(plan.value, was, elapsedMs, tickMs, maxLagMs, 0);
      for index := 0 to n
        invariant consumed == was + Late(plan.value, was, elapsedMs, tickMs, maxLagMs, index)
        invariant dropped == |Late(plan.value, was, elapsedMs, tickMs, maxLagMs, index)|
      {
        LateStep(plan.value, was, elapsedMs, tickMs, maxLagMs, index);
        if index !in consumed && elapsedMs - plan.value.offsets[index] * tickMs > maxLagMs {
          consumed := consumed + {index};
          dropped := dropped + 1;
        }
      }
      LateFresh(plan.value, was, elapsedMs, tickMs, maxLagMs, n);
    }

    /** The orders due now are handed out in plan order and never again. */
    method NextIntents(tick: int, snapshot: BookSnapshot) returns (intents: seq<Intent>)
      requires Valid()
      modifies this`consumed
      ensures Valid() && Remaining() == old(Remaining()) - |intents|
      ensures Orders() == 0 ==> intents == [] && consumed == old(consumed)
      ensures Orders() > 0 ==>
        && intents == DueIntents(plan.value, old(consumed), tick, snapshot, pricing, Orders())
        && consumed == old(consumed) + DueIndexes(plan.value, old(consumed), tick, Orders())
    {
      hide DueIndexes, IntentOf, ReactionPrice, DueIntents, ReactionPlan.Valid;
      if plan.None? || !plan.value.activated {
        return [];
      }
      intents := [];
      var n := plan.value.OrderCount();
      ghost var was := consumed;
      Lengths(plan.value);
      DueStep(plan.value, was, tick, 0);
      IntentStep(plan.value, was, tick, snapshot, pricing, 0);
      for index := 0 to n
        invariant intents == DueIntents(plan.value, was, tick, snapshot, pricing, index)
        invariant consumed == was + DueIndexes(plan.value, was, tick, index)
        invariant |intents| == |DueIndexes(plan.value, was, tick, index)|
      {
        DueStep(plan.value, was, tick, index);
        IntentStep(plan.value, was, tick, snapshot, pricing, index);
        if index !in consumed && Max(plan.value.offsets[index], 1) == tick {
          consumed := consumed + {index};
          intents := intents + [IntentOf(plan.value, index, snapshot, pricing)];
        }
      }
      DueFresh(plan.value, was, tick, n);
    }
  }

  // ----- Working through one plan -----

  /** What can happen to a plan: a tick asks for its due orders, or its late ones are dropped. */
  datatype Use = Hand(tick: int, snapshot: BookSnapshot) | Drop(elapsedMs: int, tickMs: int, maxLagMs: int)

  /** The orders one use takes off the plan. */
  function SpentBy(plan: ReactionPlan, consumed: set<int>, u: Use): set<int> {
    match u
    case Hand(tick, _) => DueIndexes(plan, consumed, tick, |plan.offsets|)
    case Drop(elapsedMs, tickMs, maxLagMs) => Late(plan, consumed, elapsedMs, tickMs, maxLagMs, |plan.offsets|)
  }

  function ConsumedAfter(plan: ReactionPlan, consumed: set<int>, uses: seq<Use>): set<int> {
    if uses == [] then consumed
    else
      var before := ConsumedAfter(plan, consumed, uses[..|uses| - 1]);
      before + SpentBy(plan, before, uses[|uses| - 1])
  }

  /** How many of the uses take order i. */
  function TimesTaken(plan: ReactionPlan, consumed: set<int>, uses: seq<Use>, i: int): nat {
    if uses == [] then 0
    else
      var n := |uses| - 1;
      TimesTaken(plan, consumed, uses[..n], i) +
      if i in SpentBy(plan, ConsumedAfter(plan, consumed, uses[..n]), uses[n]) then 1 else 0
  }

  /**
   Under one plan each order is handed out or dropped at most once, and exactly once if it was
   consumed on the way.
   */
  lemma {:induction false} OncePerPlan(plan: ReactionPlan, consumed: set<int>, uses: seq<Use>, i: int)
    ensures var spent := ConsumedAfter(plan, consumed, uses) - consumed;
            TimesTaken(plan, consumed, uses, i) == if i in spent then 1 else 0
    ensures consumed <= ConsumedAfter(plan, consumed, uses)
  {
    if uses != [] {
      OncePerPlan(plan, consumed, uses[..|uses| - 1], i);
    }
  }

  lemma {:induction false} UsedMore(plan: ReactionPlan, consumed: set<int>, uses: seq<Use>, k: nat)
    requires k < |uses|
    ensures var before := ConsumedAfter(plan, consumed, uses[..k]);
            ConsumedAfter(plan, consumed, uses[..k + 1]) == before + SpentBy(plan, before, uses[k])
    ensures ConsumedAfter(plan, consumed, []) == consumed
  {
    assert uses[..k + 1][..k] == uses[..k];
  }

  /** A trader put to these uses hands out and drops exactly the orders they take. */
  method UseAll(trader: EventReactiveTrader, uses: seq<Use>) returns (handed: nat, dropped: nat)
    requires trader.Valid()
    modifies trader`consumed
    ensures trader.Valid() && trader.Remaining() == old(trader.Remaining()) - handed - dropped
    ensures trader.Orders() == 0 ==> handed == dropped == 0
    ensures trader.Orders() > 0 ==> trader.consumed == ConsumedAfter(trader.plan.value, old(trader.consumed), uses)
  {
    hide DueIndexes, DueIntents, Late, ReactionPlan.Valid, ConsumedAfter;
    handed, dropped := 0, 0;
    if trader.plan.Some? {
      Lengths(trader.plan.value);
      NoUses(trader.plan.value, trader.consumed, uses);
    }
    for k := 0 to |uses|
      invariant trader.Valid() && trader.Remaining() == old(trader.Remaining()) - handed - dropped
      invariant trader.Orders() == 0 ==> handed == dropped == 0
      invariant trader.Orders() > 0 ==>
                  trader.consumed == ConsumedAfter(trader.plan.value, old(trader.consumed), uses[..k])
    {
      if trader.Orders() > 0 {
        UsedMore(trader.plan.value, old(trader.consumed), uses, k);
      }
      match uses[k] {
        case Hand(tick, snapshot) =>
          var intents := trader.NextIntents(tick, snapshot);
          handed := handed + |intents|;
        case Drop(elapsedMs, tickMs, maxLagMs) =>
          var n := trader.DropLateOrders(elapsedMs, tickMs, maxLagMs);
          dropped := dropped + n;
      }
    }
    assert uses[..|uses|] == uses;
  }

  lemma {:induction false} NoUses(plan: ReactionPlan, consumed: set<int>, uses: seq<Use>)
    ensures ConsumedAfter(plan, consumed, uses[..0]) == consumed
  {
  }
}

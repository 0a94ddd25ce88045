/**
 The reaction planner: which traders an event activates, and what orders they
 will place when. The random generator is an arbitrary deterministic stream of
 draws that stay in range, and the hash behind its seeds an arbitrary function.
 */
module ReactionPlanning {
  import opened OrderTypes
  import opened Sorting

  const BASIS_POINTS: int := 10_000

  datatype EventPreset = MinorNews | BreakingNews | MarketPanic | MixedReaction | Rumor

  datatype DirectionHint = BuyHint | SellHint | MixedHint | NoHint

  datatype NewsEvent = NewsEvent(
    eventId: string, symbol: string, startsAfterMs: int, preset: EventPreset,
    direction: DirectionHint, headline: string, source: string, seed: int)

  datatype Candidate = Candidate(
    userId: string, symbol: string, quantityMin: int, quantityMax: int, ttlSeconds: int, intervalSeconds: int,
      seed: int)
  {
    predicate Valid() {
      userId != "" && symbol != "" && 1 <= quantityMin <= quantityMax && ttlSeconds >= 1 && intervalSeconds >= 1
    }
  }

  datatype Preset = Preset(
    activationMin: int, activationMax: int, delayMin: int, delayMax: int, countMin: int, countMax: int,
    intervalMin: int, intervalMax: int, defaultBuy: int, directionalBuy: int, maxLagMs: int)

  function PresetOf(p: EventPreset): Preset {
    match p
    case MinorNews => Preset(1_000, 3_000, 10_000, 60_000, 1, 2, 2, 5, 5_000, 7_000, 5_000)
    case BreakingNews => Preset(4_000, 8_000, 0, 20_000, 1, 4, 1, 3, 5_000, 8_000, 2_000)
    case MarketPanic => Preset(7_000, 10_000, 0, 3_000, 2, 6, 1, 2, 5_000, 9_000, 1_000)
    case MixedReaction => Preset(4_000, 8_000, 0, 20_000, 1, 4, 1, 3, 5_000, 5_000, 2_000)
    case Rumor => Preset(1_500, 5_000, 10_000, 120_000, 1, 3, 2, 6, 5_000, 6_500, 5_000)
  }

  /** What a seed is for. */
  datatype Purpose = ForEvent | ForActivation(userId: string, seed: int) | ForReaction(userId: string, seed: int)

  /** The hash of the seed parts, and the k-th draw between two bounds from a seed. */
  datatype Dice = Dice(seedOf: (int, string, Purpose) -> int, draw: (int, nat, int, int) -> int)

  ghost predicate Fair(dice: Dice) {
    forall s, k, lo, hi | lo <= hi :: lo <= dice.draw(s, k, lo, hi) <= hi
  }

  datatype ReactionPlan = ReactionPlan(
    userId: string, symbol: string, activated: bool, reactionAfterMs: Option<int>, intervalTicks: int, buyBps: int,
    sides: seq<Side>, quantities: seq<int>, ttls: seq<int>, offsets: seq<int>)
  {
    function OrderCount(): nat {
      |sides|
    }

    /** What the source's constructor insists on. */
    predicate Valid() {
      && userId != "" && symbol != "" && intervalTicks >= 1 && 0 <= buyBps <= BASIS_POINTS
      && |sides| == |quantities| == |ttls| == |offsets|
      && activated == (sides != []) && activated == reactionAfterMs.Some?
      && (reactionAfterMs.Some? ==> reactionAfterMs.value >= 0)
      && (forall q | q in quantities :: q >= 1) && (forall t | t in ttls :: t >= 1)
         && (forall t | t in offsets :: t >= 0)
      && (forall i, j | 0 <= i < j < |offsets| :: offsets[i] <= offsets[j])
    }
  }

  datatype EventPlan =
    EventPlan(event: NewsEvent, tickIntervalMs: int, activationBps: int, maxLagMs: int, reactions: seq<ReactionPlan>)
  {
    predicate Valid() {
      && tickIntervalMs >= 1 && 0 <= activationBps <= BASIS_POINTS && maxLagMs >= 1
      && (forall i, j | 0 <= i < j < |reactions| :: reactions[i].userId != reactions[j].userId)
      && (forall r | r in reactions :: r.symbol == event.symbol)
    }
  }

  datatype Planned<+T> = Plan(value: T) | Duplicate | PayloadConflict | RepeatedUser

  // ----- Arithmetic -----

  function CeilDiv(value: int, divisor: int): (r: int)
    requires divisor >= 1
    ensures r * divisor >= value && (r - 1) * divisor < value
  {
    (value + divisor - 1) / divisor
  }

  function Max(a: int, b: int): int {
    if a >= b then a else b
  }

  function TicksForInterval(intervalSeconds: int, tickIntervalMs: int): (r: int)
    requires tickIntervalMs >= 1
    ensures r >= 1 && r * tickIntervalMs >= intervalSeconds * 1_000
    ensures intervalSeconds >= 1 ==> (r - 1) * tickIntervalMs < intervalSeconds * 1_000
  {
    Max(1, CeilDiv(intervalSeconds * 1_000, tickIntervalMs))
  }

  function ActivationCount(candidates: int, bps: int): int {
    if candidates == 0 || bps == 0 then 0
    else
      var rounded := (candidates * bps + BASIS_POINTS / 2) / BASIS_POINTS;
      if candidates <= Max(1, rounded) then candidates else Max(1, rounded)
  }

  /**
   Between one and all candidates, and within half a unit of the exact share,
   except when a share below one half is forced up to one.
   */
  lemma {:induction false} ActivationIsRounded(n: int, bps: int)
    requires n >= 1 && 1 <= bps <= BASIS_POINTS
    ensures 1 <= ActivationCount(n, bps) <= n
    ensures -BASIS_POINTS < 2 * (ActivationCount(n, bps) * BASIS_POINTS - n * bps)
    ensures 2 * (ActivationCount(n, bps) * BASIS_POINTS - n * bps) <= BASIS_POINTS <==> 2 * (n * bps) >= BASIS_POINTS
    ensures 2 * (n * bps) < BASIS_POINTS ==> ActivationCount(n, bps) == 1
  {
    ShareInRange(n, bps);
    var x := n * bps;
    var rounded := (x + BASIS_POINTS / 2) / BASIS_POINTS;
    RoundedShare(n, x, rounded);
    assert ActivationCount(n, bps) == if n <= Max(1, rounded) then n else Max(1, rounded);
  }

  lemma {:induction false} ShareInRange(n: int, bps: int)
    requires n >= 1 && 1 <= bps <= BASIS_POINTS
    ensures 1 <= n * bps <= n * BASIS_POINTS
  {
  }

  lemma {:induction false} RoundedShare(n: int, x: int, rounded: int)
    requires 1 <= x <= n * BASIS_POINTS && rounded == (x + BASIS_POINTS / 2) / BASIS_POINTS
    ensures 0 <= rounded <= n && -BASIS_POINTS < 2 * (rounded * BASIS_POINTS - x) <= BASIS_POINTS
    ensures rounded == 0 <==> 2 * x < BASIS_POINTS
  {
  }

  // ----- Planning -----

  predicate UserLeq(a: Candidate, b: Candidate) {
    StringLeq(a.userId, b.userId)
  }

  predicate UniqueUsers(cs: seq<Candidate>) {
    forall i, j | 0 <= i < j < |cs| :: cs[i].userId != cs[j].userId
  }

  function Matching(cs: seq<Candidate>, symbol: string): seq<Candidate> {
    if cs == [] then [] else (if cs[0].symbol == symbol then [cs[0]] else []) + Matching(cs[1..], symbol)
  }

  function Eligible(event: NewsEvent, cs: seq<Candidate>): seq<Candidate> {
    SortBy(Matching(cs, event.symbol), UserLeq)
  }

  function ActivationSeed(dice: Dice, event: NewsEvent, c: Candidate): int {
    dice.seedOf(event.seed, event.eventId, ForActivation(c.userId, c.seed))
  }

  /** The candidates with the smallest activation seeds, ties in user order. */
  function Activated(dice: Dice, event: NewsEvent, eligible: seq<Candidate>, count: int): seq<Candidate>
    requires 0 <= count
  {
    var ranked := SortBy(eligible,
      (a: Candidate, b: Candidate) => ActivationSeed(dice, event, a) <= ActivationSeed(dice, event, b));
    if count <= |ranked| then ranked[..count] else ranked
  }

  function BuyProbability(dice: Dice, event: NewsEvent): int {
    var preset := PresetOf(event.preset);
    match event.direction
    case BuyHint => preset.directionalBuy
    case SellHint => BASIS_POINTS - preset.directionalBuy
    case MixedHint => BASIS_POINTS / 2
    case NoHint =>
      if event.preset.MarketPanic? then
        // the second draw picks one of the two
        if dice.draw(dice.seedOf(event.seed, event.eventId, ForEvent), 1, 0, 1) == 0 then preset.directionalBuy
        else BASIS_POINTS - preset.directionalBuy
      else preset.defaultBuy
  }

  function ResolveCandidate(dice: Dice, tickMs: int, event: NewsEvent, c: Candidate, activated: bool,
                            buyBps: int): ReactionPlan
    requires tickMs >= 1
  {
    var ticks := TicksForInterval(c.intervalSeconds, tickMs);
    if !activated then ReactionPlan(c.userId, c.symbol, false, None, ticks, buyBps, [], [], [], [])
    else
      var p := PresetOf(event.preset);
      var seed := dice.seedOf(event.seed, event.eventId, ForReaction(c.userId, c.seed));
      var delay := dice.draw(seed, 0, p.delayMin, p.delayMax);
      var count := Max(0, dice.draw(seed, 1, p.countMin, p.countMax));
      var interval := Max(ticks, dice.draw(seed, 2, p.intervalMin, p.intervalMax));
      var first := CeilDiv(event.startsAfterMs, tickMs) + CeilDiv(delay, tickMs);
      ReactionPlan(
        c.userId, c.symbol, true, Some(delay), interval, buyBps,
        seq(count, i requires 0 <= i < count => if dice.draw(seed, 3 + i, 0, BASIS_POINTS - 1) < buyBps then BUY
          else SELL),
        seq(count, i requires 0 <= i < count => dice.draw(seed, 3 + count + i, c.quantityMin, c.quantityMax)),
        seq(count, i => c.ttlSeconds),
        seq(count, i requires 0 <= i < count => first + i * interval))
  }

  predicate Names(cs: seq<Candidate>, userId: string) {
    exists c :: c in cs && c.userId == userId
  }

  function ResolveAll(dice: Dice, tickMs: int, event: NewsEvent, cs: seq<Candidate>, chosen: seq<Candidate>,
                      buyBps: int): (r: seq<ReactionPlan>)
    requires tickMs >= 1
    ensures |r| == |cs|
    ensures forall i | 0 <= i < |cs| ::
              r[i] == ResolveCandidate(dice, tickMs, event, cs[i], Names(chosen, cs[i].userId), buyBps)
  {
    if cs == [] then []
    else
      [ResolveCandidate(dice, tickMs, event, cs[0], Names(chosen, cs[0].userId), buyBps)]
      + ResolveAll(dice, tickMs, event, cs[1..], chosen, buyBps)
  }

  /** The first draw of the event: how large a share of the candidates reacts. */
  function ActivationRatio(dice: Dice, event: NewsEvent): int {
    var p := PresetOf(event.preset);
    dice.draw(dice.seedOf(event.seed, event.eventId, ForEvent), 0, p.activationMin, p.activationMax)
  }

  function Chosen(dice: Dice, event: NewsEvent, eligible: seq<Candidate>): seq<Candidate> {
    Activated(dice, event, eligible, Max(0, ActivationCount(|eligible|, ActivationRatio(dice, event))))
  }

  function Resolve(dice: Dice, tickMs: int, event: NewsEvent, cs: seq<Candidate>): Planned<EventPlan>
    requires tickMs >= 1
  {
    if !UniqueUsers(cs) then RepeatedUser
    else
      var eligible := Eligible(event, cs);
      Plan(EventPlan(
        event, tickMs, ActivationRatio(dice, event), PresetOf(event.preset).maxLagMs,
        ResolveAll(dice, tickMs, event, eligible, Chosen(dice, event, eligible), BuyProbability(dice, event))))
  }

  // ----- The plan does not depend on the order of the candidates -----

  lemma {:induction false} MatchingCounts(cs: seq<Candidate>, symbol: string, c: Candidate)
    ensures multiset(Matching(cs, symbol))[c] == if c.symbol == symbol then multiset(cs)[c] else 0
  {
    if cs != [] {
      MatchingCounts(cs[1..], symbol, c);
      assert cs == [cs[0]] + cs[1..];
    }
  }

  lemma {:induction false} MatchingPermuted(cs: seq<Candidate>, ds: seq<Candidate>, symbol: string)
    requires multiset(cs) == multiset(ds)
    ensures multiset(Matching(cs, symbol)) == multiset(Matching(ds, symbol))
  {
    forall c: Candidate
      ensures multiset(Matching(cs, symbol))[c] == multiset(Matching(ds, symbol))[c]
    {
      MatchingCounts(cs, symbol, c);
      MatchingCounts(ds, symbol, c);
    }
  }

  lemma {:induction false} UniqueIsCounted(cs: seq<Candidate>)
    ensures UniqueUsers(cs) <==> UniqueCounted(multiset(cs))
  {
    if UniqueUsers(cs) {
      forall c | c in multiset(cs)
        ensures multiset(cs)[c] == 1
      {
        OneOf(cs, c);
      }
    } else {
      var i, j :| 0 <= i < j < |cs| && cs[i].userId == cs[j].userId;
      if cs[i] == cs[j] {
        assert cs == cs[..i] + [cs[i]] + cs[i + 1..j] + [cs[j]] + cs[j + 1..];
        assert multiset(cs)[cs[i]] >= 2;
      } else {
        assert cs[i] in multiset(cs) && cs[j] in multiset(cs);
      }
    }
  }

  ghost predicate UniqueCounted(m: multiset<Candidate>) {
    && (forall c | c in m :: m[c] == 1)
    && (forall c, d | c in m && d in m && c.userId == d.userId :: c == d)
  }

  lemma {:induction false} OneOf(cs: seq<Candidate>, c: Candidate)
    requires UniqueUsers(cs) && c in cs
    ensures multiset(cs)[c] == 1
  {
    assert cs == [cs[0]] + cs[1..];
    if c in cs[1..] {
      assert cs[0] != c;
      OneOf(cs[1..], c);
    } else {
      assert multiset(cs[1..])[c] == 0;
    }
  }

  lemma {:induction false} UserOrderTotal()
    ensures Total(UserLeq)
  {
    forall x: Candidate, y: Candidate
      ensures UserLeq(x, y) || UserLeq(y, x)
    {
      StringLeqTotal(x.userId, y.userId);
    }
    forall x: Candidate, y: Candidate, z: Candidate | UserLeq(x, y) && UserLeq(y, z)
      ensures UserLeq(x, z)
    {
      StringLeqTransitive(x.userId, y.userId, z.userId);
    }
  }

  lemma {:induction false} MatchingUnique(cs: seq<Candidate>, symbol: string)
    requires UniqueUsers(cs)
    ensures UniqueUsers(Matching(cs, symbol))
    ensures forall c | c in Matching(cs, symbol) :: c in cs && c.symbol == symbol
  {
    if cs != [] {
      MatchingUnique(cs[1..], symbol);
      var r := Matching(cs[1..], symbol);
      forall j | 0 <= j < |r|
        ensures r[j].userId != cs[0].userId
      {
        assert r[j] in cs[1..];
      }
    }
  }

  /** The eligible candidates: those of the symbol, each once, in user order. */
  lemma {:induction false} EligibleFacts(event: NewsEvent, cs: seq<Candidate>)
    requires UniqueUsers(cs)
    ensures UniqueUsers(Eligible(event, cs)) && Ordered(Eligible(event, cs), UserLeq)
    ensures multiset(Eligible(event, cs)) == multiset(Matching(cs, event.symbol))
    ensures |Eligible(event, cs)| == |Matching(cs, event.symbol)|
    ensures forall c :: c in Eligible(event, cs) <==> c in cs && c.symbol == event.symbol
  {
    var m, e := Matching(cs, event.symbol), Eligible(event, cs);
    UserOrderTotal();
    SortSorts(m, UserLeq);
    MatchingUnique(cs, event.symbol);
    UniqueIsCounted(m);
    UniqueIsCounted(e);
    forall c: Candidate
      ensures c in e <==> c in cs && c.symbol == event.symbol
    {
      MatchingCounts(cs, event.symbol, c);
      assert c in e <==> c in multiset(e);
      assert c in m <==> c in multiset(m);
      assert c in cs <==> c in multiset(cs);
    }
  }

  lemma {:induction false} UsersTieOnlyWhenEqual(cs: seq<Candidate>)
    requires UniqueUsers(cs)
    ensures Strict(cs, UserLeq)
  {
    forall x, y | x in cs && y in cs && UserLeq(x, y) && UserLeq(y, x)
      ensures x == y
    {
      StringLeqTotal(x.userId, y.userId);
      var i :| 0 <= i < |cs| && cs[i] == x;
      var j :| 0 <= j < |cs| && cs[j] == y;
    }
  }

  /** Whatever order the candidates come in, the plan is the same, and so is the refusal of repeated users. */
  lemma {:induction false} PermutedCandidates(dice: Dice, tickMs: int, event: NewsEvent, cs: seq<Candidate>,
                                              ds: seq<Candidate>)
    requires tickMs >= 1 && multiset(cs) == multiset(ds)
    ensures Resolve(dice, tickMs, event, cs) == Resolve(dice, tickMs, event, ds)
  {
    UniqueIsCounted(cs);
    UniqueIsCounted(ds);
    if UniqueUsers(cs) {
      EligibleFacts(event, cs);
      EligibleFacts(event, ds);
      MatchingPermuted(cs, ds, event.symbol);
      UsersTieOnlyWhenEqual(Eligible(event, cs));
      OneArrangement(Eligible(event, cs), Eligible(event, ds), UserLeq);
    }
  }

  // ----- Exactly the right number of traders is activated -----

  function CountActivated(rs: seq<ReactionPlan>): nat {
    if rs == [] then 0 else (if rs[0].activated then 1 else 0) + CountActivated(rs[1..])
  }

  function CountNamed(cs: seq<Candidate>, chosen: seq<Candidate>): nat {
    if cs == [] then 0 else (if Names(chosen, cs[0].userId) then 1 else 0) + CountNamed(cs[1..], chosen)
  }

  lemma {:induction false} ActivatedAreNamed(dice: Dice, tickMs: int, event: NewsEvent, cs: seq<Candidate>,
                                             chosen: seq<Candidate>, buyBps: int)
    requires tickMs >= 1
    ensures CountActivated(ResolveAll(dice, tickMs, event, cs, chosen, buyBps)) == CountNamed(cs, chosen)
  {
    if cs != [] {
      ActivatedAreNamed(dice, tickMs, event, cs[1..], chosen, buyBps);
    }
  }

  /** Each chosen candidate is one of the listed ones, so exactly |chosen| of them are named. */
  lemma {:induction false} NamedOnce(cs: seq<Candidate>, chosen: seq<Candidate>)
    requires UniqueUsers(cs) && UniqueUsers(chosen) && forall c | c in chosen :: c in cs
    ensures CountNamed(cs, chosen) == |chosen|
    decreases cs
  {
    if cs == [] {
      forall c: Candidate
        ensures multiset(chosen)[c] == 0
      {
        assert c in chosen ==> c in cs;
      }
      assert |multiset(chosen)| == |chosen|;
    } else if Names(chosen, cs[0].userId) {
      var k := PositionOf(cs, chosen);
      var others := chosen[..k] + chosen[k + 1..];
      assert forall x | x in others :: x in cs[1..];
      NamedOnce(cs[1..], others);
      SameNames(cs[1..], chosen, others, cs[0]);
    } else {
      assert forall x | x in chosen :: x in cs[1..];
      NamedOnce(cs[1..], chosen);
    }
  }

  lemma {:induction false} PositionOf(cs: seq<Candidate>, chosen: seq<Candidate>) returns (k: nat)
    requires cs != [] && UniqueUsers(cs) && UniqueUsers(chosen) && Names(chosen, cs[0].userId)
    requires forall c | c in chosen :: c in cs
    ensures k < |chosen| && chosen[k] == cs[0]
    ensures var others := chosen[..k] + chosen[k + 1..];
            && UniqueUsers(others)
            && (forall x | x in others :: x in cs[1..])
            && (forall x | x in others :: x in chosen)
               && (forall x | x in chosen :: x in others || x.userId == cs[0].userId)
  {
    var c :| c in chosen && c.userId == cs[0].userId;
    k :| 0 <= k < |chosen| && chosen[k] == c;
    var i :| 0 <= i < |cs| && cs[i] == c;
    var others := chosen[..k] + chosen[k + 1..];
    forall x | x in others
      ensures x in chosen && x in cs[1..]
    {
      var n :| 0 <= n < |others| && others[n] == x;
      var m := if n < k then n else n + 1;
      assert chosen[m] == x && m != k;
      assert x in cs;
    }
  }

  lemma {:induction false} SameNames(cs: seq<Candidate>, a: seq<Candidate>, b: seq<Candidate>, c: Candidate)
    requires (forall x | x in b :: x in a) && (forall x | x in a :: x in b || x.userId == c.userId)
    requires forall x | x in cs :: x.userId != c.userId
    ensures CountNamed(cs, a) == CountNamed(cs, b)
  {
    if cs != [] {
      assert Names(a, cs[0].userId) == Names(b, cs[0].userId);
      SameNames(cs[1..], a, b, c);
    }
  }

  lemma {:induction false} ActivatedFacts(dice: Dice, event: NewsEvent, eligible: seq<Candidate>, count: int)
    requires UniqueUsers(eligible) && 0 <= count <= |eligible|
    ensures var chosen := Activated(dice, event, eligible, count);
            |chosen| == count && UniqueUsers(chosen) && forall c | c in chosen :: c in eligible
  {
    var bySeed := (a: Candidate, b: Candidate) => ActivationSeed(dice, event, a) <= ActivationSeed(dice, event, b);
    SortSorts(eligible, bySeed);
    var ranked := SortBy(eligible, bySeed);
    UniqueIsCounted(eligible);
    UniqueIsCounted(ranked);
    forall c | c in ranked[..count]
      ensures c in eligible
    {
      assert c in multiset(ranked);
    }
  }

  /** The event activates exactly its rounded share of the candidates of its symbol. */
  lemma {:induction false} ActivatesItsShare(dice: Dice, tickMs: int, event: NewsEvent, cs: seq<Candidate>)
    requires tickMs >= 1 && Fair(dice) && UniqueUsers(cs)
    ensures var plan := Resolve(dice, tickMs, event, cs).value;
            && |plan.reactions| == |Matching(cs, event.symbol)|
            && CountActivated(plan.reactions) == ActivationCount(|Matching(cs, event.symbol)|, plan.activationBps)
            && PresetOf(event.preset).activationMin <= plan.activationBps <= PresetOf(event.preset).activationMax
  {
    hide Eligible, BuyProbability, Activated, ResolveAll, Matching, ActivationCount, CountActivated, PresetOf,
         UniqueUsers;
    var eligible := Eligible(event, cs);
    EligibleFacts(event, cs);
    RatioInRange(dice, event);
    var count := ActivationCount(|eligible|, ActivationRatio(dice, event));
    CountInRange(|eligible|, ActivationRatio(dice, event));
    ActivatedFacts(dice, event, eligible, count);
    var chosen := Activated(dice, event, eligible, count);
    ActivatedAreNamed(dice, tickMs, event, eligible, chosen, BuyProbability(dice, event));
    NamedOnce(eligible, chosen);
  }

  lemma {:induction false} RatioInRange(dice: Dice, event: NewsEvent)
    requires Fair(dice)
    ensures var p := PresetOf(event.preset);
            1 <= p.activationMin <= ActivationRatio(dice, event) <= p.activationMax <= BASIS_POINTS
  {
    var p := PresetOf(event.preset);
    var seed := dice.seedOf(event.seed, event.eventId, ForEvent);
    assert p.activationMin <= p.activationMax;
    assert p.activationMin <= dice.draw(seed, 0, p.activationMin, p.activationMax) <= p.activationMax;
  }

  lemma {:induction false} CountInRange(n: int, bps: int)
    requires n >= 0 && 1 <= bps <= BASIS_POINTS
    ensures 0 <= ActivationCount(n, bps) <= n
  {
    if n >= 1 {
      ActivationIsRounded(n, bps);
    }
  }

  // ----- Every plan passes the checks of its own constructor -----

  lemma {:induction false} OffsetsGrow(first: int, interval: int, i: int, j: int)
    requires first >= 0 && interval >= 1 && 0 <= i < j
    ensures 0 <= first + i * interval <= first + j * interval
  {
    assert (j - i) * interval >= 0 && i * interval >= 0;
    assert (j - i) * interval == j * interval - i * interval;
  }

  /**
   Every draw of a reaction stays in its range; orders start on the first ticks after event and
   delay, at even intervals.
   */
  lemma {:induction false} ReactionIsValid(dice: Dice, tickMs: int, event: NewsEvent, c: Candidate, activated: bool,
                                           buyBps: int)
    requires tickMs >= 1 && Fair(dice) && c.Valid() && event.startsAfterMs >= 0 && 0 <= buyBps <= BASIS_POINTS
    ensures var r := ResolveCandidate(dice, tickMs, event, c, activated, buyBps);
            var p, least := PresetOf(event.preset), TicksForInterval(c.intervalSeconds, tickMs);
            && r.Valid() && r.activated == activated && r.userId == c.userId && r.symbol == c.symbol
            && r.buyBps == buyBps && least <= r.intervalTicks
            && (activated ==>
                  && p.countMin <= r.OrderCount() <= p.countMax && p.delayMin <= r.reactionAfterMs.value <= p.delayMax
                  && p.intervalMin <= r.intervalTicks <= Max(least, p.intervalMax)
                  && (forall q | q in r.quantities :: c.quantityMin <= q <= c.quantityMax)
                  && (forall t | t in r.ttls :: t == c.ttlSeconds)
                  && InTime(event.startsAfterMs + r.reactionAfterMs.value, r.offsets[0], tickMs)
                  && (forall i | 0 < i < r.OrderCount() :: r.offsets[i] == r.offsets[i - 1] + r.intervalTicks))
  {
    hide CeilDiv, TicksForInterval, InTime;
    var r := ResolveCandidate(dice, tickMs, event, c, activated, buyBps);
    if activated {
      var first := CeilDiv(event.startsAfterMs, tickMs) + CeilDiv(r.reactionAfterMs.value, tickMs);
      StartsInTime(event.startsAfterMs, r.reactionAfterMs.value, tickMs);
      assert r.offsets[0] == first + 0 * r.intervalTicks == first;
      OffsetsAre(first, r.intervalTicks, r.offsets);
    }
  }

  /** The tick is not before `dueMs`, and less than two ticks after it. */
  predicate InTime(dueMs: int, tick: int, tickMs: int) {
    dueMs <= tick * tickMs < dueMs + 2 * tickMs
  }

  lemma {:induction false} OffsetsAre(first: int, interval: int, offsets: seq<int>)
    requires first >= 0 && interval >= 1 && forall i | 0 <= i < |offsets| :: offsets[i] == first + i * interval
    ensures forall i, j | 0 <= i < j < |offsets| :: offsets[i] <= offsets[j]
    ensures forall t | t in offsets :: t >= 0
    ensures forall i | 0 < i < |offsets| :: offsets[i] == offsets[i - 1] + interval
  {
    forall i, j | 0 <= i < j < |offsets|
      ensures offsets[i] <= offsets[j]
    {
      OffsetsGrow(first, interval, i, j);
    }
    forall t | t in offsets
      ensures t >= 0
    {
      var i :| 0 <= i < |offsets| && offsets[i] == t;
      OffsetsGrow(first, interval, i, i + 1);
    }
    forall i | 0 < i < |offsets|
      ensures offsets[i] == offsets[i - 1] + interval
    {
      assert i * interval == (i - 1) * interval + interval;
    }
  }

  lemma {:induction false} StartsInTime(start: int, delay: int, tickMs: int)
    requires tickMs >= 1 && start >= 0 && delay >= 0
    ensures CeilDiv(start, tickMs) >= 0 && CeilDiv(delay, tickMs) >= 0
    ensures InTime(start + delay, CeilDiv(start, tickMs) + CeilDiv(delay, tickMs), tickMs)
  {
    var a, b := CeilDiv(start, tickMs), CeilDiv(delay, tickMs);
    assert (a + b) * tickMs == a * tickMs + b * tickMs;
    assert (a - 1) * tickMs == a * tickMs - tickMs && (b - 1) * tickMs == b * tickMs - tickMs;
  }

  lemma {:induction false} PlanIsValid(dice: Dice, tickMs: int, event: NewsEvent, cs: seq<Candidate>)
    requires tickMs >= 1 && Fair(dice) && event.startsAfterMs >= 0 && UniqueUsers(cs) && forall c | c in cs :: c.Valid()
    ensures var plan := Resolve(dice, tickMs, event, cs).value;
            plan.Valid() && forall r | r in plan.reactions :: r.Valid()
  {
    hide Eligible, BuyProbability, Activated, Matching, ActivationCount, UniqueUsers, ReactionPlan.Valid, Names,
         ResolveCandidate, PresetOf, Chosen;
    EligibleFacts(event, cs);
    RatioInRange(dice, event);
    BuyInRange(dice, event);
    var eligible := Eligible(event, cs);
    var plan := Resolve(dice, tickMs, event, cs).value;
    var buyBps := BuyProbability(dice, event);
    var chosen := Chosen(dice, event, eligible);
    forall i | 0 <= i < |plan.reactions|
      ensures plan.reactions[i].Valid() && plan.reactions[i].userId == eligible[i].userId
      ensures plan.reactions[i].symbol == event.symbol
    {
      assert eligible[i] in eligible;
      ReactionIsValid(dice, tickMs, event, eligible[i], Names(chosen, eligible[i].userId), buyBps);
    }
    DistinctUsers(eligible);
  }

  lemma {:induction false} DistinctUsers(cs: seq<Candidate>)
    requires UniqueUsers(cs)
    ensures forall i, j | 0 <= i < j < |cs| :: cs[i].userId != cs[j].userId
  {
  }

  lemma {:induction false} BuyInRange(dice: Dice, event: NewsEvent)
    ensures 0 <= BuyProbability(dice, event) <= BASIS_POINTS && PresetOf(event.preset).maxLagMs >= 1
  {
  }

  lemma {:induction false} ReactionsAreCandidates(dice: Dice, tickMs: int, event: NewsEvent, cs: seq<Candidate>)
    requires tickMs >= 1 && UniqueUsers(cs)
    ensures Resolve(dice, tickMs, event, cs).Plan?
    ensures forall r | r in Resolve(dice, tickMs, event, cs).value.reactions ::
              exists c :: c in cs && c.userId == r.userId && c.symbol == r.symbol
  {
    hide Eligible, BuyProbability, Chosen, UniqueUsers, Names, PresetOf;
    EligibleFacts(event, cs);
    var eligible := Eligible(event, cs);
    var rs := Resolve(dice, tickMs, event, cs).value.reactions;
    forall r | r in rs
      ensures exists c :: c in cs && c.userId == r.userId && c.symbol == r.symbol
    {
      var i :| 0 <= i < |rs| && rs[i] == r;
      assert eligible[i] in eligible;
    }
  }

  /** Plans each event id once. */
  class ReactionPlanner {
    const dice: Dice
    const tickMs: int
    var processed: map<string, NewsEvent>

    constructor (dice: Dice, tickMs: int)
      requires tickMs >= 1
      ensures processed == map[] && this.dice == dice && this.tickMs == tickMs
    {
      this.dice, this.tickMs, processed := dice, tickMs, map[];
    }

    /**
     A known id is a duplicate, or a conflict if anything in the event differs; a new one is planned
     and remembered.
     */
    method PlanOnce(event: NewsEvent, candidates: seq<Candidate>) returns (r: Planned<EventPlan>)
      requires tickMs >= 1
      modifies this
      ensures r == Duplicate <==> event.eventId in old(processed) && old(processed)[event.eventId] == event
      ensures r == PayloadConflict <==> event.eventId in old(processed) && old(processed)[event.eventId] != event
      ensures event.eventId !in old(processed) ==> r == Resolve(dice, tickMs, event, candidates)
      ensures processed == if r.Plan? then old(processed)[event.eventId := event] else old(processed)
    {
      if event.eventId in processed {
        r := if processed[event.eventId] != event then PayloadConflict else Duplicate;
        return;
      }
      r := Resolve(dice, tickMs, event, candidates);
      if r.Plan? {
        processed := processed[event.eventId := event];
      }
    }
  }
}

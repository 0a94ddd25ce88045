/**
 The inbox, one polling runner and its planner as a step system: replies and
 acknowledgements may be lost, other readers may age the rows, and requests are
 atomic. The runner applies a batch one event at a time and acknowledges each.
 */
module InboxRuns {
  import opened OrderTypes
  import opened ReactionPlanning
  import opened EventMemory
  import opened EventInbox

  /** An event as the poll returned it. */
  datatype Delivery = Delivery(id: string, payload: Payload)

  datatype World = World(
    rows: Rows,
    processed: Events,            // the planner's memory
    live: Events,                 // the coordinator's memory of polled events
    queue: seq<Delivery>,         // polled, not yet applied
    toAck: Option<string>,        // applied, acknowledgement not yet sent
    plannedIds: seq<string>)      // polled events in the order they were planned

  const START := World(map[], map[], map[], [], None, [])

  datatype Step =
    | Ingest(id: string, payload: Payload)
    | Age(cutoff: int)                                             // somebody else polls
    | PollInbox(cutoff: int, symbols: seq<string>, ids: seq<string>, arrives: bool)
    | Apply(startsAfterMs: int)                                    // raises on a conflict; then no acknowledgement
    | Acknowledge(arrives: bool)
    | PlanFixture(event: NewsEvent)

  function DeliveriesOf(rows: Rows, ids: seq<string>): seq<Delivery>
    requires forall id | id in ids :: id in rows
  {
    if ids == [] then [] else [Delivery(ids[0], rows[ids[0]].payload)] + DeliveriesOf(rows, ids[1..])
  }

  function EventOf(d: Delivery, startsAfterMs: int): NewsEvent {
    LiveEvent(d.id, d.payload.symbol, d.payload.direction, d.payload.impact, d.payload.headline, d.payload.origin,
      startsAfterMs)
  }

  function Verdict(w: World, startsAfterMs: int): Applied
    requires w.queue != []
  {
    Recognise(w.processed, w.live, EventOf(w.queue[0], startsAfterMs), w.queue[0].payload.impact)
  }

  ghost predicate Possible(w: World, s: Step, fixtures: set<string>) {
    match s
    case Ingest(id, payload) => true
    case Age(cutoff) => true
    case PollInbox(cutoff, symbols, ids, arrives) =>
      w.queue == [] && w.toAck == None && IsBatch(AllAged(w.rows, cutoff), symbols, ids)
    case Apply(startsAfterMs) => w.queue != [] && w.toAck == None && startsAfterMs >= 0
    case Acknowledge(arrives) => w.toAck.Some?
    case PlanFixture(event) => event.eventId in fixtures && event.eventId !in w.processed
  }

  ghost function Next(w: World, s: Step, fixtures: set<string>): World
    requires Possible(w, s, fixtures)
  {
    match s
    case Ingest(id, payload) => w.(rows := WithEvent(w.rows, id, payload))
    case Age(cutoff) => w.(rows := AllAged(w.rows, cutoff))
    case PollInbox(cutoff, symbols, ids, arrives) =>
      var rows := AllAged(w.rows, cutoff);
      w.(rows := rows, queue := if arrives then DeliveriesOf(rows, ids) else [])
    case Apply(startsAfterMs) =>
      var d := EventOf(w.queue[0], startsAfterMs);
      var r := Verdict(w, startsAfterMs);
      w.(processed := ProcessedAfter(w.processed, d, r), live := LiveAfter(w.live, d),
         queue := w.queue[1..], toAck := if r == Conflict then None else Some(w.queue[0].id),
         plannedIds := if r == Fresh then w.plannedIds + [w.queue[0].id] else w.plannedIds)
    case Acknowledge(arrives) =>
      w.(rows := if arrives then WithAck(w.rows, w.toAck.value) else w.rows, toAck := None)
    case PlanFixture(event) => w.(processed := w.processed[event.eventId := event])
  }

  // ----- What always holds -----

  predicate Matches(e: NewsEvent, id: string, p: Payload) {
    e.eventId == id && SamePayload(e, p.symbol, p.direction, p.impact, p.headline, p.origin)
  }

  ghost predicate Dispatches(w: World) {
    && (forall id | id in w.rows && w.rows[id].state.Dispatched? :: id in w.processed)
    && (w.toAck.Some? ==> w.toAck.value in w.processed)
  }

  /** What is under way says what the row says. */
  ghost predicate Deliveries(w: World) {
    forall i | 0 <= i < |w.queue| :: w.queue[i].id in w.rows && w.queue[i].payload == w.rows[w.queue[i].id].payload
  }

  /** The memories agree with the rows and with each other, fixtures apart. */
  ghost predicate Remembered(w: World, fixtures: set<string>) {
    && (forall id | id in w.live :: id in w.rows && Matches(w.live[id], id, w.rows[id].payload))
    && (forall id | id in w.processed :: id in fixtures || (id in w.live && w.processed[id] == w.live[id]))
    && (forall id | id in w.live :: id in w.processed)
  }

  /** The planned ids are distinct, and exactly the non-fixture ones the planner knows. */
  ghost predicate PlannedOnce(w: World, fixtures: set<string>) {
    && (forall i, j | 0 <= i < j < |w.plannedIds| :: w.plannedIds[i] != w.plannedIds[j])
    && (forall id | id in w.plannedIds :: id in w.processed)
    && (forall id | id in w.processed && id !in fixtures :: id in w.plannedIds)
  }

  ghost predicate WorldOk(w: World, fixtures: set<string>) {
    Dispatches(w) && Deliveries(w) && Remembered(w, fixtures) && PlannedOnce(w, fixtures)
  }

  // ----- Every step keeps it -----

  lemma {:induction false} Aging(rows: Rows, cutoff: int)
    ensures AllAged(rows, cutoff).Keys == rows.Keys
    ensures forall id | id in rows :: AllAged(rows, cutoff)[id].payload == rows[id].payload
    ensures forall id | id in rows ::
              AllAged(rows, cutoff)[id].state == rows[id].state
              || (rows[id].state.Pending? && AllAged(rows, cutoff)[id].state.Stale?)
  {
  }

  lemma {:induction false} AgeKeeps(w: World, cutoff: int, fixtures: set<string>)
    requires WorldOk(w, fixtures)
    ensures WorldOk(w.(rows := AllAged(w.rows, cutoff)), fixtures)
  {
    hide AllAged, Matches;
    Aging(w.rows, cutoff);
  }

  lemma {:induction false} Delivered(rows: Rows, ids: seq<string>)
    requires forall id | id in ids :: id in rows
    ensures forall d | d in DeliveriesOf(rows, ids) :: d.id in rows && d.payload == rows[d.id].payload
  {
    if ids != [] {
      Delivered(rows, ids[1..]);
    }
  }

  lemma {:induction false} PollKeeps(w: World, cutoff: int, symbols: seq<string>, ids: seq<string>, arrives: bool,
                                     fixtures: set<string>)
    requires WorldOk(w, fixtures) && Possible(w, PollInbox(cutoff, symbols, ids, arrives), fixtures)
    ensures WorldOk(Next(w, PollInbox(cutoff, symbols, ids, arrives), fixtures), fixtures)
  {
    hide AllAged, Dispatches, Remembered, PlannedOnce;
    AgeKeeps(w, cutoff, fixtures);
    var aged := w.(rows := AllAged(w.rows, cutoff));
    Delivered(aged.rows, ids);
    var w' := Next(w, PollInbox(cutoff, symbols, ids, arrives), fixtures);
    assert forall i | 0 <= i < |w'.queue| :: w'.queue[i] in w'.queue;
    SameMemories(aged, w', fixtures);
  }

  lemma {:induction false} SameMemories(w: World, w': World, fixtures: set<string>)
    requires Dispatches(w) && Remembered(w, fixtures) && PlannedOnce(w, fixtures)
    requires w' == w.(queue := w'.queue)
    ensures Dispatches(w') && Remembered(w', fixtures) && PlannedOnce(w', fixtures)
  {
  }

  lemma {:induction false} IngestKeeps(w: World, id: string, payload: Payload, fixtures: set<string>)
    requires WorldOk(w, fixtures)
    ensures WorldOk(Next(w, Ingest(id, payload), fixtures), fixtures)
  {
    hide Matches;
  }

  /** The event a delivery stands for: the one first delivered under its id. */
  function StandsFor(w: World, startsAfterMs: int): NewsEvent
    requires w.queue != []
  {
    var d := w.queue[0];
    if d.id in w.live then w.live[d.id] else EventOf(d, startsAfterMs)
  }

  /**
   A first delivery is planned and a repeat recognised at whatever tick. It is refused
   exactly when the planner knows its id with another event, which takes a fixture's id.
   */
  lemma {:induction false} VerdictOnDelivery(w: World, startsAfterMs: int, fixtures: set<string>)
    requires WorldOk(w, fixtures) && w.queue != []
    ensures Verdict(w, startsAfterMs) == Fresh <==> w.queue[0].id !in w.processed
    ensures Verdict(w, startsAfterMs) == Conflict <==>
              w.queue[0].id in w.processed && w.processed[w.queue[0].id] != StandsFor(w, startsAfterMs)
    ensures w.queue[0].id in w.processed && w.queue[0].id !in fixtures ==> Verdict(w, startsAfterMs) == Again
    ensures Verdict(w, startsAfterMs) == Conflict ==> w.queue[0].id in fixtures
  {
  }

  lemma {:induction false} ApplyKeeps(w: World, startsAfterMs: int, fixtures: set<string>)
    requires WorldOk(w, fixtures) && Possible(w, Apply(startsAfterMs), fixtures)
    ensures WorldOk(Next(w, Apply(startsAfterMs), fixtures), fixtures)
  {
    hide Recognise;
    VerdictOnDelivery(w, startsAfterMs, fixtures);
    RecogniseInput(w, startsAfterMs);
  }

  lemma {:induction false} RecogniseInput(w: World, startsAfterMs: int)
    requires w.queue != []
    ensures Verdict(w, startsAfterMs) != BadInput
  {
  }

  lemma {:induction false} AcknowledgeKeeps(w: World, arrives: bool, fixtures: set<string>)
    requires WorldOk(w, fixtures) && w.toAck.Some?
    ensures WorldOk(Next(w, Acknowledge(arrives), fixtures), fixtures)
  {
    hide Matches;
  }

  lemma {:induction false} FixtureKeeps(w: World, event: NewsEvent, fixtures: set<string>)
    requires WorldOk(w, fixtures) && Possible(w, PlanFixture(event), fixtures)
    ensures WorldOk(Next(w, PlanFixture(event), fixtures), fixtures)
  {
    hide Matches;
  }

  lemma {:induction false} StepKeeps(w: World, s: Step, fixtures: set<string>)
    requires WorldOk(w, fixtures) && Possible(w, s, fixtures)
    ensures WorldOk(Next(w, s, fixtures), fixtures)
  {
    hide WorldOk;
    match s
    case Ingest(id, payload) => IngestKeeps(w, id, payload, fixtures);
    case Age(cutoff) => AgeKeeps(w, cutoff, fixtures);
    case PollInbox(cutoff, symbols, ids, arrives) => PollKeeps(w, cutoff, symbols, ids, arrives, fixtures);
    case Apply(startsAfterMs) => ApplyKeeps(w, startsAfterMs, fixtures);
    case Acknowledge(arrives) => AcknowledgeKeeps(w, arrives, fixtures);
    case PlanFixture(event) => FixtureKeeps(w, event, fixtures);
  }

  // ----- Runs -----

  ghost predicate Run(w: World, steps: seq<Step>, fixtures: set<string>, w': World)
    decreases |steps|
  {
    if steps == [] then w' == w
    else Possible(w, steps[0], fixtures) && Run(Next(w, steps[0], fixtures), steps[1..], fixtures, w')
  }

  lemma {:induction false} RunKeeps(w: World, steps: seq<Step>, fixtures: set<string>, w': World)
    requires WorldOk(w, fixtures) && Run(w, steps, fixtures, w')
    ensures WorldOk(w', fixtures)
    decreases |steps|
  {
    if steps != [] {
      hide WorldOk;
      StepKeeps(w, steps[0], fixtures);
      RunKeeps(Next(w, steps[0], fixtures), steps[1..], fixtures, w');
    }
  }

  /** After any run: every dispatched event has been planned, a polled one exactly once. */
  lemma {:induction false} DispatchedWasPlannedOnce(steps: seq<Step>, fixtures: set<string>, w: World, id: string)
    requires Run(START, steps, fixtures, w) && id in w.rows && w.rows[id].state.Dispatched?
    ensures id in w.processed
    ensures id !in fixtures ==> multiset(w.plannedIds)[id] == 1
  {
    assert WorldOk(START, fixtures);
    RunKeeps(START, steps, fixtures, w);
    if id !in fixtures {
      CountOne(w.plannedIds, id);
    }
  }

  lemma {:induction false} CountOne(ids: seq<string>, id: string)
    requires id in ids && forall i, j | 0 <= i < j < |ids| :: ids[i] != ids[j]
    ensures multiset(ids)[id] == 1
  {
    assert ids == [ids[0]] + ids[1..];
    if id in ids[1..] {
      assert ids[0] != id;
      CountOne(ids[1..], id);
    } else {
      assert multiset(ids[1..])[id] == 0;
    }
  }

  /** One event, waiting since instant 0. */
  const POLLED := Payload("S", NoHint, Low, "polled", "inbox", None, 0, "")

  /** A fixture is planned, an event with its id comes in, is polled and applied. */
  function CollidingSteps(fixture: NewsEvent): seq<Step> {
    [PlanFixture(fixture), Ingest(fixture.eventId, POLLED), PollInbox(0, ["S"], [fixture.eventId], true)]
  }

  /** With a fixture of other content, the delivery is refused; nothing is acknowledged, so the row keeps waiting. */
  lemma {:induction false} CollidingDelivery(fixture: NewsEvent, startsAfterMs: int)
    requires fixture.headline != "polled" && startsAfterMs >= 0
    ensures var fixtures, id := {fixture.eventId}, fixture.eventId;
            exists w :: Run(START, CollidingSteps(fixture), fixtures, w) && w.queue != []
              && Verdict(w, startsAfterMs) == Conflict
                        && Possible(w, Apply(startsAfterMs), fixtures)
                        && Next(w, Apply(startsAfterMs), fixtures).toAck == None
                        && id in Next(w, Apply(startsAfterMs), fixtures).rows
                           && Next(w, Apply(startsAfterMs), fixtures).rows[id].state.Pending?
  {
    var fixtures, id := {fixture.eventId}, fixture.eventId;
    var rows: Rows := map[id := Row(POLLED, Pending)];
    var w1 := START.(processed := map[id := fixture]);
    var w2 := w1.(rows := rows);
    var w3 := w2.(queue := [Delivery(id, POLLED)]);
    var steps := CollidingSteps(fixture);
    assert Next(START, steps[0], fixtures) == w1;
    assert Next(w1, steps[1], fixtures) == w2;
    assert AllAged(rows, 0) == rows;
    assert IsBatch(rows, ["S"], [id]);
    assert DeliveriesOf(rows, [id]) == [Delivery(id, POLLED)] + DeliveriesOf(rows, []);
    assert Next(w2, steps[2], fixtures) == w3;
    assert steps[1..][1..] == steps[2..] && steps[2..][1..] == [];
    assert Run(w3, [], fixtures, w3) && Run(w2, steps[2..], fixtures, w3) && Run(w1, steps[1..], fixtures, w3);
    assert Run(START, steps, fixtures, w3);
  }

  /** Rows are never lost or rewritten, and leave "pending" at most once. */
  ghost predicate Advanced(before: Rows, after: Rows) {
    forall id | id in before ::
      && id in after && after[id].payload == before[id].payload
      && (after[id].state == before[id].state || before[id].state.Pending?)
  }

  lemma {:induction false} StepAdvances(w: World, s: Step, fixtures: set<string>)
    requires Possible(w, s, fixtures)
    ensures Advanced(w.rows, Next(w, s, fixtures).rows)
  {
    match s
    case Age(cutoff) => Aging(w.rows, cutoff);
    case PollInbox(cutoff, symbols, ids, arrives) => Aging(w.rows, cutoff);
    case _ =>
  }

  lemma {:induction false} RunAdvances(w: World, steps: seq<Step>, fixtures: set<string>, w': World)
    requires Run(w, steps, fixtures, w')
    ensures Advanced(w.rows, w'.rows)
    decreases |steps|
  {
    if steps != [] {
      StepAdvances(w, steps[0], fixtures);
      RunAdvances(Next(w, steps[0], fixtures), steps[1..], fixtures, w');
    }
  }
}

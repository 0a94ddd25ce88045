/**
 What the coordinator and its planner remember of events: how a delivery or a
 fixture is judged by it, and which fixtures are accepted together.
 */
module EventMemory {
  import opened ReactionPlanning

  datatype Impact = Low | Medium | High

  function PresetFor(impact: Impact): EventPreset {
    match impact
    case Low => MinorNews
    case Medium => BreakingNews
    case High => MarketPanic
  }

  /** The fields a repeated delivery must agree on; the start time is not one of them. */
  predicate SamePayload(e: NewsEvent, symbol: string, direction: DirectionHint, impact: Impact, headline: string,
                        origin: string) {
    e.symbol == symbol && e.preset == PresetFor(impact) && e.direction == direction && e.headline == headline
      && e.source == origin
  }

  /** What applying a polled event came to. */
  datatype Applied = BadInput | Conflict | Again | Fresh

  type Events = map<string, NewsEvent>

  function LiveEvent(id: string, symbol: string, direction: DirectionHint, impact: Impact, headline: string,
                     origin: string, startsAfterMs: int): NewsEvent {
    NewsEvent(id, symbol, startsAfterMs, PresetFor(impact), direction, headline, origin, 42)
  }

  /** What the planner makes of an event: unknown ids are planned, known ones compared. */
  function Judge(processed: Events, event: NewsEvent): Applied {
    if event.eventId !in processed then Fresh
    else if processed[event.eventId] == event then Again
    else Conflict
  }

  /** A delivery, judged by the events remembered from earlier deliveries and by the planner. */
  function Recognise(processed: Events, live: Events, delivered: NewsEvent, impact: Impact): Applied {
    var id := delivered.eventId;
    if id !in live then Judge(processed, delivered)
    else if !SamePayload(live[id], delivered.symbol, delivered.direction, impact, delivered.headline, delivered.source)
      then Conflict
    else Judge(processed, live[id])
  }

  function LiveAfter(live: Events, delivered: NewsEvent): Events {
    if delivered.eventId in live then live else live[delivered.eventId := delivered]
  }

  function ProcessedAfter(processed: Events, delivered: NewsEvent, r: Applied): Events {
    if r.Fresh? then processed[delivered.eventId := delivered] else processed
  }

  /** The lag each planned event tolerates. */
  function Lags(processed: Events): map<string, int> {
    map e | e in processed :: PresetOf(processed[e].preset).maxLagMs
  }

  lemma {:induction false} LagsMore(processed: Events, event: NewsEvent)
    ensures Lags(processed[event.eventId := event]) == Lags(processed)[event.eventId := PresetOf(event.preset).maxLagMs]
    ensures Lags(processed).Keys == processed.Keys
    ensures Lags(processed[event.eventId := event]).Keys == processed.Keys + {event.eventId}
  {
  }

  // ----- Fixtures -----

  /** What the planner remembers after these events, first come first kept. */
  function Absorbed(processed: Events, due: seq<NewsEvent>): Events {
    if due == [] then processed
    else
      var n := |due| - 1;
      var p := Absorbed(processed, due[..n]);
      ProcessedAfter(p, due[n], Judge(p, due[n]))
  }

  /** How many of these events the planner recognises as repeats. */
  function Repeats(processed: Events, due: seq<NewsEvent>): nat {
    if due == [] then 0
    else
      var n := |due| - 1;
      Repeats(processed, due[..n]) + if Judge(Absorbed(processed, due[..n]), due[n]) == Again then 1 else 0
  }

  lemma {:induction false} RepeatsMore(processed: Events, due: seq<NewsEvent>, i: nat)
    requires i < |due|
    ensures Repeats(processed, due[..i + 1]) ==
              Repeats(processed, due[..i]) + if Judge(Absorbed(processed, due[..i]), due[i]) == Again then 1 else 0
    ensures Repeats(processed, []) == 0
  {
    assert due[..i + 1][..i] == due[..i];
  }

  /** No event's id is known with another event, before or among them. */
  predicate Agreeing(processed: Events, due: seq<NewsEvent>) {
    && (forall k | 0 <= k < |due| && due[k].eventId in processed :: processed[due[k].eventId] == due[k])
    && (forall j, k | 0 <= j < k < |due| && due[j].eventId == due[k].eventId :: due[j] == due[k])
  }

  /** The events were all planned or recognised, one after the other. */
  predicate NoConflict(processed: Events, due: seq<NewsEvent>) {
    forall k | 0 <= k < |due| :: Judge(Absorbed(processed, due[..k]), due[k]) != Conflict
  }

  lemma {:induction false} AbsorbedKeeps(processed: Events, due: seq<NewsEvent>)
    ensures forall id | id in processed ::
              id in Absorbed(processed, due) && Absorbed(processed, due)[id] == processed[id]
    ensures forall id | id in Absorbed(processed, due) && id !in processed :: exists k ::
              0 <= k < |due| && due[k].eventId == id
  {
    if due != [] {
      var n := |due| - 1;
      AbsorbedKeeps(processed, due[..n]);
      forall id | id in Absorbed(processed, due) && id !in processed
        ensures exists k :: 0 <= k < |due| && due[k].eventId == id
      {
        if id in Absorbed(processed, due[..n]) {
          var k :| 0 <= k < n && due[..n][k].eventId == id;
          assert due[k].eventId == id;
        } else {
          assert due[n].eventId == id;
        }
      }
    }
  }

  /** Agreeing events are all remembered as they are. */
  lemma {:induction false} AbsorbedAgreeing(processed: Events, due: seq<NewsEvent>)
    requires Agreeing(processed, due)
    ensures forall k | 0 <= k < |due| ::
              due[k].eventId in Absorbed(processed, due) && Absorbed(processed, due)[due[k].eventId] == due[k]
  {
    if due != [] {
      var n := |due| - 1;
      var p := Absorbed(processed, due[..n]);
      AbsorbedAgreeing(processed, due[..n]);
      AbsorbedKeeps(processed, due[..n]);
      if due[n].eventId in p && due[n].eventId !in processed {
        var k :| 0 <= k < n && due[..n][k].eventId == due[n].eventId;
        assert due[k] == due[n];
      }
      forall k | 0 <= k < n
        ensures due[k].eventId in Absorbed(processed, due) && Absorbed(processed, due)[due[k].eventId] == due[k]
      {
        assert due[..n][k] == due[k];
      }
    }
  }

  /** Exactly agreeing events are all accepted. */
  lemma {:induction false} AcceptedIffAgreeing(processed: Events, due: seq<NewsEvent>)
    ensures NoConflict(processed, due) <==> Agreeing(processed, due)
  {
    if due != [] {
      var n := |due| - 1;
      AcceptedIffAgreeing(processed, due[..n]);
      PrefixConflicts(processed, due);
      PrefixAgrees(processed, due);
    }
  }

  lemma {:induction false} PrefixConflicts(processed: Events, due: seq<NewsEvent>)
    requires due != []
    ensures var n := |due| - 1;
            NoConflict(processed, due) <==>
              NoConflict(processed, due[..n]) && Judge(Absorbed(processed, due[..n]), due[n]) != Conflict
  {
    hide Absorbed, Judge;
    var n := |due| - 1;
    forall k | 0 <= k < n
      ensures due[..n][..k] == due[..k] && due[..n][k] == due[k]
    {
    }
  }

  lemma {:induction false} PrefixAgrees(processed: Events, due: seq<NewsEvent>)
    requires due != []
    ensures var n := |due| - 1;
            Agreeing(processed, due) <==>
              Agreeing(processed, due[..n]) && Judge(Absorbed(processed, due[..n]), due[n]) != Conflict
  {
    hide Absorbed;
    var n := |due| - 1;
    var init, p := due[..n], Absorbed(processed, due[..n]);
    assert forall k | 0 <= k < n :: init[k] == due[k];
    if Agreeing(processed, init) {
      AbsorbedKeeps(processed, init);
      AbsorbedAgreeing(processed, init);
      if Judge(p, due[n]) != Conflict {
        forall j | 0 <= j < n && due[j].eventId == due[n].eventId
          ensures due[j] == due[n]
        {
          assert init[j].eventId in p && p[init[j].eventId] == init[j];
        }
      } else if due[n].eventId !in processed {
        var j :| 0 <= j < |init| && init[j].eventId == due[n].eventId;
        assert p[init[j].eventId] == init[j];
      }
    }
  }

  function Outcome(p: Planned<EventPlan>): Applied {
    match p
    case Plan(_) => Fresh
    case Duplicate => Again
    case PayloadConflict => Conflict
    case RepeatedUser => Conflict
  }
}

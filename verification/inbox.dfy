/**
 The market-event inbox of the matcher, the runner that polls it, and the planner
 behind the runner, with lost replies and lost acknowledgements: a row leaves
 "pending" once, a dispatched event has been planned, and no event is planned twice.
 */
module EventInbox {
  import opened OrderTypes
  import opened Sorting
  import opened ReactionPlanning
  import opened EventMemory

  datatype RowState = Pending | Dispatched | Stale

  /** What the analyzer sent; `rest` stands for the fields no one here reads. */
  datatype Payload = Payload(
    symbol: string, direction: DirectionHint, impact: Impact, headline: string, origin: string,
    occurredAt: Option<int>, detectedAt: int, rest: string)

  datatype Row = Row(payload: Payload, state: RowState)

  type Rows = map<string, Row>

  datatype Ingested = Accepted | AlreadyThere(state: RowState) | Mismatch

  datatype Acked = Acknowledged | Repeated | RefusedStale | Missing

  const BATCH: nat := 100

  /** When the event happened, or was noticed if that is unknown. */
  function ReferenceTime(p: Payload): int {
    match p.occurredAt
    case Some(t) => t
    case None => p.detectedAt
  }

  function Aged(row: Row, cutoff: int): Row {
    if row.state.Pending? && ReferenceTime(row.payload) < cutoff then row.(state := Stale) else row
  }

  function AllAged(rows: Rows, cutoff: int): Rows {
    map id | id in rows :: Aged(rows[id], cutoff)
  }

  function WithEvent(rows: Rows, id: string, p: Payload): Rows {
    if id in rows then rows else rows[id := Row(p, Pending)]
  }

  function WithAck(rows: Rows, id: string): Rows {
    if id in rows && rows[id].state.Pending? then rows[id := rows[id].(state := Dispatched)] else rows
  }

  function DetectedAt(rows: Rows, id: string): int {
    if id in rows then rows[id].payload.detectedAt else 0
  }

  /** The order in which pending events are handed out: detection time, then id. */
  predicate Earlier(rows: Rows, a: string, b: string) {
    DetectedAt(rows, a) < DetectedAt(rows, b) || (DetectedAt(rows, a) == DetectedAt(rows, b) && StringLeq(a, b))
  }

  function ByAge(rows: Rows): (string, string) -> bool {
    (a: string, b: string) => Earlier(rows, a, b)
  }

  lemma {:induction false} ByAgeTotal(rows: Rows)
    ensures Total(ByAge(rows))
  {
    var leq := ByAge(rows);
    forall x: string, y: string
      ensures leq(x, y) || leq(y, x)
    {
      StringLeqTotal(x, y);
    }
    forall x: string, y: string, z: string | leq(x, y) && leq(y, z)
      ensures leq(x, z)
    {
      if DetectedAt(rows, x) == DetectedAt(rows, z) {
        StringLeqTransitive(x, y, z);
      }
    }
  }

  function Waiting(rows: Rows, symbols: seq<string>): set<string> {
    set id | id in rows && rows[id].state.Pending? && rows[id].payload.symbol in symbols
  }

  /** The first hundred waiting events, oldest first. */
  ghost predicate IsBatch(rows: Rows, symbols: seq<string>, ids: seq<string>) {
    && |ids| <= BATCH && (|ids| == BATCH || forall x | x in Waiting(rows, symbols) :: x in ids)
    && (forall id | id in ids :: id in Waiting(rows, symbols))
    && (forall i, j | 0 <= i < j < |ids| :: ids[i] != ids[j] && Earlier(rows, ids[i], ids[j]))
    && (forall id, x | id in ids && x in Waiting(rows, symbols) && x !in ids :: Earlier(rows, id, x))
  }

  class Inbox {
    var rows: Rows

    /** The first payload of an id is kept; a repeat must agree with it. */
    method Ingest(id: string, p: Payload) returns (r: Ingested)
      modifies this
      ensures rows == WithEvent(old(rows), id, p)
      ensures r == if id !in old(rows) then Accepted
                else if old(rows)[id].payload == p then AlreadyThere(old(rows)[id].state) else Mismatch
    {
      if id !in rows {
        rows := rows[id := Row(p, Pending)];
        return Accepted;
      }
      r := if rows[id].payload != p then Mismatch else AlreadyThere(rows[id].state);
    }

    /** Pending events older than the limit become stale, one row at a time. */
    method MarkStale(now: int, maxAge: int)
      modifies this
      ensures rows == AllAged(old(rows), now - maxAge)
    {
      var cutoff := now - maxAge;
      var todo := rows.Keys;
      while todo != {}
        invariant todo <= rows.Keys == old(rows).Keys
        invariant forall id | id in rows ::
                    rows[id] == if id in todo then old(rows)[id] else Aged(old(rows)[id], cutoff)
        decreases |todo|
      {
        var id :| id in todo;
        todo := todo - {id};
        if rows[id].state.Pending? {
          var reference := ReferenceTime(rows[id].payload);
          if reference < cutoff {
            rows := rows[id := rows[id].(state := Stale)];
          }
        }
      }
      assert rows == AllAged(old(rows), cutoff);
    }

    method Acknowledge(id: string) returns (r: Acked)
      modifies this
      ensures rows == WithAck(old(rows), id)
      ensures r == if id !in old(rows) then Missing else
        match old(rows)[id].state
        case Pending => Acknowledged
        case Dispatched => Repeated
        case Stale => RefusedStale
    {
      if id !in rows {
        return Missing;
      }
      if rows[id].state.Stale? {
        return RefusedStale;
      }
      if rows[id].state.Dispatched? {
        return Repeated;
      }
      rows := rows[id := rows[id].(state := Dispatched)];
      r := Acknowledged;
    }

    /** The pending rows of these symbols, in hand-out order. */
    method Sorted(symbols: seq<string>) returns (ids: seq<string>)
      ensures Ordered(ids, ByAge(rows)) && multiset(ids) == multiset(Waiting(rows, symbols))
    {
      hide Waiting, Earlier, Total, Ordered, Insert;
      ids := [];
      var todo := Waiting(rows, symbols);
      ByAgeTotal(rows);
      NoneYet(Waiting(rows, symbols), ByAge(rows));
      while todo != {}
        invariant todo <= Waiting(rows, symbols)
        invariant Ordered(ids, ByAge(rows)) && multiset(ids) == multiset(Waiting(rows, symbols) - todo)
        decreases |todo|
      {
        var id :| id in todo;
        InsertKeeps(id, ids, ByAge(rows));
        OneMore(id, ids, Waiting(rows, symbols), todo);
        ids := Insert(id, ids, ByAge(rows));
        todo := todo - {id};
      }
    }

    /** Nothing is read or marked while the market is closed. */
    method PendingEvents(symbols: seq<string>, marketOpen: bool, now: int, maxAge: int) returns (r: Poll)
      modifies this
      ensures r == NoSymbols <==> symbols == []
      ensures r == MarketShut <==> symbols != [] && !marketOpen
      ensures !r.Events? ==> rows == old(rows)
      ensures r.Events? ==> rows == AllAged(old(rows), now - maxAge) && IsBatch(rows, symbols, r.ids)
    {
      if symbols == [] {
        return NoSymbols;
      }
      if !marketOpen {
        return MarketShut;
      }
      MarkStale(now, maxAge);
      var all := Sorted(symbols);
      FirstHundred(rows, symbols, all);
      r := Events(if |all| <= BATCH then all else all[..BATCH]);
    }
  }

  lemma {:induction false} NoneYet(all: set<string>, leq: (string, string) -> bool)
    ensures Ordered([], leq) && multiset([]) == multiset(all - all)
  {
  }

  lemma {:induction false} OneMore(id: string, ids: seq<string>, all: set<string>, todo: set<string>)
    requires id in todo && todo <= all && multiset(ids) == multiset(all - todo)
    ensures multiset([id] + ids) == multiset(all - (todo - {id}))
  {
    assert all - (todo - {id}) == (all - todo) + {id};
  }

  datatype Poll = NoSymbols | MarketShut | Events(ids: seq<string>)

  lemma {:induction false} FirstHundred(rows: Rows, symbols: seq<string>, all: seq<string>)
    requires Ordered(all, ByAge(rows)) && multiset(all) == multiset(Waiting(rows, symbols))
    ensures IsBatch(rows, symbols, if |all| <= BATCH then all else all[..BATCH])
  {
    hide Waiting, Earlier;
    var ids := if |all| <= BATCH then all else all[..BATCH];
    ListOfSet(all, Waiting(rows, symbols));
    forall id, x | id in ids && x in Waiting(rows, symbols) && x !in ids
      ensures Earlier(rows, id, x)
    {
      var i :| 0 <= i < |ids| && ids[i] == id;
      var j :| 0 <= j < |all| && all[j] == x;
      assert forall k | 0 <= k < |ids| :: ids[k] == all[k] && ids[k] in ids;
      assert ByAge(rows)(all[i], all[j]);
    }
    forall i, j | 0 <= i < j < |ids|
      ensures Earlier(rows, ids[i], ids[j])
    {
      assert ByAge(rows)(all[i], all[j]);
    }
  }
}

/**
 The Korean regular session: weekdays, 09:00 up to but excluding 15:30, Seoul time.
 An instant is a number of microseconds since 1970-01-01 00:00 in Seoul, which has
 no daylight saving, and a date is a number of days since then.
 */
module MarketSessions {
  import opened OrderTypes

  datatype Mode = Scheduled | AlwaysOpen

  const DAY: int := 86_400_000_000
  const MARKET_OPEN: int := 32_400_000_000
  const MARKET_CLOSE: int := 55_800_000_000

  function DateOf(t: int): int {
    t / DAY
  }

  function TimeOf(t: int): int {
    t % DAY
  }

  /** Monday is 0; 1970-01-01 was a Thursday. */
  function Weekday(date: int): int {
    (date + 3) % 7
  }

  function OpeningOf(date: int): int {
    date * DAY + MARKET_OPEN
  }

  predicate IsOpen(mode: Mode, t: int) {
    mode.AlwaysOpen? || (Weekday(DateOf(t)) < 5 && MARKET_OPEN <= TimeOf(t) < MARKET_CLOSE)
  }

  function SessionDate(mode: Mode, t: int): Option<int> {
    if mode.AlwaysOpen? || Weekday(DateOf(t)) < 5 then Some(DateOf(t)) else None
  }

  lemma {:induction false} OpensOn(date: int)
    ensures DateOf(OpeningOf(date)) == date && TimeOf(OpeningOf(date)) == MARKET_OPEN
  {
  }

  /** An instant before the opening of a later date falls on an earlier date or before the bell. */
  lemma {:induction false} BeforeOpening(date: int, u: int)
    requires u < OpeningOf(date)
    ensures DateOf(u) < date || (DateOf(u) == date && TimeOf(u) < MARKET_OPEN)
  {
    assert u == DateOf(u) * DAY + TimeOf(u);
  }

  lemma {:induction false} DatesGrow(t: int, u: int)
    requires t <= u
    ensures DateOf(t) < DateOf(u) || (DateOf(t) == DateOf(u) && TimeOf(t) <= TimeOf(u))
  {
    assert t == DateOf(t) * DAY + TimeOf(t) && u == DateOf(u) * DAY + TimeOf(u);
  }

  /** The least open instant that is not before t. */
  method NextOpen(mode: Mode, t: int) returns (n: int)
    ensures t <= n && IsOpen(mode, n)
    ensures forall u | t <= u < n :: !IsOpen(mode, u)
  {
    hide DateOf, TimeOf, OpeningOf;
    if IsOpen(mode, t) {
      return t;
    }
    var today := DateOf(t);
    if Weekday(today) < 5 && TimeOf(t) < MARKET_OPEN {
      n := OpeningOf(today);
      OpensOn(today);
      ClosedUntil(mode, t, today);
      return;
    }
    var candidate := today + 1;
    while Weekday(candidate) >= 5
      invariant today < candidate
      invariant forall d | today < d < candidate :: Weekday(d) >= 5
      decreases if Weekday(candidate) >= 5 then 7 - Weekday(candidate) else 0
    {
      candidate := candidate + 1;
    }
    n := OpeningOf(candidate);
    OpensOn(candidate);
    ClosedUntil(mode, t, candidate);
  }

  /** Shut at t, no weekday strictly between, so shut until the opening of `date`. */
  lemma {:induction false} ClosedUntil(mode: Mode, t: int, date: int)
    requires !IsOpen(mode, t) && DateOf(t) <= date
    requires forall d | DateOf(t) < d < date :: Weekday(d) >= 5
    requires DateOf(t) == date ==> TimeOf(t) < MARKET_OPEN
    requires DateOf(t) < date && Weekday(DateOf(t)) < 5 ==> TimeOf(t) >= MARKET_OPEN
    ensures t < OpeningOf(date) && forall u | t <= u < OpeningOf(date) :: !IsOpen(mode, u)
  {
    assert t == DateOf(t) * DAY + TimeOf(t);
    forall u | t <= u < OpeningOf(date)
      ensures !IsOpen(mode, u)
    {
      DatesGrow(t, u);
      BeforeOpening(date, u);
    }
  }
}

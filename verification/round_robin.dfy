/**
 Which participants a tick considers. Each tick starts where the last one stopped
 and stops early when no slot is free, so across ticks the participants are
 considered in one unbroken cycle and nobody falls more than one turn behind.
 */
module RoundRobin {
  import opened Sharding

  /** What a tick finds at one participant: a free slot, its book's snapshot, and whether the semaphore grants. */
  datatype Turn = Turn(free: bool, snapshot: bool, granted: bool)

  /** How many participants the tick considers: up to the first one without a slot. */
  function Considered(turns: seq<Turn>): (n: nat)
    ensures n <= |turns|
    ensures forall i | 0 <= i < n :: turns[i].free && (turns[i].snapshot ==> turns[i].granted)
    ensures n < |turns| ==> !turns[n].free || (turns[n].snapshot && !turns[n].granted)
  {
    if turns == [] || !turns[0].free || (turns[0].snapshot && !turns[0].granted) then 0 else 1 + Considered(turns[1..])
  }

  /** The cycle through `count` participants, from the very first tick on. */
  ghost predicate Cyclic(log: seq<nat>, count: nat) {
    count >= 1 ==> forall k | 0 <= k < |log| :: log[k] == k % count
  }

  function Times(log: seq<nat>, participant: nat): nat {
    if log == [] then 0
    else Times(log[..|log| - 1], participant) + if log[|log| - 1] == participant then 1 else 0
  }

  /** The participants among the first n considered whose snapshot had arrived. */
  function Asked(turns: seq<Turn>, cursor: nat, n: nat, count: nat): seq<nat>
    requires n <= |turns| && count >= 1
  {
    if n == 0 then [] else Asked(turns, cursor, n - 1, count) + if turns[n - 1].snapshot then [At(cursor, n - 1, count)]
      else []
  }

  class Scheduler {
    const count: nat
    var cursor: nat
    ghost var log: seq<nat>     // every participant considered so far

    ghost predicate Valid() reads this {
      Cyclic(log, count) && (count == 0 ==> log == []) && (count >= 1 ==> cursor == |log| % count)
    }

    constructor (count: nat)
      ensures Valid() && this.count == count && log == []
    {
      this.count, cursor, log := count, 0, [];
    }

    /** `asked` are the participants whose intents were taken, in order. */
    method EnqueueDueIntents(turns: seq<Turn>) returns (asked: seq<nat>)
      requires Valid() && |turns| == count
      modifies this
      ensures Valid() && |log| == |old(log)| + Considered(turns) && old(log) <= log
      ensures count >= 1 ==> asked == Asked(turns, old(cursor), Considered(turns), count)
      ensures count == 0 ==> asked == []
    {
      hide Cyclic, Considered, At;
      asked := [];
      if count == 0 {
        NoTurns(turns);
        return;
      }
      var considered := 0;
      for offset := 0 to count
        invariant considered == offset && cursor == old(cursor) && Cyclic(log, count)
        invariant |log| == |old(log)| + considered && old(log) <= log
        invariant forall i | 0 <= i < offset :: turns[i].free && (turns[i].snapshot ==> turns[i].granted)
        invariant asked == Asked(turns, cursor, considered, count)
      {
        if !turns[offset].free {
          break;
        }
        var participant := At(cursor, offset, count);
        considered := considered + 1;
        if turns[offset].snapshot && !turns[offset].granted {
          considered := considered - 1;
          break;
        }
        Next(log, cursor, |old(log)|, offset, count);
        log := log + [participant];
        if turns[offset].snapshot {
          asked := asked + [participant];
        }
      }
      StopsAt(turns, considered);
      Advance(cursor, |old(log)|, considered, count);
      cursor := At(cursor, considered, count);
    }
  }

  /** The participant `offset` places after the cursor. */
  function At(cursor: nat, offset: nat, count: nat): nat
    requires count >= 1
  {
    (cursor + offset) % count
  }

  lemma {:induction false} NoTurns(turns: seq<Turn>)
    requires turns == []
    ensures Considered(turns) == 0
  {
  }

  lemma {:induction false} StopsAt(turns: seq<Turn>, n: nat)
    requires n <= |turns| && forall i | 0 <= i < n :: turns[i].free && (turns[i].snapshot ==> turns[i].granted)
    requires n < |turns| ==> !turns[n].free || (turns[n].snapshot && !turns[n].granted)
    ensures Considered(turns) == n
  {
    if n > 0 {
      assert turns[0].free && (turns[0].snapshot ==> turns[0].granted);
      assert forall i | 0 <= i < n - 1 :: turns[1..][i] == turns[i + 1];
      StopsAt(turns[1..], n - 1);
    }
  }

  /** Moving on by k positions from a cursor in step with the log keeps it in step. */
  lemma {:induction false} Advance(cursor: nat, length: nat, k: nat, count: nat)
    requires count >= 1 && cursor == length % count
    ensures At(cursor, k, count) == (length + k) % count
  {
    var q := length / count;
    assert length == q * count + cursor;
    var x := cursor + k;
    var q', r := x / count, x % count;
    assert x == q' * count + r;
    assert length + k == (q + q') * count + r;
    Quotient(length + k, q + q', r, count);
  }

  lemma {:induction false} Next(log: seq<nat>, cursor: nat, length: nat, k: nat, count: nat)
    requires count >= 1 && Cyclic(log, count) && cursor == length % count && |log| == length + k
    ensures Cyclic(log + [At(cursor, k, count)], count)
  {
    Advance(cursor, length, k, count);
  }

  /** In the cycle, participant p has had its share of the turns. */
  lemma {:induction false} TimesIsShare(log: seq<nat>, count: nat, p: nat)
    requires p < count && Cyclic(log, count)
    ensures Times(log, p) == Share(|log|, p, count)
  {
    if log != [] {
      TimesIsShare(log[..|log| - 1], count, p);
      ShareStep(|log| - 1, p, count);
    }
  }

  /** No participant is ever more than one turn behind another. */
  lemma {:induction false} FairTurns(log: seq<nat>, count: nat, a: nat, b: nat)
    requires a < b < count && Cyclic(log, count)
    ensures Times(log, b) <= Times(log, a) <= Times(log, b) + 1
  {
    TimesIsShare(log, count, a);
    TimesIsShare(log, count, b);
    CloseShares(|log|, a, b, count);
  }
}

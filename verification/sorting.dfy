/** Stable sorting by a key, and the order of strings. */
module Sorting {

  ghost predicate Total<T(!new)>(leq: (T, T) -> bool) {
    && (forall x, y :: leq(x, y) || leq(y, x))
    && (forall x, y, z :: leq(x, y) && leq(y, z) ==> leq(x, z))
  }

  ghost predicate Ordered<T>(s: seq<T>, leq: (T, T) -> bool) {
    forall i, j | 0 <= i < j < |s| :: leq(s[i], s[j])
  }

  /** Goes before every equal item, so sorting from the back is stable. */
  function Insert<T>(x: T, s: seq<T>, leq: (T, T) -> bool): seq<T> {
    if s == [] || leq(x, s[0]) then [x] + s else [s[0]] + Insert(x, s[1..], leq)
  }

  function SortBy<T>(s: seq<T>, leq: (T, T) -> bool): seq<T> {
    if s == [] then [] else Insert(s[0], SortBy(s[1..], leq), leq)
  }

  lemma {:induction false} InsertCounts<T>(x: T, s: seq<T>, leq: (T, T) -> bool)
    ensures multiset(Insert(x, s, leq)) == multiset(s) + multiset{x}
  {
    if s != [] && !leq(x, s[0]) {
      InsertCounts(x, s[1..], leq);
      assert s == [s[0]] + s[1..];
    }
  }

  lemma {:induction false} InFront<T>(x: T, s: seq<T>, leq: (T, T) -> bool)
    requires Ordered(s, leq) && forall i | 0 <= i < |s| :: leq(x, s[i])
    ensures Ordered([x] + s, leq)
  {
  }

  lemma {:induction false} InsertKeeps<T(!new)>(x: T, s: seq<T>, leq: (T, T) -> bool)
    requires Total(leq) && Ordered(s, leq)
    ensures Ordered(Insert(x, s, leq), leq) && multiset(Insert(x, s, leq)) == multiset(s) + multiset{x}
  {
    InsertCounts(x, s, leq);
    if s == [] || leq(x, s[0]) {
      assert forall i | 0 < i < |s| :: leq(s[0], s[i]);
      InFront(x, s, leq);
    } else {
      InsertKeeps(x, s[1..], leq);
      var r := Insert(x, s[1..], leq);
      forall i | 0 <= i < |r|
        ensures leq(s[0], r[i])
      {
        assert r[i] in multiset(r);
        assert r[i] == x || r[i] in s[1..];
      }
      InFront(s[0], r, leq);
    }
  }

  lemma {:induction false} SortSorts<T(!new)>(s: seq<T>, leq: (T, T) -> bool)
    requires Total(leq)
    ensures Ordered(SortBy(s, leq), leq) && multiset(SortBy(s, leq)) == multiset(s) && |SortBy(s, leq)| == |s|
  {
    if s != [] {
      SortSorts(s[1..], leq);
      InsertKeeps(s[0], SortBy(s[1..], leq), leq);
      assert s == [s[0]] + s[1..];
    }
    assert |multiset(SortBy(s, leq))| == |multiset(s)|;
  }

  /** Only equal items tie. */
  ghost predicate Strict<T>(s: seq<T>, leq: (T, T) -> bool) {
    forall x, y | x in s && y in s && leq(x, y) && leq(y, x) :: x == y
  }

  lemma {:induction false} SameHead<T(!new)>(a: seq<T>, b: seq<T>, leq: (T, T) -> bool)
    requires a != [] && b != [] && Ordered(a, leq) && Ordered(b, leq) && Strict(a, leq)
    requires a[0] in b && b[0] in a
    ensures a[0] == b[0]
  {
    var i :| 0 <= i < |b| && b[i] == a[0];
    var j :| 0 <= j < |a| && a[j] == b[0];
    if i > 0 && j > 0 {
      assert leq(b[0], a[0]) && leq(a[0], b[0]);
    }
  }

  lemma {:induction false} SameTail<T>(a: seq<T>, b: seq<T>)
    requires a != [] && b != [] && a[0] == b[0] && multiset(a) == multiset(b)
    ensures multiset(a[1..]) == multiset(b[1..])
  {
    assert a == [a[0]] + a[1..] && b == [b[0]] + b[1..];
    assert multiset(a[1..]) == multiset(a) - multiset{a[0]};
    assert multiset(b[1..]) == multiset(b) - multiset{b[0]};
  }

  /** Items that tie only when equal have one sorted arrangement. */
  lemma {:induction false} OneArrangement<T(!new)>(a: seq<T>, b: seq<T>, leq: (T, T) -> bool)
    requires multiset(a) == multiset(b) && Ordered(a, leq) && Ordered(b, leq) && Strict(a, leq)
    ensures a == b
  {
    assert |multiset(a)| == |a| && |multiset(b)| == |b|;
    if a != [] {
      assert a[0] in multiset(b) && b[0] in multiset(a);
      SameHead(a, b, leq);
      SameTail(a, b);
      RestStrict(a, leq);
      OneArrangement(a[1..], b[1..], leq);
      assert a == [a[0]] + a[1..] && b == [b[0]] + b[1..];
    }
  }

  lemma {:induction false} RestStrict<T(!new)>(a: seq<T>, leq: (T, T) -> bool)
    requires a != [] && Strict(a, leq)
    ensures Strict(a[1..], leq)
  {
    assert forall x | x in a[1..] :: x in a;
  }

  /** A list of exactly a set's items has each of them once. */
  lemma {:induction false} ListOfSet<T>(s: seq<T>, items: set<T>)
    requires multiset(s) == multiset(items)
    ensures forall x :: x in s <==> x in items
    ensures forall i, j | 0 <= i < j < |s| :: s[i] != s[j]
  {
    forall x
      ensures x in s <==> x in items
    {
      assert x in s <==> x in multiset(s);
    }
    forall i, j | 0 <= i < j < |s|
      ensures s[i] != s[j]
    {
      assert s == s[..i] + [s[i]] + s[i + 1..j] + [s[j]] + s[j + 1..];
      assert multiset(items)[s[i]] <= 1;
    }
  }

  // ----- Strings -----

  predicate StringLeq(a: string, b: string) {
    a == "" || (b != "" && (a[0] < b[0] || (a[0] == b[0] && StringLeq(a[1..], b[1..]))))
  }

  lemma {:induction false} StringLeqTotal(a: string, b: string)
    ensures StringLeq(a, b) || StringLeq(b, a)
    ensures StringLeq(a, b) && StringLeq(b, a) ==> a == b
  {
    if a != "" && b != "" && a[0] == b[0] {
      StringLeqTotal(a[1..], b[1..]);
      assert a == [a[0]] + a[1..] && b == [b[0]] + b[1..];
    }
  }

  lemma {:induction false} StringLeqTransitive(a: string, b: string, c: string)
    requires StringLeq(a, b) && StringLeq(b, c)
    ensures StringLeq(a, c)
  {
    if a != "" && a[0] == b[0] == c[0] {
      StringLeqTransitive(a[1..], b[1..], c[1..]);
    }
  }
}

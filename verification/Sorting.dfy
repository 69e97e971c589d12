/**
 The sorts the program calls, as one insertion sort over an arbitrary total
 preorder. Callers use only that the result is ordered and a permutation.
 */
module Sorting {

  ghost predicate TotalPreorder<T(!new)>(leq: (T, T) -> bool) {
    && (forall x, y :: leq(x, y) || leq(y, x))
    && (forall x, y, z :: leq(x, y) && leq(y, z) ==> leq(x, z))
  }

  predicate Ordered<T>(leq: (T, T) -> bool, s: seq<T>) {
    forall i, j :: 0 <= i < j < |s| ==> leq(s[i], s[j])
  }

  function Insert<T>(leq: (T, T) -> bool, x: T, s: seq<T>): (r: seq<T>)
    ensures multiset(r) == multiset{x} + multiset(s)
    ensures |r| == |s| + 1
  {
    if s == [] then [x]
    else if leq(x, s[0]) then [x] + s
    else
      assert s == [s[0]] + s[1..];
      [s[0]] + Insert(leq, x, s[1..])
  }

  function Sort<T>(leq: (T, T) -> bool, s: seq<T>): (r: seq<T>)
    ensures multiset(r) == multiset(s)
    ensures |r| == |s|
  {
    if s == [] then []
    else
      assert s == [s[0]] + s[1..];
      Insert(leq, s[0], Sort(leq, s[1..]))
  }

  lemma {:induction false} InsertOrdered<T(!new)>(leq: (T, T) -> bool, x: T, s: seq<T>)
    requires TotalPreorder(leq) && Ordered(leq, s)
    ensures Ordered(leq, Insert(leq, x, s))
  {
    if s != [] && !leq(x, s[0]) {
      var rest := Insert(leq, x, s[1..]);
      InsertOrdered(leq, x, s[1..]);
      forall j | 0 <= j < |rest| ensures leq(s[0], rest[j]) {
        assert rest[j] in multiset(rest);
        if rest[j] != x {
          assert rest[j] in s[1..];
        }
      }
    }
  }

  lemma {:induction false} SortOrdered<T(!new)>(leq: (T, T) -> bool, s: seq<T>)
    requires TotalPreorder(leq)
    ensures Ordered(leq, Sort(leq, s))
  {
    if s != [] {
      SortOrdered(leq, s[1..]);
      InsertOrdered(leq, s[0], Sort(leq, s[1..]));
    }
  }

  /** The elements that rank equal with a, in order. */
  function Ties<T>(leq: (T, T) -> bool, a: T, s: seq<T>): seq<T> {
    if s == [] then [] else (if leq(a, s[0]) && leq(s[0], a) then [s[0]] else []) + Ties(leq, a, s[1..])
  }

  /** What ranks strictly before x ranks strictly before anything that x comes up to. */
  ghost predicate Apart<T(!new)>(leq: (T, T) -> bool, a: T, x: T, s: seq<T>) {
    leq(x, a) ==> forall y :: y in s && !leq(x, y) ==> !leq(a, y)
  }

  lemma {:induction false} InsertKeepsTies<T(!new)>(leq: (T, T) -> bool, a: T, x: T, s: seq<T>)
    requires Apart(leq, a, x, s)
    ensures Ties(leq, a, Insert(leq, x, s)) == (if leq(a, x) && leq(x, a) then [x] else []) + Ties(leq, a, s)
  {
    if s == [] {
      assert [x][1..] == s;
    } else if leq(x, s[0]) {
      assert ([x] + s)[1..] == s;
    } else {
      var rest := Insert(leq, x, s[1..]);
      assert s[0] in s;
      InsertKeepsTies(leq, a, x, s[1..]);
      assert ([s[0]] + rest)[1..] == rest;
    }
  }

  lemma AllApart<T(!new)>(leq: (T, T) -> bool, a: T, x: T, s: seq<T>)
    requires TotalPreorder(leq)
    ensures Apart(leq, a, x, s)
  {
  }

  /** The sort is stable: elements that rank equal keep their order. */
  lemma {:induction false} SortIsStable<T(!new)>(leq: (T, T) -> bool, a: T, s: seq<T>)
    requires TotalPreorder(leq)
    ensures Ties(leq, a, Sort(leq, s)) == Ties(leq, a, s)
  {
    if s != [] {
      SortIsStable(leq, a, s[1..]);
      AllApart(leq, a, s[0], Sort(leq, s[1..]));
      InsertKeepsTies(leq, a, s[0], Sort(leq, s[1..]));
    }
  }
}

/** The time that node snapshots cover: the length of a union of intervals. */
module Coverage {
  import opened Clock
  import opened Sorting

  datatype Interval = Interval(start: Time, end: Time)

  predicate WellOrdered(ivs: seq<Interval>) { forall i :: 0 <= i < |ivs| ==> ivs[i].start <= ivs[i].end }

  predicate Between(start: Time, t: Time, end: Time) { start <= t < end }

  function Instants(start: Time, end: Time): set<Time> { set t | start <= t < end && Between(start, t, end) }

  lemma {:induction false} InstantsSize(start: Time, end: Time)
    requires start <= end
    ensures |Instants(start, end)| == end - start
    decreases end - start
  {
    if start < end {
      InstantsSize(start, end - 1);
      assert Instants(start, end) == Instants(start, end - 1) + {end - 1};
    } else {
      assert Instants(start, end) == {};
    }
  }

  lemma InstantsJoin(a: Time, b: Time, c: Time, d: Time)
    requires a <= c <= b && c <= d
    ensures Instants(a, b) + Instants(c, d) == Instants(a, if d > b then d else b)
  {
  }

  /** The instants that some interval covers. */
  function Covered(ivs: seq<Interval>): set<Time> {
    if ivs == [] then {}
    else
      var last := ivs[|ivs| - 1];
      Covered(ivs[..|ivs| - 1]) + Instants(last.start, last.end)
  }

  lemma {:induction false} CoveredBySome(ivs: seq<Interval>, t: Time)
    ensures t in Covered(ivs) <==> exists iv :: iv in ivs && iv.start <= t < iv.end
  {
    if ivs != [] {
      var init, last := ivs[..|ivs| - 1], ivs[|ivs| - 1];
      CoveredBySome(init, t);
      assert forall iv :: iv in ivs <==> iv in init || iv == last;
    }
  }

  /** The order of the intervals does not matter. */
  lemma CoveredInAnyOrder(a: seq<Interval>, b: seq<Interval>)
    requires multiset(a) == multiset(b)
    ensures Covered(a) == Covered(b)
  {
    forall t ensures t in Covered(a) <==> t in Covered(b) {
      CoveredBySome(a, t);
      CoveredBySome(b, t);
      assert forall iv :: iv in a <==> iv in multiset(a);
      assert forall iv :: iv in b <==> iv in multiset(b);
    }
  }

  function Lengths(ivs: seq<Interval>): int {
    if ivs == [] then 0 else Lengths(ivs[..|ivs| - 1]) + ivs[|ivs| - 1].end - ivs[|ivs| - 1].start
  }

  /** The union is no longer than the intervals together. */
  lemma {:induction false} UnionAtMostSum(ivs: seq<Interval>)
    requires WellOrdered(ivs)
    ensures |Covered(ivs)| <= Lengths(ivs)
  {
    if ivs != [] {
      var init, last := ivs[..|ivs| - 1], ivs[|ivs| - 1];
      UnionAtMostSum(init);
      InstantsSize(last.start, last.end);
      assert |Covered(init) + Instants(last.start, last.end)| <= |Covered(init)| + |Instants(last.start, last.end)|;
    }
  }

  function StartsFirst(): (Interval, Interval) -> bool { (a: Interval, b: Interval) => a.start <= b.start }

  method SortByStart(iv: array<Interval>)
    modifies iv
    ensures Ordered(StartsFirst(), iv[..]) && multiset(iv[..]) == multiset(old(iv[..]))
  {
    var sorted := Sort(StartsFirst(), iv[..]);
    SortOrdered(StartsFirst(), iv[..]);
    for i := 0 to iv.Length
      invariant iv[..i] == sorted[..i]
    {
      iv[i] := sorted[i];
    }
    assert iv[..] == sorted;
  }

  /** The sweep so far: `total` counts the instants before the current stretch. */
  ghost predicate Swept(ivs: seq<Interval>, before: set<Time>, total: int, curStart: Time, curEnd: Time) {
    && Covered(ivs) == before + Instants(curStart, curEnd)
    && |before| == total && (forall t :: t in before ==> t < curStart)
    && curStart <= curEnd
  }

  /** An interval after the current stretch closes it. */
  lemma SweepGap(ivs: seq<Interval>, before: set<Time>, total: int, curStart: Time, curEnd: Time, v: Interval)
    requires Swept(ivs, before, total, curStart, curEnd) && curEnd < v.start <= v.end
    ensures Swept(ivs + [v], before + Instants(curStart, curEnd), total + curEnd - curStart, v.start, v.end)
  {
    InstantsSize(curStart, curEnd);
    assert before !! Instants(curStart, curEnd);
    assert (ivs + [v])[..|ivs|] == ivs;
  }

  /** An interval that starts within the current stretch extends it or adds nothing. */
  lemma SweepOverlap(ivs: seq<Interval>, before: set<Time>, total: int, curStart: Time, curEnd: Time, v: Interval)
    requires Swept(ivs, before, total, curStart, curEnd) && curStart <= v.start <= curEnd && v.start <= v.end
    ensures Swept(ivs + [v], before, total, curStart, if v.end > curEnd then v.end else curEnd)
  {
    assert (ivs + [v])[..|ivs|] == ivs;
    InstantsJoin(curStart, curEnd, v.start, v.end);
    var end := if v.end > curEnd then v.end else curEnd;
    assert before + Instants(curStart, curEnd) + Instants(v.start, v.end) == before + Instants(curStart, end);
  }

  lemma SweepFirst(v: Interval)
    requires v.start <= v.end
    ensures Swept([v], {}, 0, v.start, v.end)
  {
    assert [v][..0] == [];
  }

  /**
   For well-ordered intervals the sweep's total is the number of instants that
   at least one of them covers.
   */
  method UnionSeconds(iv: array<Interval>) returns (total: int)
    modifies iv
    ensures multiset(iv[..]) == multiset(old(iv[..]))
    ensures WellOrdered(old(iv[..])) ==> total == |Covered(old(iv[..]))|
  {
    ghost var was := iv[..];
    SortByStart(iv);
    ghost var ivs := iv[..];
    CoveredInAnyOrder(was, ivs);
    ghost var ok := WellOrdered(was);
    if ok {
      WellOrderedInAnyOrder(was, ivs);
    }
    total := 0;
    var curStart, curEnd: Time := 0, 0;
    ghost var before: set<Time> := {};
    for i := 0 to iv.Length
      invariant iv[..] == ivs
      invariant ok && i > 0 ==> Swept(ivs[..i], before, total, curStart, curEnd) && curStart <= ivs[i - 1].start
      invariant i == 0 ==> total == 0 && before == {}
    {
      var v := iv[i];
      assert ivs[..i + 1] == ivs[..i] + [v];
      if i == 0 {
        curStart, curEnd := v.start, v.end;
        if ok {
          SweepFirst(v);
          assert ivs[..1] == [v];
        }
      } else if v.start > curEnd {
        if ok {
          SweepGap(ivs[..i], before, total, curStart, curEnd, v);
        }
        before := before + Instants(curStart, curEnd);
        total := total + curEnd - curStart;
        curStart, curEnd := v.start, v.end;
      } else {
        assert StartsFirst()(ivs[i - 1], ivs[i]);
        if ok {
          SweepOverlap(ivs[..i], before, total, curStart, curEnd, v);
        }
        if v.end > curEnd {
          curEnd := v.end;
        }
      }
    }
    assert ivs[..iv.Length] == ivs;
    if iv.Length > 0 {
      total := total + curEnd - curStart;
      if ok {
        InstantsSize(curStart, curEnd);
      }
    }
  }

  lemma WellOrderedInAnyOrder(a: seq<Interval>, b: seq<Interval>)
    requires multiset(a) == multiset(b) && WellOrdered(a)
    ensures WellOrdered(b)
  {
    forall i | 0 <= i < |b| ensures b[i].start <= b[i].end {
      assert b[i] in multiset(b);
      assert b[i] in a;
    }
  }
}

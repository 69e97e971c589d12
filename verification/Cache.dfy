/** The bounded cache with expiry, against the unbounded map it stands for. */
module Cache {
  import opened Clock
  import opened Wrappers

  datatype Item<V> = Item(value: V, expires: Time)

  type Items<V> = map<string, Item<V>>

  function Lookup<V>(items: Items<V>, key: string, now: Time): Option<V> {
    if key !in items || now > items[key].expires then None else Some(items[key].value)
  }

  /** Unexpired entries of other keys that a set removed. */
  function Lost<V>(before: Items<V>, after: Items<V>, key: string, now: Time): set<string> {
    set k | k in before && k !in after && k != key && now <= before[k].expires
  }

  ghost predicate Within<V>(small: Items<V>, large: Items<V>) { forall k :: k in small ==> k in large && small[k] == large[k] }

  /** What a set may do: eviction goes through the entries in no particular order. */
  ghost predicate SetTo<V>(max: int, before: Items<V>, after: Items<V>, key: string, item: Item<V>, now: Time) {
    && key in after && after[key] == item
    && Within(after - {key}, before)
    && |after| <= (if max < 1 then 1 else max)
    && (|before| < max ==> after == before[key := item])
    && (|before| >= max ==> forall k :: k in before && k != key && now > before[k].expires ==> k !in after)
    && (|before| <= max ==> |Lost(before, after, key, now)| <= 1)
  }

  class TtlCache<V> {
    const max: int
    var items: Items<V>

    constructor (max: int)
      ensures this.max == max && items == map[]
    {
      this.max, items := max, map[];
    }

    method Get(key: string, now: Time) returns (r: Option<V>)
      ensures r == Lookup(items, key, now)
    {
      if key !in items || now > items[key].expires {
        return None;
      }
      return Some(items[key].value);
    }

    method Evict(now: Time)
      modifies this
      ensures Evicted(max, old(items), {}, items, now)
    {
      var todo := items.Keys;
      EvictNone(max, items, now);
      while todo != {}
        invariant Evicted(max, old(items), todo, items, now)
        decreases todo
      {
        var k :| k in todo;
        EvictOne(max, old(items), todo, items, now, k);
        if now > items[k].expires || |items| >= max {
          items := items - {k};
        }
        todo := todo - {k};
      }
    }

    method Set(key: string, value: V, ttl: int, now: Time)
      modifies this
      ensures SetTo(max, old(items), items, key, Item(value, now + ttl), now)
    {
      if |items| >= max {
        Evict(now);
        SetAfterEviction(max, old(items), items, key, Item(value, now + ttl), now);
      } else {
        SetWithRoom(max, items, key, Item(value, now + ttl), now);
      }
      items := items[key := Item(value, now + ttl)];
    }
  }

  // ---- eviction --------------------------------------------------------------------

  function Dropped<V>(before: Items<V>, items: Items<V>, now: Time): set<string> {
    set k | k in before && k !in items && now <= before[k].expires
  }

  /** The entries left when `todo` is still to be visited. */
  ghost predicate Evicted<V>(max: int, before: Items<V>, todo: set<string>, items: Items<V>, now: Time) {
    && Within(items, before) && todo <= items.Keys
    && (forall k :: k in items && k !in todo ==> now <= items[k].expires)
    && (|items| >= max ==> items.Keys == todo)
    && |Dropped(before, items, now)| <= (if |before| <= max then 1 else |before|)
  }

  lemma EvictNone<V>(max: int, before: Items<V>, now: Time)
    ensures Evicted(max, before, before.Keys, before, now)
  {
    assert Dropped(before, before, now) == {};
  }

  lemma DroppedOne<V>(before: Items<V>, items: Items<V>, now: Time, k: string)
    requires Within(items, before) && k in items
    ensures Dropped(before, items - {k}, now) == Dropped(before, items, now) + if now <= items[k].expires then {k} else {}
  {
  }

  lemma SameSize<V>(small: Items<V>, large: Items<V>)
    requires Within(small, large)
    ensures |small| <= |large|
    ensures |small| == |large| ==> small.Keys == large.Keys
  {
    assert small.Keys <= large.Keys;
    SubsetSize(small.Keys, large.Keys);
  }

  lemma {:induction false} SubsetSize(a: set<string>, b: set<string>)
    requires a <= b
    ensures |a| <= |b|
    ensures |a| == |b| ==> a == b
  {
    if a != {} {
      var x :| x in a;
      SubsetSize(a - {x}, b - {x});
    }
  }

  /** Visiting one entry: it goes if it expired or the cache is still full. */
  lemma EvictOne<V>(max: int, before: Items<V>, todo: set<string>, items: Items<V>, now: Time, k: string)
    requires Evicted(max, before, todo, items, now) && k in todo
    ensures now > items[k].expires || |items| >= max ==> Evicted(max, before, todo - {k}, items - {k}, now)
    ensures !(now > items[k].expires || |items| >= max) ==> Evicted(max, before, todo - {k}, items, now)
  {
    SameSize(items, before);
    DroppedOne(before, items, now, k);
    var left := items - {k};
    assert left.Keys == items.Keys - {k};
    assert |left| == |items| - 1 by {
      assert |left.Keys| == |items.Keys| - 1;
    }
    SubsetSize(Dropped(before, left, now), before.Keys);
    if |items| >= max && |before| <= max {
      assert Dropped(before, items, now) == {};
    }
  }

  lemma LostIsDropped<V>(before: Items<V>, items: Items<V>, key: string, item: Item<V>, now: Time)
    ensures |Lost(before, items[key := item], key, now)| <= |Dropped(before, items, now)|
  {
    assert Lost(before, items[key := item], key, now) <= Dropped(before, items, now);
    SubsetSize(Lost(before, items[key := item], key, now), Dropped(before, items, now));
  }

  lemma SetAfterEviction<V>(max: int, before: Items<V>, items: Items<V>, key: string, item: Item<V>, now: Time)
    requires |before| >= max && Evicted(max, before, {}, items, now)
    ensures SetTo(max, before, items[key := item], key, item, now)
  {
    LostIsDropped(before, items, key, item, now);
    if |items| >= max {
      assert |items| == |items.Keys| == 0;
    }
    assert items[key := item].Keys == items.Keys + {key};
  }

  lemma SetWithRoom<V>(max: int, before: Items<V>, key: string, item: Item<V>, now: Time)
    requires |before| < max
    ensures SetTo(max, before, before[key := item], key, item, now)
  {
    assert Lost(before, before[key := item], key, now) == {};
    assert before[key := item].Keys == before.Keys + {key};
  }

  // ---- runs ----------------------------------------------------------------------------

  datatype Call<V> = Call(key: string, value: V, ttl: int, now: Time)

  ghost predicate Does<V>(max: int, before: Items<V>, after: Items<V>, c: Call<V>) {
    SetTo(max, before, after, c.key, Item(c.value, c.now + c.ttl), c.now)
  }

  /** The entries a cache may hold after these sets, whichever entries each eviction met first. */
  ghost predicate Reaches<V(!new)>(max: int, calls: seq<Call<V>>, items: Items<V>) {
    if calls == [] then items == map[]
    else
      var c := calls[|calls| - 1];
      exists before :: Does(max, before, items, c) && Reaches(max, calls[..|calls| - 1], before)
  }

  /** The last value set for every key. */
  function Last<V>(calls: seq<Call<V>>): Items<V> {
    if calls == [] then map[]
    else
      var c := calls[|calls| - 1];
      Last(calls[..|calls| - 1])[c.key := Item(c.value, c.now + c.ttl)]
  }

  lemma StepFollows<V>(max: int, before: Items<V>, items: Items<V>, last: Items<V>, c: Call<V>)
    requires Does(max, before, items, c) && Within(before, last) && (|last| < max ==> before == last)
    ensures var next := last[c.key := Item(c.value, c.now + c.ttl)];
      Within(items, next) && (|next| < max ==> items == next)
  {
    var next := last[c.key := Item(c.value, c.now + c.ttl)];
    SubsetSize(last.Keys, next.Keys);
    forall k | k in items ensures k in next && items[k] == next[k] {
      if k != c.key {
        assert k in items - {c.key};
      }
    }
  }

  /**
   After any sets the cache holds only last values, never more than its bound,
   and all of them while fewer keys than the bound were ever set.
   */
  lemma {:induction false} CacheFollowsMap<V(!new)>(max: int, calls: seq<Call<V>>, items: Items<V>)
    requires Reaches(max, calls, items)
    ensures Within(items, Last(calls))
    ensures |items| <= (if max < 1 then 1 else max)
    ensures |Last(calls)| < max ==> items == Last(calls)
    decreases |calls|
  {
    if calls != [] {
      var init, c := calls[..|calls| - 1], calls[|calls| - 1];
      var before :| Does(max, before, items, c) && Reaches(max, init, before);
      CacheFollowsMap(max, init, before);
      StepFollows(max, before, items, Last(init), c);
    }
  }

  lemma JustSet<V(!new)>(max: int, calls: seq<Call<V>>, items: Items<V>)
    requires Reaches(max, calls, items) && calls != []
    ensures var c := calls[|calls| - 1]; c.key in items && items[c.key] == Item(c.value, c.now + c.ttl)
  {
  }

  /**
   A value that is found is the last one set for its key, and has not expired. It
   is found until it expires if it was set last of all, or if fewer keys than the
   bound were ever set.
   */
  lemma FoundIsLastAndFresh<V(!new)>(max: int, calls: seq<Call<V>>, items: Items<V>, key: string, now: Time)
    requires Reaches(max, calls, items)
    ensures Lookup(items, key, now).Some? ==>
      key in Last(calls) && Lookup(items, key, now).value == Last(calls)[key].value && now <= Last(calls)[key].expires
    ensures key in Last(calls) && now <= Last(calls)[key].expires && (|Last(calls)| < max || key == calls[|calls| - 1].key) ==>
      Lookup(items, key, now).Some?
  {
    CacheFollowsMap(max, calls, items);
    if calls != [] {
      JustSet(max, calls, items);
    }
  }
}

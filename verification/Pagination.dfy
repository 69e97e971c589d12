/**
 Cursor pages over a log store that orders by time only: pages are cut on
 timestamp boundaries, and the group sharing the last timestamp is completed.
 */
module Pagination {
  import opened Clock
  import Sorting
  import opened Wrappers

  datatype Row = Row(t: Time, data: string)

  /** The stored rows with lo <= t < hi, each as often as it is stored. */
  ghost function Select(db: multiset<Row>, lo: Time, hi: Time): (m: multiset<Row>)
    ensures forall r {:trigger m[r]} :: m[r] == if lo <= r.t < hi then db[r] else 0
  {
    SelectExists(db, lo, hi);
    var m: multiset<Row> :| IsSelection(db, lo, hi, m);
    m
  }

  ghost predicate IsSelection(db: multiset<Row>, lo: Time, hi: Time, m: multiset<Row>) {
    forall r {:trigger m[r]} :: m[r] == if lo <= r.t < hi then db[r] else 0
  }

  lemma {:induction false} SelectExists(db: multiset<Row>, lo: Time, hi: Time)
    ensures exists m :: IsSelection(db, lo, hi, m)
    decreases |db|
  {
    if db == multiset{} {
      assert IsSelection(db, lo, hi, multiset{});
    } else {
      var r :| r in db;
      SelectExists(db - multiset{r}, lo, hi);
      var m :| IsSelection(db - multiset{r}, lo, hi, m);
      assert IsSelection(db, lo, hi, if lo <= r.t < hi then m + multiset{r} else m);
    }
  }

  /** Splitting a range splits its rows. */
  lemma SelectSplit(db: multiset<Row>, lo: Time, mid: Time, hi: Time)
    requires lo <= mid <= hi
    ensures Select(db, lo, hi) == Select(db, lo, mid) + Select(db, mid, hi)
  {
  }

  predicate NewestFirst(rows: seq<Row>) {
    forall i, j :: 0 <= i < j < |rows| ==> rows[i].t >= rows[j].t
  }

  /**
   The storage contract: at most `limit` rows of the half-open range, newest
   first, none left out that is newer than the last. Rows that share a
   timestamp may come in any order, and in another order the next time.
   */
  ghost predicate Answers(db: multiset<Row>, lo: Time, hi: Time, limit: nat, rows: seq<Row>) {
    var all := Select(db, lo, hi);
    && NewestFirst(rows)
    && |rows| == (if |all| < limit then |all| else limit)
    && multiset(rows) <= all
    && forall r :: all[r] > multiset(rows)[r] ==> rows != [] && r.t <= rows[|rows| - 1].t
  }

  predicate NoOlder(a: Row, b: Row) { a.t >= b.t }

  function Filter(rows: seq<Row>, lo: Time, hi: Time): (r: seq<Row>)
    ensures multiset(r) == Select(multiset(rows), lo, hi)
  {
    if rows == [] then []
    else
      assert rows == [rows[0]] + rows[1..];
      (if lo <= rows[0].t < hi then [rows[0]] else []) + Filter(rows[1..], lo, hi)
  }

  /** What a cut leaves out is no newer than what it keeps. */
  lemma LeftOutIsOlder(all: seq<Row>, n: nat, r: Row)
    requires NewestFirst(all) && 0 < n <= |all| && multiset(all)[r] > multiset(all[..n])[r]
    ensures r.t <= all[n - 1].t
  {
    assert all == all[..n] + all[n..];
    assert multiset(all)[r] == multiset(all[..n])[r] + multiset(all[n..])[r];
    assert r in all[n..];
    var i :| n <= i < |all| && all[i] == r;
  }

  /** The contract can be met: sort newest first and cut. */
  lemma CanAnswer(db: multiset<Row>, lo: Time, hi: Time, limit: nat, all: seq<Row>)
    requires limit > 0 && NewestFirst(all) && multiset(all) == Select(db, lo, hi)
    ensures Answers(db, lo, hi, limit, if |all| < limit then all else all[..limit])
  {
    assert |multiset(all)| == |all|;
    if |all| >= limit {
      assert all == all[..limit] + all[limit..];
      forall r | multiset(all)[r] > multiset(all[..limit])[r] ensures r.t <= all[limit - 1].t {
        LeftOutIsOlder(all, limit, r);
      }
    }
  }

  lemma SortedNewestFirst(rows: seq<Row>)
    ensures NewestFirst(Sorting.Sort(NoOlder, rows))
  {
    Sorting.SortOrdered(NoOlder, rows);
    var s := Sorting.Sort(NoOlder, rows);
    forall i, j | 0 <= i < j < |s| ensures s[i].t >= s[j].t {
      assert NoOlder(s[i], s[j]);
    }
  }

  lemma MultisetSize<T>(a: multiset<T>, b: multiset<T>)
    requires a <= b
    ensures |a| <= |b|
    ensures |a| == |b| ==> a == b
  {
    assert b == a + (b - a);
  }

  /** An answer shorter than its limit is everything. */
  lemma ShortAnswerIsAll(db: multiset<Row>, lo: Time, hi: Time, limit: nat, rows: seq<Row>)
    requires Answers(db, lo, hi, limit, rows) && |rows| < limit
    ensures multiset(rows) == Select(db, lo, hi)
  {
    MultisetSize(multiset(rows), Select(db, lo, hi));
  }

  lemma AnswerInRange(db: multiset<Row>, lo: Time, hi: Time, limit: nat, rows: seq<Row>, i: nat)
    requires Answers(db, lo, hi, limit, rows) && i < |rows|
    ensures lo <= rows[i].t < hi
  {
    assert rows[i] in multiset(rows);
  }

  /** The rows of a full answer that are newer than its last are all there are. */
  lemma NewerRowsAreAll(db: multiset<Row>, lo: Time, hi: Time, limit: nat, rows: seq<Row>, cut: nat)
    requires Answers(db, lo, hi, limit, rows) && 0 < limit == |rows| && cut < |rows|
    requires forall i :: cut <= i < |rows| ==> rows[i].t == rows[|rows| - 1].t
    requires forall i :: 0 <= i < cut ==> rows[i].t > rows[|rows| - 1].t
    ensures multiset(rows[..cut]) == Select(db, rows[|rows| - 1].t + 1, hi)
  {
    var last := rows[|rows| - 1].t;
    AnswerInRange(db, lo, hi, limit, rows, |rows| - 1);
    forall r ensures multiset(rows[..cut])[r] == Select(db, last + 1, hi)[r] {
      NewerRowIsThere(db, lo, last, hi, limit, rows, cut, r);
    }
  }

  lemma NewerRowIsThere(db: multiset<Row>, lo: Time, last: Time, hi: Time, limit: nat, rows: seq<Row>, cut: nat, r: Row)
    requires Answers(db, lo, hi, limit, rows) && cut < |rows| && lo <= last == rows[|rows| - 1].t
    requires forall i :: cut <= i < |rows| ==> rows[i].t == last
    requires forall i :: 0 <= i < cut ==> rows[i].t > last
    ensures multiset(rows[..cut])[r] == if last < r.t < hi then db[r] else 0
  {
    var newer, rest := rows[..cut], rows[cut..];
    assert rows == newer + rest;
    assert multiset(rows)[r] == multiset(newer)[r] + multiset(rest)[r];
    assert Select(db, lo, hi)[r] >= multiset(rows)[r];
    if r.t > last {
      assert r !in rest;
      assert !(Select(db, lo, hi)[r] > multiset(rows)[r]);
    } else {
      assert r !in newer;
    }
  }

  datatype Page = Page(rows: seq<Row>, next: Option<Time>, tieOverflow: bool)

  /** The oldest instant a page reaches. */
  function Bound(p: Page, lo: Time): Time { if p.next.Some? then p.next.value else lo }

  /** What one page of the rows before `end` must be. */
  ghost predicate PageOk(db: multiset<Row>, lo: Time, end: Time, limit: nat, maxTie: nat, p: Page) {
    var b := Bound(p, lo);
    && NewestFirst(p.rows)
    && |p.rows| < limit + maxTie
    && lo <= b < end
    && (p.next.Some? ==> lo < b && limit <= |Select(db, b, end)|)
    && (if p.tieOverflow then CutTie(db, b, end, maxTie, p.rows) else multiset(p.rows) == Select(db, b, end))
  }

  /** The page is whole except that its last group holds only `maxTie` of its rows. */
  ghost predicate CutTie(db: multiset<Row>, b: Time, end: Time, maxTie: nat, rows: seq<Row>) {
    && Select(db, b + 1, end) <= multiset(rows) <= Select(db, b, end)
    && |rows| == |Select(db, b + 1, end)| + maxTie
    && maxTie < |Select(db, b, b + 1)|
  }

  datatype Response = InvalidLimit | InvalidCursor | StorageFailed | Ok(page: Page)

  class SearchService {
    const stored: seq<Row>
    const maxTieGroup: nat
    const maxLimit: int
    /** How often the log store failed. */
    ghost var faults: nat

    constructor (stored: seq<Row>, maxTieGroup: int, maxLimit: int)
      ensures this.stored == stored && this.maxLimit == maxLimit
      ensures this.maxTieGroup == if maxTieGroup <= 0 then 5000 else maxTieGroup
    {
      this.stored, this.maxLimit := stored, maxLimit;
      this.maxTieGroup := if maxTieGroup <= 0 then 5000 else maxTieGroup;
    }

    /** Any answer the storage contract allows, or a failure. */
    method Collect(lo: Time, hi: Time, limit: nat) returns (r: Option<seq<Row>>)
      requires limit > 0
      modifies this`faults
      ensures r.Some? ==> Answers(multiset(stored), lo, hi, limit, r.value)
      ensures faults == old(faults) + if r.Some? then 0 else 1
    {
      if * {
        faults := faults + 1;
        return None;
      }
      var selected := Filter(stored, lo, hi);
      var all := Sorting.Sort(NoOlder, selected);
      SortedNewestFirst(selected);
      CanAnswer(multiset(stored), lo, hi, limit, all);
      return Some(if |all| < limit then all else all[..limit]);
    }

    /** Replaces the trailing rows of a full page by the whole group at its last timestamp. */
    method CompletePage(lo: Time, end: Time, limit: nat, rows: seq<Row>) returns (r: Response)
      requires Answers(multiset(stored), lo, end, limit, rows) && 0 < limit == |rows| && maxTieGroup > 0
      modifies this`faults
      ensures r.StorageFailed? || r.Ok?
      ensures faults == old(faults) + if r.Ok? then 0 else 1
      ensures r.Ok? ==> PageOk(multiset(stored), lo, end, limit, maxTieGroup, r.page)
    {
      var last := rows[|rows| - 1].t;
      var found := Collect(last, last + 1, maxTieGroup + 1);
      if found.None? {
        return StorageFailed;
      }
      var tie, overflow := found.value, false;
      if |tie| > maxTieGroup {
        tie, overflow := tie[..maxTieGroup], true;
      }
      var cut := CutTrailing(rows, last);
      var page := Page(rows[..cut] + tie, if last > lo then Some(last) else None, overflow);
      CompletedPageOk(multiset(stored), lo, end, limit, maxTieGroup, rows, found.value, cut, page);
      return Ok(page);
    }

    /** One page of logs, newest first, before the cursor if there is one. */
    method Search(lo: Time, hi: Time, cursor: Option<Time>, asked: int) returns (r: Response)
      requires lo < hi && maxTieGroup > 0
      modifies this`faults
      ensures faults == old(faults) + if r.StorageFailed? then 1 else 0
      ensures r.InvalidLimit? <==> Limit(asked) > maxLimit
      ensures r.InvalidCursor? <==> Limit(asked) <= maxLimit && cursor.Some? && !(lo < cursor.value <= hi)
      ensures r.Ok? ==> PageOk(multiset(stored), lo, if cursor.Some? then cursor.value else hi, Limit(asked), maxTieGroup, r.page)
    {
      var limit: nat := if asked <= 0 then 200 else asked;
      if limit > maxLimit {
        return InvalidLimit;
      }
      var end := hi;
      if cursor.Some? {
        if !(cursor.value > lo) || cursor.value > hi {
          return InvalidCursor;
        }
        end := cursor.value;
      }
      var rows := Collect(lo, end, limit);
      if rows.None? {
        return StorageFailed;
      }
      if |rows.value| == limit {
        r := CompletePage(lo, end, limit, rows.value);
        return;
      }
      ShortAnswerIsAll(multiset(stored), lo, end, limit, rows.value);
      return Ok(Page(rows.value, None, false));
    }

    /**
     What a client does: it reads pages from cursor to cursor until there is none.
     It gets to the end unless the log store fails or the limit is refused.
     */
    method ReadAll(lo: Time, hi: Time, asked: int) returns (pages: seq<Page>, complete: bool)
      requires lo < hi && maxTieGroup > 0
      modifies this`faults
      ensures complete <==> Limit(asked) <= maxLimit && faults == old(faults)
      ensures pages != [] ==> Walk(multiset(stored), lo, hi, Limit(asked), maxTieGroup, pages)
      ensures complete ==>
        && pages != [] && pages[|pages| - 1].next.None?
        && (multiset(AllRows(pages)) == Select(multiset(stored), lo, hi) <==> !AnyOverflow(pages))
        && ((forall t :: SmallGroup(multiset(stored), maxTieGroup, t)) ==> multiset(AllRows(pages)) == Select(multiset(stored), lo, hi))
    {
      pages := [];
      ghost var db := multiset(stored);
      var cursor := None;
      while true
        invariant pages != [] ==> Walk(db, lo, hi, Limit(asked), maxTieGroup, pages)
        invariant cursor == if pages == [] then None else pages[|pages| - 1].next
        invariant pages != [] ==> cursor.Some? && lo < cursor.value <= hi && Limit(asked) <= maxLimit
        invariant faults == old(faults)
        decreases if cursor.Some? then cursor.value - lo else hi - lo + 1
      {
        var r := Search(lo, hi, cursor, asked);
        if !r.Ok? {
          return pages, false;
        }
        WalkGoesOn(db, lo, hi, Limit(asked), maxTieGroup, pages, r.page);
        pages, cursor := pages + [r.page], r.page.next;
        CursorsAreAccepted(db, lo, hi, Limit(asked), maxTieGroup, pages);
        if cursor.None? {
          WalkIsTheSelection(db, lo, hi, Limit(asked), maxTieGroup, pages);
          if forall t :: SmallGroup(db, maxTieGroup, t) {
            SmallGroupsAreNotCut(db, lo, hi, Limit(asked), maxTieGroup, pages);
          }
          return pages, true;
        }
      }
    }
  }

  /** Where the rows with the last timestamp begin. */
  method CutTrailing(rows: seq<Row>, last: Time) returns (cut: nat)
    ensures cut <= |rows|
    ensures forall i :: cut <= i < |rows| ==> rows[i].t == last
    ensures cut > 0 ==> rows[cut - 1].t != last
  {
    cut := |rows|;
    while cut > 0 && rows[cut - 1].t == last
      invariant cut <= |rows|
      invariant forall i :: cut <= i < |rows| ==> rows[i].t == last
    {
      cut := cut - 1;
    }
  }

  function Limit(asked: int): nat { if asked <= 0 then 200 else asked }

  /** The page made of a full answer and the group at its last timestamp. */
  ghost predicate Completed(lo: Time, limit: nat, maxTie: nat, rows: seq<Row>, found: seq<Row>, cut: nat, p: Page) {
    && 0 < limit == |rows| && cut <= |rows|
    && var last := rows[|rows| - 1].t;
    && (forall i :: cut <= i < |rows| ==> rows[i].t == last)
    && (cut > 0 ==> rows[cut - 1].t != last)
    && p.rows == rows[..cut] + (if |found| > maxTie then found[..maxTie] else found)
    && p.next == (if last > lo then Some(last) else None)
    && p.tieOverflow == (|found| > maxTie)
  }

  lemma CompletedPageOk(db: multiset<Row>, lo: Time, end: Time, limit: nat, maxTie: nat, rows: seq<Row>, found: seq<Row>,
                        cut: nat, p: Page)
    requires Answers(db, lo, end, limit, rows) && Completed(lo, limit, maxTie, rows, found, cut, p) && maxTie > 0
    requires Answers(db, rows[|rows| - 1].t, rows[|rows| - 1].t + 1, maxTie + 1, found)
    ensures PageOk(db, lo, end, limit, maxTie, p)
  {
    var last := rows[|rows| - 1].t;
    AboveLast(db, lo, end, limit, rows, cut);
    TieRows(db, last, maxTie, found);
    JoinedPageOk(db, lo, last, end, limit, maxTie, rows[..cut], if |found| > maxTie then found[..maxTie] else found, p);
  }

  /** All the rows newer than `last`. */
  ghost predicate Above(db: multiset<Row>, last: Time, end: Time, limit: nat, newer: seq<Row>) {
    && NewestFirst(newer) && multiset(newer) == Select(db, last + 1, end)
    && |newer| < limit <= |Select(db, last, end)|
  }

  /** The group at `last`, or as much of it as the cap allows. */
  ghost predicate At(db: multiset<Row>, last: Time, maxTie: nat, tie: seq<Row>, overflow: bool) {
    && (forall i :: 0 <= i < |tie| ==> tie[i].t == last)
    && |tie| <= maxTie && multiset(tie) <= Select(db, last, last + 1)
    && (if overflow then |tie| == maxTie < |Select(db, last, last + 1)| else multiset(tie) == Select(db, last, last + 1))
  }

  lemma AboveLast(db: multiset<Row>, lo: Time, end: Time, limit: nat, rows: seq<Row>, cut: nat)
    requires Answers(db, lo, end, limit, rows) && 0 < limit == |rows| && cut <= |rows|
    requires forall i :: cut <= i < |rows| ==> rows[i].t == rows[|rows| - 1].t
    requires cut > 0 ==> rows[cut - 1].t != rows[|rows| - 1].t
    ensures cut < |rows| && lo <= rows[|rows| - 1].t < end
    ensures Above(db, rows[|rows| - 1].t, end, limit, rows[..cut])
  {
    assert cut < |rows|;
    AnswerInRange(db, lo, end, limit, rows, |rows| - 1);
    NewerRowsAreAll(db, lo, end, limit, rows, cut);
    FullPageCovers(db, lo, end, limit, rows);
  }

  lemma TieRows(db: multiset<Row>, last: Time, maxTie: nat, found: seq<Row>)
    requires Answers(db, last, last + 1, maxTie + 1, found)
    ensures At(db, last, maxTie, if |found| > maxTie then found[..maxTie] else found, |found| > maxTie)
  {
    forall i | 0 <= i < |found| ensures found[i].t == last {
      AnswerInRange(db, last, last + 1, maxTie + 1, found, i);
    }
    if |found| > maxTie {
      assert found == found[..maxTie] + found[maxTie..];
    } else {
      ShortAnswerIsAll(db, last, last + 1, maxTie + 1, found);
    }
  }

  /** The newer rows followed by the group make a page. */
  lemma JoinedPageOk(db: multiset<Row>, lo: Time, last: Time, end: Time, limit: nat, maxTie: nat,
                     newer: seq<Row>, tie: seq<Row>, p: Page)
    requires lo <= last < end && Above(db, last, end, limit, newer) && At(db, last, maxTie, tie, p.tieOverflow)
    requires p.rows == newer + tie && p.next == if last > lo then Some(last) else None
    ensures PageOk(db, lo, end, limit, maxTie, p)
  {
    SelectSplit(db, last, last + 1, end);
    SumWithin(multiset(newer), multiset(tie), Select(db, last, last + 1));
    assert multiset(p.rows) == multiset(newer) + multiset(tie);
    assert |multiset(newer)| == |newer|;
    JoinedOrder(db, last, end, newer, tie);
  }

  lemma JoinedOrder(db: multiset<Row>, last: Time, end: Time, newer: seq<Row>, tie: seq<Row>)
    requires NewestFirst(newer) && multiset(newer) == Select(db, last + 1, end)
    requires forall i :: 0 <= i < |tie| ==> tie[i].t == last
    ensures NewestFirst(newer + tie)
  {
    forall i, j | 0 <= i < |newer| && 0 <= j < |tie| ensures newer[i].t >= tie[j].t {
      assert newer[i] in multiset(newer);
    }
  }

  lemma SumWithin(a: multiset<Row>, part: multiset<Row>, whole: multiset<Row>)
    requires part <= whole
    ensures a <= a + part <= whole + a
  {
  }

  /** A full page reaches down to its last timestamp, so at least `limit` rows lie from there on. */
  lemma FullPageCovers(db: multiset<Row>, lo: Time, end: Time, limit: nat, rows: seq<Row>)
    requires Answers(db, lo, end, limit, rows) && 0 < limit == |rows|
    ensures limit <= |Select(db, rows[|rows| - 1].t, end)|
  {
    var last := rows[|rows| - 1].t;
    forall r ensures multiset(rows)[r] <= Select(db, last, end)[r] {
      if r in rows {
        var i :| 0 <= i < |rows| && rows[i] == r;
        AnswerInRange(db, lo, end, limit, rows, i);
        assert multiset(rows)[r] <= Select(db, lo, end)[r];
      }
    }
    MultisetSize(multiset(rows), Select(db, last, end));
  }

  // ---- following cursors -----------------------------------------------------------

  /** Where the last page of a walk ends: at the cursor of the page before it. */
  function EndOf(hi: Time, pages: seq<Page>): Time {
    if |pages| >= 2 && pages[|pages| - 2].next.Some? then pages[|pages| - 2].next.value else hi
  }

  /** Pages read one after the other, each from the cursor of the one before. */
  ghost predicate Walk(db: multiset<Row>, lo: Time, hi: Time, limit: nat, maxTie: nat, pages: seq<Page>)
    decreases |pages|
  {
    && limit > 0 && lo < hi && |pages| > 0
    && PageOk(db, lo, EndOf(hi, pages), limit, maxTie, pages[|pages| - 1])
    && (|pages| > 1 ==>
          && pages[|pages| - 2].next.Some?
          && Walk(db, lo, hi, limit, maxTie, pages[..|pages| - 1]))
  }

  /** Where the next page of a walk ends. */
  function NextEnd(hi: Time, pages: seq<Page>): Time {
    if pages != [] && pages[|pages| - 1].next.Some? then pages[|pages| - 1].next.value else hi
  }

  lemma WalkGoesOn(db: multiset<Row>, lo: Time, hi: Time, limit: nat, maxTie: nat, pages: seq<Page>, p: Page)
    requires limit > 0 && lo < hi && PageOk(db, lo, NextEnd(hi, pages), limit, maxTie, p)
    requires pages != [] ==> Walk(db, lo, hi, limit, maxTie, pages) && pages[|pages| - 1].next.Some?
    ensures Walk(db, lo, hi, limit, maxTie, pages + [p])
  {
    var more := pages + [p];
    assert more[..|more| - 1] == pages;
  }

  function AllRows(pages: seq<Page>): seq<Row> {
    if pages == [] then [] else AllRows(pages[..|pages| - 1]) + pages[|pages| - 1].rows
  }

  predicate AnyOverflow(pages: seq<Page>) {
    pages != [] && (AnyOverflow(pages[..|pages| - 1]) || pages[|pages| - 1].tieOverflow)
  }

  /** One page loses rows of its range exactly when it reports a cut group. */
  lemma PageLosesOnlyByOverflow(db: multiset<Row>, lo: Time, end: Time, limit: nat, maxTie: nat, p: Page)
    requires PageOk(db, lo, end, limit, maxTie, p)
    ensures var b := Bound(p, lo);
      && multiset(p.rows) <= Select(db, b, end)
      && (p.tieOverflow <==> |p.rows| < |Select(db, b, end)|)
  {
    var b := Bound(p, lo);
    SelectSplit(db, b, b + 1, end);
    assert |multiset(p.rows)| == |p.rows|;
  }

  /** Every cursor a walk issues is accepted for the same range, and is earlier than the one before. */
  lemma {:induction false} CursorsAreAccepted(db: multiset<Row>, lo: Time, hi: Time, limit: nat, maxTie: nat, pages: seq<Page>)
    requires Walk(db, lo, hi, limit, maxTie, pages)
    ensures lo < EndOf(hi, pages) <= hi
    ensures pages[|pages| - 1].next.Some? ==> lo < pages[|pages| - 1].next.value < EndOf(hi, pages)
    decreases |pages|
  {
    if |pages| > 1 {
      CursorsAreAccepted(db, lo, hi, limit, maxTie, pages[..|pages| - 1]);
    }
  }

  /** What the rows read so far are, when the walk has passed everything from b on. */
  ghost predicate Passed(db: multiset<Row>, b: Time, hi: Time, rows: seq<Row>, overflow: bool) {
    && NewestFirst(rows)
    && multiset(rows) <= Select(db, b, hi)
    && (overflow <==> |rows| < |Select(db, b, hi)|)
  }

  lemma PassedMore(db: multiset<Row>, b: Time, end: Time, hi: Time, rows: seq<Row>, overflow: bool, more: seq<Row>, cut: bool)
    requires b <= end <= hi && Passed(db, end, hi, rows, overflow) && Passed(db, b, end, more, cut)
    ensures Passed(db, b, hi, rows + more, overflow || cut)
  {
    SelectSplit(db, b, end, hi);
    MultisetSize(multiset(rows), Select(db, end, hi));
    MultisetSize(multiset(more), Select(db, b, end));
    assert |multiset(rows)| == |rows| && |multiset(more)| == |more|;
    forall i, j | 0 <= i < |rows| && 0 <= j < |more| ensures rows[i].t >= more[j].t {
      assert rows[i] in multiset(rows) && more[j] in multiset(more);
    }
    assert multiset(rows + more) == multiset(rows) + multiset(more);
  }

  /**
   However far the cursors are followed: the rows so far are rows of the range
   already passed, newest first, each at most as often as it is stored; they
   are all of them exactly when no page cut a group; and every page but the
   last passed at least `limit` rows, so the walk ends.
   */
  lemma {:induction false} WalkCoversWhatItPassed(db: multiset<Row>, lo: Time, hi: Time, limit: nat, maxTie: nat, pages: seq<Page>)
    requires Walk(db, lo, hi, limit, maxTie, pages)
    ensures Passed(db, Bound(pages[|pages| - 1], lo), hi, AllRows(pages), AnyOverflow(pages))
    ensures (|pages| - 1) * limit <= |Select(db, EndOf(hi, pages), hi)|
    decreases |pages|
  {
    var n := |pages| - 1;
    var init, p := pages[..n], pages[n];
    var end := EndOf(hi, pages);
    CursorsAreAccepted(db, lo, hi, limit, maxTie, pages);
    PageLosesOnlyByOverflow(db, lo, end, limit, maxTie, p);
    assert Passed(db, Bound(p, lo), end, p.rows, p.tieOverflow);
    if n == 0 {
      assert AllRows(pages) == p.rows;
    } else {
      WalkCoversWhatItPassed(db, lo, hi, limit, maxTie, init);
      CursorsAreAccepted(db, lo, hi, limit, maxTie, init);
      PassedMore(db, Bound(p, lo), end, hi, AllRows(init), AnyOverflow(init), p.rows, p.tieOverflow);
      PassedAtLeast(db, lo, hi, limit, maxTie, init);
      OneMorePage(n, limit);
      assert end == init[n - 1].next.value;
    }
  }

  lemma OneMorePage(n: nat, limit: nat)
    ensures (n - 1) * limit + limit == n * limit
  {
  }

  lemma PassedAtLeast(db: multiset<Row>, lo: Time, hi: Time, limit: nat, maxTie: nat, pages: seq<Page>)
    requires Walk(db, lo, hi, limit, maxTie, pages) && pages[|pages| - 1].next.Some?
    requires pages[|pages| - 1].next.value <= EndOf(hi, pages) <= hi
    ensures |Select(db, EndOf(hi, pages), hi)| + limit <= |Select(db, pages[|pages| - 1].next.value, hi)|
  {
    SelectSplit(db, pages[|pages| - 1].next.value, EndOf(hi, pages), hi);
  }

  /**
   Following cursors until none is returned gives the rows of the selection,
   newest first, none skipped and none repeated, if and only if no page
   reported a cut group; in any case none is repeated.
   */
  lemma WalkIsTheSelection(db: multiset<Row>, lo: Time, hi: Time, limit: nat, maxTie: nat, pages: seq<Page>)
    requires Walk(db, lo, hi, limit, maxTie, pages) && pages[|pages| - 1].next.None?
    ensures NewestFirst(AllRows(pages)) && multiset(AllRows(pages)) <= Select(db, lo, hi)
    ensures multiset(AllRows(pages)) == Select(db, lo, hi) <==> !AnyOverflow(pages)
    ensures (|pages| - 1) * limit <= |Select(db, lo, hi)|
  {
    WalkCoversWhatItPassed(db, lo, hi, limit, maxTie, pages);
    CursorsAreAccepted(db, lo, hi, limit, maxTie, pages);
    SelectSplit(db, lo, EndOf(hi, pages), hi);
    MultisetSize(multiset(AllRows(pages)), Select(db, lo, hi));
    assert |multiset(AllRows(pages))| == |AllRows(pages)|;
  }

  /** No more than `maxTie` rows share the time t. */
  ghost predicate SmallGroup(db: multiset<Row>, maxTie: nat, t: Time) { |Select(db, t, t + 1)| <= maxTie }

  /** A group is cut only if it has more than `maxTie` rows: with smaller groups a walk loses nothing. */
  lemma {:induction false} SmallGroupsAreNotCut(db: multiset<Row>, lo: Time, hi: Time, limit: nat, maxTie: nat, pages: seq<Page>)
    requires Walk(db, lo, hi, limit, maxTie, pages) && forall t :: SmallGroup(db, maxTie, t)
    ensures !AnyOverflow(pages)
    decreases |pages|
  {
    var init, p := pages[..|pages| - 1], pages[|pages| - 1];
    assert SmallGroup(db, maxTie, Bound(p, lo));
    if |pages| > 1 {
      SmallGroupsAreNotCut(db, lo, hi, limit, maxTie, init);
    }
  }
}

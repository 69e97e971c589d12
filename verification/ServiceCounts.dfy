/**
 What the counts mean: messages and distinct clients of the log rows that
 match a category, and why a service's main count never exceeds its full one.
 */
module ServiceCounts {
  import opened Clock
  import opened RollupModel
  import opened RollupRuns
  import opened Catalog
  import opened Text
  import opened Wrappers

  datatype LogRow = LogRow(at: Time, client: string, domain: string)

  /** Whether a phrase matches a queried name, decided by the log store. */
  type Match = (string, string) -> bool

  /** A category without phrases has no condition, so it matches everything. */
  predicate Matches(hit: Match, phrases: seq<string>, r: LogRow) {
    phrases == [] || exists i :: 0 <= i < |phrases| && hit(phrases[i], r.domain)
  }

  /** The rows of bucket [t, t + step) that match one of the phrases. */
  function Matching(rows: seq<LogRow>, hit: Match, phrases: seq<string>, t: Time, step: int): seq<LogRow> {
    if rows == [] then []
    else
      (if t <= rows[0].at < t + step && Matches(hit, phrases, rows[0]) then [rows[0]] else [])
      + Matching(rows[1..], hit, phrases, t, step)
  }

  function Clients(rows: seq<LogRow>): set<string> { set i | 0 <= i < |rows| :: rows[i].client }

  function CountOf(rows: seq<LogRow>, hit: Match, phrases: seq<string>, t: Time, step: int): Count {
    var matching := Matching(rows, hit, phrases, t, step);
    Count(|Clients(matching)|, |matching|)
  }

  predicate AnyIn(rows: seq<LogRow>, t: Time, step: int) { exists i :: 0 <= i < |rows| && t <= rows[i].at < t + step }

  /** The answers a log store gives when it holds these rows. */
  function StoreOf(rows: seq<LogRow>, hit: Match): LogStore {
    LogStore((t, step) => AnyIn(rows, t, step), (c: Category, t, step) => CountOf(rows, hit, c.phrases, t, step))
  }

  /** More phrases match at least as many messages, from at least the same clients. */
  lemma {:induction false} MorePhrasesMatchMore(rows: seq<LogRow>, hit: Match, few: seq<string>, many: seq<string>, t: Time, step: int)
    requires (forall p :: p in few ==> p in many) && (few != [] || many == [])
    ensures |Matching(rows, hit, few, t, step)| <= |Matching(rows, hit, many, t, step)|
    ensures Clients(Matching(rows, hit, few, t, step)) <= Clients(Matching(rows, hit, many, t, step))
  {
    if rows != [] {
      MorePhrasesMatchMore(rows[1..], hit, few, many, t, step);
      var r := rows[0];
      if Matches(hit, few, r) && few != [] {
        var i :| 0 <= i < |few| && hit(few[i], r.domain);
        assert few[i] in few;
        var j :| 0 <= j < |many| && many[j] == few[i];
        assert Matches(hit, many, r);
      }
      ClientsJoin(if t <= r.at < t + step && Matches(hit, few, r) then [r] else [], Matching(rows[1..], hit, few, t, step));
      ClientsJoin(if t <= r.at < t + step && Matches(hit, many, r) then [r] else [], Matching(rows[1..], hit, many, t, step));
    }
  }

  lemma ClientsJoin(a: seq<LogRow>, b: seq<LogRow>)
    ensures Clients(a + b) == Clients(a) + Clients(b)
  {
    forall c | c in Clients(a) + Clients(b) ensures c in Clients(a + b) {
      if c in Clients(a) {
        var i :| 0 <= i < |a| && a[i].client == c;
        assert (a + b)[i].client == c;
      } else {
        var i :| 0 <= i < |b| && b[i].client == c;
        assert (a + b)[|a| + i].client == c;
      }
    }
  }

  lemma SubsetIsNoLarger(a: set<string>, b: set<string>)
    requires a <= b
    ensures |a| <= |b|
  {
    assert b == a + (b - a);
  }

  /** The main count exceeds the full one neither in messages nor in clients. */
  predicate Below(main: Count, full: Count) { main.messages <= full.messages && main.distinct <= full.distinct }

  /** Main domains that leave no phrase match every row, so then the full ones must as well. */
  predicate Comparable(s: Service) { Phrases(s.mainDomains) != [] || Phrases(s.domains) == [] }

  function MainCount(s: Service, rows: seq<LogRow>, hit: Match, t: Time, step: int): Count {
    CountOf(rows, hit, Phrases(s.mainDomains), t, step)
  }

  function FullCount(s: Service, rows: seq<LogRow>, hit: Match, t: Time, step: int): Count {
    CountOf(rows, hit, Phrases(s.domains), t, step)
  }

  /** For every service of a valid catalog that is comparable, every phrase-match predicate and any rows. */
  lemma MainBelowFull(s: Service, rows: seq<LogRow>, hit: Match, t: Time, step: int)
    requires ServiceOk(s) && Comparable(s)
    ensures Below(MainCount(s, rows, hit, t, step), FullCount(s, rows, hit, t, step))
  {
    forall p | p in Phrases(s.mainDomains) ensures p in Phrases(s.domains) {
      MainPhrasesAreFullPhrases(s, p);
    }
    MorePhrasesMatchMore(rows, hit, Phrases(s.mainDomains), Phrases(s.domains), t, step);
    SubsetIsNoLarger(Clients(Matching(rows, hit, Phrases(s.mainDomains), t, step)),
                     Clients(Matching(rows, hit, Phrases(s.domains), t, step)));
  }

  const NEVER: Match := (phrase, domain) => false

  /** One row that no phrase matches is counted by exactly the categories without phrases. */
  lemma OneUnmatchedRow(phrases: seq<string>, r: LogRow, step: int)
    requires step > 0
    ensures CountOf([r], NEVER, phrases, r.at, step) == if phrases == [] then Count(1, 1) else Count(0, 0)
  {
    assert [r][1..] == [];
    if phrases == [] {
      assert Matching([r], NEVER, phrases, r.at, step) == [r];
      assert Clients([r]) == {r.client};
    } else {
      assert Matching([r], NEVER, phrases, r.at, step) == [];
    }
  }

  /**
   For every service that passes validation: its main counts stay within its full
   counts for every phrase-match predicate and all rows, if and only if its main
   domains leave a phrase or its domains leave none.
   */
  lemma MainNeverExceedsFull(s: Service)
    requires ServiceOk(s)
    ensures (forall rows, hit, t, step :: Below(MainCount(s, rows, hit, t, step), FullCount(s, rows, hit, t, step))) <==> Comparable(s)
  {
    if Comparable(s) {
      forall rows, hit, t, step ensures Below(MainCount(s, rows, hit, t, step), FullCount(s, rows, hit, t, step)) {
        MainBelowFull(s, rows, hit, t, step);
      }
    } else {
      var r := LogRow(ZERO, "client", "domain");
      OneUnmatchedRow(Phrases(s.mainDomains), r, 1);
      OneUnmatchedRow(Phrases(s.domains), r, 1);
      assert !Below(MainCount(s, [r], NEVER, ZERO, 1), FullCount(s, [r], NEVER, ZERO, 1));
    }
  }

  // ---- a valid service that is not comparable ---------------------------------------------------

  /** A dot between spaces that are not plain ones: it passes validation, and its normal form is empty. */
  const ODD: string := "\U{a0}.\U{a0}"

  lemma OddDomain()
    ensures ValidDomain(ODD) && NormalDomain(ODD) == ""
  {
    assert ODD[1..] == ".\U{a0}" && ".\U{a0}"[..1] == ".";
    assert TrimLeft(IsSpace, ODD) == ".\U{a0}" && TrimRight(IsSpace, ".\U{a0}") == ".";
    assert Trim(IsSpace, ODD) == ".";
    assert "."[1..] == "" && TrimDots(".") == "" && Lower("") == "";
    OddBytes();
    assert TrimDots(ODD) == ODD && ODD[1] == '.';
  }

  lemma OddBytes()
    ensures ByteLength(ODD) == 5
  {
    assert ODD[..2] == "\U{a0}." && "\U{a0}."[..1] == "\U{a0}" && "\U{a0}"[..0] == "";
    assert ByteLength("\U{a0}") == 2 && ByteLength("\U{a0}.") == 3;
  }

  /** The service with one domain more, which becomes its only main one. */
  function WithOdd(s: Service): Service { s.(domains := s.domains + [ODD], mainDomains := [ODD]) }

  /** Any valid service with room for another domain stays valid with it, and its main counts are then those of all rows. */
  lemma OddStaysValid(s: Service)
    requires ServiceOk(s) && |s.domains| < MAX_DOMAINS_PER_SERVICE && Phrases(s.domains) != []
    ensures ServiceOk(WithOdd(s)) && !Comparable(WithOdd(s))
  {
    OddDomain();
    OddHasNoPhrase(s.domains, ODD);
    OddIsAmong(s.domains, ODD);
  }

  lemma OddHasNoPhrase(domains: seq<string>, d: string)
    requires NormalDomain(d) == ""
    ensures Phrases([d]) == [] && Phrases(domains + [d]) == Phrases(domains)
  {
    assert [d][..0] == [];
    assert (domains + [d])[..|domains|] == domains;
  }

  lemma OddIsAmong(domains: seq<string>, d: string)
    ensures IsDomainOf(d, domains + [d])
  {
    assert NormalDomain((domains + [d])[|domains|]) == NormalDomain(d);
  }

  // ---- catalogs and stored samples ------------------------------------------------------------

  /** Every service with a main category is comparable. */
  predicate AllComparable(services: seq<Service>) {
    forall s :: s in services && Counted(s) && |s.mainDomains| > 0 ==> Comparable(s)
  }

  /** A main-scope sample has a full-scope sample beside it that is at least as large. */
  ghost predicate PairBelow(logs: LogStore, main: seq<Category>, all: seq<Category>, step: int, k: Key)
    requires step > 0
  {
    var full := k.(scope := All);
    Expected(logs, main, Main, step, k).Some? ==>
      && Expected(logs, all, All, step, full).Some?
      && Expected(logs, main, Main, step, k).value <= Expected(logs, all, All, step, full).value
  }

  ghost predicate SampleBelow(services: seq<Service>, rows: seq<LogRow>, hit: Match, step: int, k: Key)
    requires step > 0
  {
    PairBelow(StoreOf(rows, hit), MainCategories(services), Categories(services), step, k)
  }

  function Part(n: Count, metric: Metric): nat { if metric == UniqueClients then n.distinct else n.messages }

  /** Which categories the two samples count. */
  lemma PairOf(logs: LogStore, main: seq<Category>, all: seq<Category>, step: int, k: Key, m: Category, f: Category)
    requires step > 0 && Find(main, k.service) == Some(m) && Find(all, k.service) == Some(f)
    ensures PairBelow(logs, main, all, step, k) <==>
      (k.window == WindowName(step) && k.scope == Main && Aligned(k.at, step) && logs.active(k.at, step) ==>
        Part(logs.count(m, k.at, step), k.metric) <= Part(logs.count(f, k.at, step), k.metric))
  {
  }

  lemma CountsOf(rows: seq<LogRow>, hit: Match, s: Service, t: Time, step: int)
    ensures StoreOf(rows, hit).count(MainCategoryOf(s), t, step) == MainCount(s, rows, hit, t, step)
    ensures StoreOf(rows, hit).count(CategoryOf(s), t, step) == FullCount(s, rows, hit, t, step)
  {
  }

  lemma ExpectedMainBelowFull(services: seq<Service>, rows: seq<LogRow>, hit: Match, step: int, k: Key)
    requires Valid(services) && step > 0 && AllComparable(services)
    ensures SampleBelow(services, rows, hit, step, k)
  {
    if Find(MainCategories(services), k.service).Some? {
      var s := ServiceBehind(services, k.service);
      MainBelowFull(s, rows, hit, k.at, step);
      CountsOf(rows, hit, s, k.at, step);
      BelowGivesPair(StoreOf(rows, hit), MainCategories(services), Categories(services), step, k, MainCategoryOf(s), CategoryOf(s));
    } else {
      NoMainSample(StoreOf(rows, hit), MainCategories(services), Categories(services), step, k);
    }
  }

  lemma BelowGivesPair(logs: LogStore, main: seq<Category>, all: seq<Category>, step: int, k: Key, m: Category, f: Category)
    requires step > 0 && Find(main, k.service) == Some(m) && Find(all, k.service) == Some(f)
    requires Below(logs.count(m, k.at, step), logs.count(f, k.at, step))
    ensures PairBelow(logs, main, all, step, k)
  {
    PairOf(logs, main, all, step, k, m, f);
  }

  lemma NoMainSample(logs: LogStore, main: seq<Category>, all: seq<Category>, step: int, k: Key)
    requires step > 0 && Find(main, k.service).None?
    ensures PairBelow(logs, main, all, step, k)
  {
  }

  /** The service whose main category has this name also has its full category under it. */
  lemma ServiceBehind(services: seq<Service>, name: string) returns (s: Service)
    requires Valid(services) && Find(MainCategories(services), name).Some?
    ensures ServiceOk(s) && s in services && Counted(s) && |s.mainDomains| > 0
    ensures Find(MainCategories(services), name) == Some(MainCategoryOf(s))
    ensures Find(Categories(services), name) == Some(CategoryOf(s))
  {
    ValidCatalogHasDistinctCategories(services);
    s := EnabledBehind(Enabled(services), name);
    assert s in services;
  }

  lemma EnabledBehind(enabled: seq<Service>, name: string) returns (s: Service)
    requires DistinctNames(AllOf(enabled)) && Find(MainOf(enabled), name).Some?
    ensures s in enabled && |s.mainDomains| > 0
    ensures Find(MainOf(enabled), name) == Some(MainCategoryOf(s))
    ensures Find(AllOf(enabled), name) == Some(CategoryOf(s))
  {
    FindMember(MainOf(enabled), name);
    MainOfMember(enabled);
    var c := Find(MainOf(enabled), name).value;
    s :| s in enabled && |s.mainDomains| > 0 && c == MainCategoryOf(s);
    var i :| 0 <= i < |enabled| && enabled[i] == s;
    assert AllOf(enabled)[i] == CategoryOf(s);
    FindMember(AllOf(enabled), name);
  }

  /** An enabled service with main domains is found under its name in both scopes. */
  lemma CategoriesOf(services: seq<Service>, s: Service)
    requires Valid(services) && s in services && Counted(s) && |s.mainDomains| > 0
    ensures Find(MainCategories(services), s.name) == Some(MainCategoryOf(s))
    ensures Find(Categories(services), s.name) == Some(CategoryOf(s))
  {
    ValidCatalogHasDistinctCategories(services);
    var enabled := Enabled(services);
    MainOfMember(enabled);
    assert MainCategoryOf(s) in MainOf(enabled);
    var i :| 0 <= i < |enabled| && enabled[i] == s;
    assert AllOf(enabled)[i] == CategoryOf(s);
    FindMember(MainOf(enabled), s.name);
    FindMember(AllOf(enabled), s.name);
  }

  /** A service that is not comparable gives some window a main sample above its full one. */
  lemma IncomparableExceeds(services: seq<Service>, s: Service, step: int) returns (rows: seq<LogRow>, k: Key)
    requires Valid(services) && step > 0 && s in services && Counted(s) && |s.mainDomains| > 0 && !Comparable(s)
    ensures !SampleBelow(services, rows, NEVER, step, k)
  {
    var r := LogRow(ZERO, "client", "domain");
    rows, k := [r], Key(Queries, s.name, WindowName(step), Main, ZERO);
    CategoriesOf(services, s);
    OneUnmatchedRow(Phrases(s.mainDomains), r, step);
    OneUnmatchedRow(Phrases(s.domains), r, step);
    CountsOf(rows, NEVER, s, ZERO, step);
    ActiveThere(rows, NEVER, 0, step);
    PairOf(StoreOf(rows, NEVER), MainCategories(services), Categories(services), step, k, MainCategoryOf(s), CategoryOf(s));
  }

  lemma ActiveThere(rows: seq<LogRow>, hit: Match, i: nat, step: int)
    requires step > 0 && i < |rows|
    ensures StoreOf(rows, hit).active(rows[i].at, step)
  {
    assert AnyIn(rows, rows[i].at, step);
  }

  /**
   For every valid catalog: no main sample of any rows exceeds its full sample if
   and only if every service with a main category is comparable.
   */
  lemma SamplesBelowIffComparable(services: seq<Service>, step: int)
    requires Valid(services) && step > 0
    ensures (forall rows, hit, k :: SampleBelow(services, rows, hit, step, k)) <==> AllComparable(services)
  {
    if AllComparable(services) {
      forall rows, hit, k ensures SampleBelow(services, rows, hit, step, k) {
        ExpectedMainBelowFull(services, rows, hit, step, k);
      }
    } else {
      var s :| s in services && Counted(s) && |s.mainDomains| > 0 && !Comparable(s);
      var rows, k := IncomparableExceeds(services, s, step);
    }
  }

  /**
   In the metrics store: for every window a run recorded, after that run and
   every later one, each main sample of a comparable catalog is at most its full
   sample. Each run sees the log rows there are at its time, in both scopes.
   */
  lemma StoredMainBelowFull(o: Options, rows: seq<LogRow>, hit: Match, services: seq<Service>, logs: seq<LogStore>,
                            runs: seq<RunInput>, snaps: seq<Snapshot>, i: nat, j: nat, step: int, k: Key)
    requires WholeRuns(o, logs, runs, snaps)
    requires i < j < |snaps| && step in Resolutions(o) && step > 0 && k.window == WindowName(step) && k.scope == Main
    requires logs[i] == StoreOf(rows, hit)
    requires RecordedBy(o, step, runs, snaps, i, k.at)
    requires Valid(services) && runs[i].all == Categories(services) && runs[i].main == MainCategories(services)
    requires Expected(logs[i], runs[i].main, Main, step, k).Some?
    ensures k in snaps[j].samples
    ensures AllComparable(services) ==>
      k.(scope := All) in snaps[j].samples && snaps[j].samples[k] <= snaps[j].samples[k.(scope := All)]
  {
    RecordedForGood(o, logs, runs, snaps, i, j, step, k);
    RecordedForGood(o, logs, runs, snaps, i, j, step, k.(scope := All));
    if AllComparable(services) {
      ExpectedMainBelowFull(services, rows, hit, step, k);
    }
  }
}

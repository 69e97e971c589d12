/** The service catalog: validation, and the categories a rollup counts. */
module Catalog {
  import opened RollupModel
  import Sorting
  import opened Text

  const MAX_SERVICES: int := 32
  const MAX_DOMAINS_PER_SERVICE: int := 32
  const MAX_NAME_BYTES: int := 64
  const MAX_LABEL_BYTES: int := 64
  const MAX_DOMAIN_BYTES: int := 253

  datatype Service = Service(
    name: string,
    title: string,
    domains: seq<string>,
    mainDomains: seq<string>,
    country: string,
    enabled: bool)

  // ---- domains ----------------------------------------------------------------

  predicate IsDot(c: char) { c == '.' }

  function TrimDots(s: string): string { Trim(IsDot, s) }

  /** A domain as it is compared: lower case, no dots or spaces around it. */
  function NormalDomain(d: string): string { Lower(TrimDots(Trim(IsSpace, d))) }

  predicate ContainsAny(s: string, chars: string) { exists i :: 0 <= i < |s| && s[i] in chars }

  predicate ValidDomain(d: string) {
    && Trim(IsSpace, d) != ""
    && ByteLength(d) <= MAX_DOMAIN_BYTES
    && !ContainsAny(d, " \t\n\r\"'*")
    && '.' in TrimDots(d)
  }

  /** Domains normalised for matching: no blanks, no repeats, in order. */
  function Phrases(domains: seq<string>): seq<string> {
    if domains == [] then []
    else
      var before := Phrases(domains[..|domains| - 1]);
      var d := NormalDomain(domains[|domains| - 1]);
      if d == "" || d in before then before else before + [d]
  }

  method ComputePhrases(domains: seq<string>) returns (out: seq<string>)
    ensures out == Phrases(domains)
  {
    out := [];
    var seen: set<string> := {};
    for i := 0 to |domains|
      invariant out == Phrases(domains[..i])
      invariant seen == set d | d in out
    {
      var d := NormalDomain(domains[i]);
      assert domains[..i + 1][..i] == domains[..i];
      if d == "" || d in seen {
        continue;
      }
      seen := seen + {d};
      out := out + [d];
    }
    assert domains[..|domains|] == domains;
  }

  /** A phrase is the normal form of a domain, and each one appears once. */
  lemma {:induction false} PhrasesAreNormalDomains(domains: seq<string>)
    ensures forall p :: p in Phrases(domains) <==> p != "" && exists d :: d in domains && p == NormalDomain(d)
    ensures forall i, j :: 0 <= i < j < |Phrases(domains)| ==> Phrases(domains)[i] != Phrases(domains)[j]
  {
    if domains != [] {
      var init, last := domains[..|domains| - 1], domains[|domains| - 1];
      assert domains == init + [last];
      PhrasesAreNormalDomains(init);
      forall p ensures p in Phrases(domains) <==> p != "" && exists d :: d in domains && p == NormalDomain(d) {
        if p in Phrases(init) {
          var d :| d in init && p == NormalDomain(d);
          assert d in domains;
        } else if p == NormalDomain(last) {
          assert last in domains;
        } else if exists d :: d in domains && p == NormalDomain(d) {
          var d :| d in domains && p == NormalDomain(d);
          assert d in init;
        }
      }
    }
  }

  lemma DomainOfPhrase(domains: seq<string>, p: string) returns (d: string)
    requires p in Phrases(domains)
    ensures p != "" && d in domains && p == NormalDomain(d)
  {
    PhrasesAreNormalDomains(domains);
    d :| d in domains && p == NormalDomain(d);
  }

  lemma PhraseOfDomain(domains: seq<string>, d: string)
    requires d in domains && NormalDomain(d) != ""
    ensures NormalDomain(d) in Phrases(domains)
  {
    PhrasesAreNormalDomains(domains);
  }

  function UpperChar(c: char): char { if 'a' <= c <= 'z' then c - 'a' + 'A' else c }

  lemma CapitalsAreNotTrimmed(c: char)
    ensures (IsSpace(UpperChar(c)) <==> IsSpace(c)) && (IsDot(UpperChar(c)) <==> IsDot(c))
    ensures LowerChar(UpperChar(c)) == LowerChar(c)
  {
  }

  /** A domain written in capitals has the same normal form. */
  lemma CaseDoesNotMatter(d: string)
    ensures NormalDomain(Mapped(UpperChar, d)) == NormalDomain(d)
  {
    forall c ensures (IsSpace(UpperChar(c)) <==> IsSpace(c)) && (IsDot(UpperChar(c)) <==> IsDot(c)) {
      CapitalsAreNotTrimmed(c);
    }
    var t := Trim(IsSpace, d);
    TrimMapped(IsSpace, UpperChar, d);
    TrimMapped(IsDot, UpperChar, t);
    LowerOfCapitals(TrimDots(t));
    assert Trim(IsSpace, Mapped(UpperChar, d)) == Mapped(UpperChar, t);
    assert TrimDots(Mapped(UpperChar, t)) == Mapped(UpperChar, TrimDots(t));
  }

  lemma LowerOfCapitals(s: string)
    ensures Lower(Mapped(UpperChar, s)) == Lower(s)
  {
    forall i | 0 <= i < |s| ensures Lower(Mapped(UpperChar, s))[i] == Lower(s)[i] {
      CapitalsAreNotTrimmed(s[i]);
    }
  }

  /**
   The normal form is the domain in lower case without what is around it, which
   is only spaces and dots, and it does not begin or end with a dot.
   */
  lemma NormalDomainIs(d: string) returns (a: nat, b: nat)
    ensures a <= b <= |d| && NormalDomain(d) == Lower(d[a..b])
    ensures forall i :: 0 <= i < a || b <= i < |d| ==> IsSpace(d[i]) || d[i] == '.'
    ensures a < b ==> d[a] != '.' && d[b - 1] != '.'
    ensures forall i :: 0 <= i < |NormalDomain(d)| ==> !('A' <= NormalDomain(d)[i] <= 'Z')
  {
    var x, y := TrimAt(IsSpace, d);
    var v, w := TrimAt(IsDot, d[x..y]);
    a, b := x + v, x + w;
    assert d[x..y][v..w] == d[a..b];
    TrimmedTwice(d, x, y, v, w);
    NoCapitals(d[a..b]);
  }

  lemma TrimmedTwice(d: string, x: nat, y: nat, v: nat, w: nat)
    requires Ends(IsSpace, d, x, y) && Ends(IsDot, d[x..y], v, w)
    ensures forall i :: 0 <= i < x + v || x + w <= i < |d| ==> IsSpace(d[i]) || d[i] == '.'
    ensures v < w ==> d[x + v] != '.' && d[x + w - 1] != '.'
  {
    forall i | 0 <= i < x + v || x + w <= i < |d| ensures IsSpace(d[i]) || d[i] == '.' {
      if x <= i < y {
        assert d[i] == d[x..y][i - x];
      }
    }
  }

  lemma NoCapitals(s: string)
    ensures forall i :: 0 <= i < |Lower(s)| ==> !('A' <= Lower(s)[i] <= 'Z')
  {
  }

  /** A dot with something else before it and after it. */
  ghost predicate InnerDot(d: string) {
    exists i, j, k :: 0 <= i < j < k < |d| && d[i] != '.' && d[j] == '.' && d[k] != '.'
  }

  lemma DotLeft(d: string)
    ensures '.' in TrimDots(d) <==> InnerDot(d)
  {
    var a, b := TrimAt(IsDot, d);
    if '.' in d[a..b] {
      var j :| 0 <= j < |d[a..b]| && d[a..b][j] == '.';
      assert d[a] != '.' && d[a + j] == '.' && d[b - 1] != '.';
    }
    if InnerDot(d) {
      var i, j, k :| 0 <= i < j < k < |d| && d[i] != '.' && d[j] == '.' && d[k] != '.';
      assert a <= i && k < b;
      assert d[a..b][j - a] == '.';
    }
  }

  /** A domain is accepted exactly if it is short, plain, and has a dot inside. */
  lemma ValidDomainMeans(d: string)
    ensures ValidDomain(d) <==>
      ByteLength(d) <= 253 && InnerDot(d) && forall i :: 0 <= i < |d| ==> d[i] !in " \t\n\r\"'*"
    ensures '.' !in d ==> !ValidDomain(d)
  {
    DotLeft(d);
    var a, b := TrimAt(IsSpace, d);
    if InnerDot(d) {
      var j :| 0 <= j < |d| && d[j] == '.';
      assert !IsSpace(d[j]);
      assert a <= j < b;
    }
  }

  // ---- validation ---------------------------------------------------------------

  predicate SlugChar(c: char) { 'a' <= c <= 'z' || '0' <= c <= '9' || c == '_' || c == '-' }

  predicate ValidName(name: string) {
    && name != ""
    && ByteLength(name) <= MAX_NAME_BYTES
    && forall i :: 0 <= i < |name| ==> SlugChar(name[i])
  }

  const LETTERS: set<char> := {
    'a', 'b', 'c', 'd', 'e', 'f', 'g', 'h', 'i', 'j', 'k', 'l', 'm', 'n', 'o', 'p', 'q', 'r', 's', 't', 'u', 'v', 'w', 'x', 'y', 'z'}

  const OTHERS: set<char> := {'0', '1', '2', '3', '4', '5', '6', '7', '8', '9', '_', '-'}

  lemma SlugCharIs(c: char)
    ensures SlugChar(c) <==> c in LETTERS || c in OTHERS
  {
  }

  lemma {:induction false} PlainLength(s: string)
    requires forall i :: 0 <= i < |s| ==> s[i] < '\U{80}'
    ensures ByteLength(s) == |s|
  {
    if s != "" {
      PlainLength(s[..|s| - 1]);
    }
  }

  /** A name is accepted exactly if it has one to sixty-four characters, all of them small letters, digits, or one of "_-". */
  lemma ValidNameMeans(name: string)
    ensures ValidName(name) <==> 0 < |name| <= 64 && forall i :: 0 <= i < |name| ==> name[i] in LETTERS || name[i] in OTHERS
  {
    forall i | 0 <= i < |name| ensures SlugChar(name[i]) <==> name[i] in LETTERS || name[i] in OTHERS {
      SlugCharIs(name[i]);
    }
    if forall i :: 0 <= i < |name| ==> SlugChar(name[i]) {
      PlainLength(name);
    }
  }

  predicate Letter(c: char) { 'a' <= c <= 'z' || 'A' <= c <= 'Z' }

  predicate ValidCountry(country: string) {
    country == "" || (|country| == 2 && Letter(country[0]) && Letter(country[1]))
  }

  const CAPITALS: set<char> := {
    'A', 'B', 'C', 'D', 'E', 'F', 'G', 'H', 'I', 'J', 'K', 'L', 'M', 'N', 'O', 'P', 'Q', 'R', 'S', 'T', 'U', 'V', 'W', 'X', 'Y', 'Z'}

  lemma LetterIs(c: char)
    ensures Letter(c) <==> c in LETTERS || c in CAPITALS
  {
  }

  /** A country is accepted exactly if it is empty or two letters. */
  lemma ValidCountryMeans(country: string)
    ensures ValidCountry(country) <==>
      country == "" || (|country| == 2 && forall i :: 0 <= i < 2 ==> country[i] in LETTERS || country[i] in CAPITALS)
  {
    if |country| == 2 {
      LetterIs(country[0]);
      LetterIs(country[1]);
    }
  }

  predicate IsDomainOf(d: string, domains: seq<string>) {
    exists i :: 0 <= i < |domains| && NormalDomain(domains[i]) == NormalDomain(d)
  }

  /** What one service must satisfy on its own. */
  predicate ServiceOk(s: Service) {
    && ValidName(s.name)
    && ByteLength(s.title) <= MAX_LABEL_BYTES
    && !ContainsAny(s.title, "\n\r")
    && 0 < |s.domains| <= MAX_DOMAINS_PER_SERVICE
    && (forall i :: 0 <= i < |s.domains| ==> ValidDomain(s.domains[i]))
    && (forall i :: 0 <= i < |s.mainDomains| ==> ValidDomain(s.mainDomains[i]) && IsDomainOf(s.mainDomains[i], s.domains))
    && ValidCountry(s.country)
  }

  /** What a catalog must satisfy. */
  ghost predicate Valid(services: seq<Service>) {
    && |services| <= MAX_SERVICES
    && (forall i :: 0 <= i < |services| ==> ServiceOk(services[i]))
    && (forall i, j :: 0 <= i < j < |services| ==> services[i].name != services[j].name)
  }

  datatype Problem =
    | TooManyServices
    | BadName(service: nat)
    | NameTaken(service: nat)
    | LongLabel(service: nat)
    | MultilineLabel(service: nat)
    | NoDomain(service: nat)
    | TooManyDomains(service: nat)
    | BadDomain(service: nat, domain: nat)
    | BadMainDomain(service: nat, domain: nat)
    | ForeignMainDomain(service: nat, domain: nat)
    | BadCountry(service: nat)

  predicate NameHas(services: seq<Service>, n: nat, p: Problem)
    requires n < |services|
  {
    match p
    case BadName(m) => m == n && !ValidName(services[n].name)
    case NameTaken(m) => m == n && ValidName(services[n].name) && exists j :: 0 <= j < n && services[j].name == services[n].name
    case _ => false
  }

  predicate LabelHas(n: nat, s: Service, p: Problem) {
    match p
    case LongLabel(m) => m == n && ByteLength(s.title) > MAX_LABEL_BYTES
    case MultilineLabel(m) => m == n && ContainsAny(s.title, "\n\r")
    case NoDomain(m) => m == n && |s.domains| == 0
    case TooManyDomains(m) => m == n && |s.domains| > MAX_DOMAINS_PER_SERVICE
    case BadCountry(m) => m == n && !ValidCountry(s.country)
    case _ => false
  }

  predicate DomainHas(n: nat, s: Service, p: Problem, upto: nat) {
    p.BadDomain? && p.service == n && p.domain < upto && p.domain < |s.domains| && !ValidDomain(s.domains[p.domain])
  }

  predicate MainHas(n: nat, s: Service, p: Problem, upto: nat) {
    && (p.BadMainDomain? || p.ForeignMainDomain?) && p.service == n && p.domain < upto && p.domain < |s.mainDomains|
    && var d := s.mainDomains[p.domain];
    if p.BadMainDomain? then !ValidDomain(d) else ValidDomain(d) && !IsDomainOf(d, s.domains)
  }

  predicate ServiceHas(services: seq<Service>, n: nat, p: Problem)
    requires n < |services|
  {
    var s := services[n];
    NameHas(services, n, p) || LabelHas(n, s, p) || DomainHas(n, s, p, |s.domains|) || MainHas(n, s, p, |s.mainDomains|)
  }

  /** The problems among the first n services, and with their number. */
  predicate Has(services: seq<Service>, p: Problem, n: nat)
    requires n <= |services|
  {
    if p.TooManyServices? then |services| > MAX_SERVICES else p.service < n && ServiceHas(services, p.service, p)
  }

  /** Reports exactly the problems there are, all at once. */
  method Validate(services: seq<Service>) returns (problems: seq<Problem>)
    ensures forall p :: p in problems <==> Has(services, p, |services|)
    ensures problems == [] <==> Valid(services)
  {
    problems := if |services| > MAX_SERVICES then [TooManyServices] else [];
    var seen: set<string> := {};
    for i := 0 to |services|
      invariant seen == set j | 0 <= j < i :: services[j].name
      invariant forall p :: p in problems <==> Has(services, p, i)
    {
      var name := CheckName(services, i, seen);
      seen := seen + {services[i].name};
      var rest := CheckService(i, services[i]);
      problems := problems + name + rest;
    }
    NoProblemMeansValid(services);
    if problems != [] {
      assert problems[0] in problems;
    }
  }

  method CheckName(services: seq<Service>, n: nat, seen: set<string>) returns (problems: seq<Problem>)
    requires n < |services| && seen == set j | 0 <= j < n :: services[j].name
    ensures forall p :: p in problems <==> NameHas(services, n, p)
  {
    var name := services[n].name;
    assert name in seen <==> exists j :: 0 <= j < n && services[j].name == name;
    if !ValidName(name) {
      problems := [BadName(n)];
    } else if name in seen {
      problems := [NameTaken(n)];
    } else {
      problems := [];
    }
  }

  method CheckService(n: nat, s: Service) returns (problems: seq<Problem>)
    ensures forall p :: p in problems <==>
      LabelHas(n, s, p) || DomainHas(n, s, p, |s.domains|) || MainHas(n, s, p, |s.mainDomains|)
  {
    var head := CheckLabel(n, s);
    var bad, domains := CheckDomains(n, s);
    var badMain := CheckMainDomains(n, s, domains);
    var country := if ValidCountry(s.country) then [] else [BadCountry(n)];
    problems := head + bad + badMain + country;
  }

  method CheckLabel(n: nat, s: Service) returns (problems: seq<Problem>)
    ensures forall p :: p in problems <==> LabelHas(n, s, p) && !p.BadCountry?
  {
    problems := [];
    if ByteLength(s.title) > MAX_LABEL_BYTES {
      problems := problems + [LongLabel(n)];
    }
    if ContainsAny(s.title, "\n\r") {
      problems := problems + [MultilineLabel(n)];
    }
    if |s.domains| == 0 {
      problems := problems + [NoDomain(n)];
    } else if |s.domains| > MAX_DOMAINS_PER_SERVICE {
      problems := problems + [TooManyDomains(n)];
    }
  }

  method CheckDomains(n: nat, s: Service) returns (problems: seq<Problem>, domains: set<string>)
    ensures forall p :: p in problems <==> DomainHas(n, s, p, |s.domains|)
    ensures domains == Images(NormalDomain, s.domains)
  {
    problems, domains := [], {};
    for i := 0 to |s.domains|
      invariant domains == Images(NormalDomain, s.domains[..i])
      invariant forall p :: p in problems <==> DomainHas(n, s, p, i)
    {
      assert s.domains[..i + 1][..i] == s.domains[..i];
      if !ValidDomain(s.domains[i]) {
        problems := problems + [BadDomain(n, i)];
      }
      domains := domains + {NormalDomain(s.domains[i])};
    }
    assert s.domains[..|s.domains|] == s.domains;
  }

  function Images(f: string -> string, texts: seq<string>): set<string> {
    if texts == [] then {} else Images(f, texts[..|texts| - 1]) + {f(texts[|texts| - 1])}
  }

  lemma {:induction false} ImagesHold(f: string -> string, texts: seq<string>, image: string)
    ensures image in Images(f, texts) <==> exists i :: 0 <= i < |texts| && f(texts[i]) == image
  {
    if texts != [] {
      var init := texts[..|texts| - 1];
      ImagesHold(f, init, image);
      if i :| 0 <= i < |init| && f(init[i]) == image {
        assert f(texts[i]) == image;
      }
    }
  }

  lemma DomainIsKnown(domains: seq<string>, d: string)
    ensures NormalDomain(d) in Images(NormalDomain, domains) <==> IsDomainOf(d, domains)
  {
    ImagesHold(NormalDomain, domains, NormalDomain(d));
  }

  method CheckMainDomains(n: nat, s: Service, domains: set<string>) returns (problems: seq<Problem>)
    requires domains == Images(NormalDomain, s.domains)
    ensures forall p :: p in problems <==> MainHas(n, s, p, |s.mainDomains|)
  {
    problems := [];
    for i := 0 to |s.mainDomains|
      invariant forall p :: p in problems <==> MainHas(n, s, p, i)
    {
      var d := s.mainDomains[i];
      DomainIsKnown(s.domains, d);
      if !ValidDomain(d) {
        problems := problems + [BadMainDomain(n, i)];
      } else if NormalDomain(d) !in domains {
        problems := problems + [ForeignMainDomain(n, i)];
      }
    }
  }

  /** A service without problems of its own is sound. */
  lemma ServiceWithoutProblems(services: seq<Service>, n: nat)
    requires n < |services|
    ensures (forall p :: !ServiceHas(services, n, p)) <==>
            ServiceOk(services[n]) && forall j :: 0 <= j < n ==> services[j].name != services[n].name
  {
    var s := services[n];
    if forall p :: !ServiceHas(services, n, p) {
      assert !ServiceHas(services, n, BadName(n)) && !ServiceHas(services, n, NameTaken(n));
      assert !ServiceHas(services, n, LongLabel(n)) && !ServiceHas(services, n, MultilineLabel(n));
      assert !ServiceHas(services, n, NoDomain(n)) && !ServiceHas(services, n, TooManyDomains(n));
      assert !ServiceHas(services, n, BadCountry(n));
      forall i | 0 <= i < |s.domains| ensures ValidDomain(s.domains[i]) {
        assert !ServiceHas(services, n, BadDomain(n, i));
      }
      forall i | 0 <= i < |s.mainDomains| ensures ValidDomain(s.mainDomains[i]) && IsDomainOf(s.mainDomains[i], s.domains) {
        assert !ServiceHas(services, n, BadMainDomain(n, i)) && !ServiceHas(services, n, ForeignMainDomain(n, i));
      }
    }
  }

  /** A catalog is valid exactly when it has no problem. */
  lemma NoProblemMeansValid(services: seq<Service>)
    ensures (forall p :: !Has(services, p, |services|)) <==> Valid(services)
  {
    forall n | 0 <= n < |services|
      ensures (forall p :: !ServiceHas(services, n, p)) <==>
              ServiceOk(services[n]) && forall j :: 0 <= j < n ==> services[j].name != services[n].name
    {
      ServiceWithoutProblems(services, n);
    }
    if forall p :: !Has(services, p, |services|) {
      assert !Has(services, TooManyServices, |services|);
      forall n, p | 0 <= n < |services| ensures !ServiceHas(services, n, p) {
        if ServiceHas(services, n, p) {
          assert Has(services, p, |services|);
        }
      }
    }
  }

  // ---- categories -----------------------------------------------------------------

  predicate StringLeq(a: string, b: string)
    decreases |a|
  {
    a == [] || (b != [] && (a[0] < b[0] || (a[0] == b[0] && StringLeq(a[1..], b[1..]))))
  }

  lemma {:induction false} StringLeqTotal(a: string, b: string)
    ensures StringLeq(a, b) || StringLeq(b, a)
    decreases |a|
  {
    if a != [] && b != [] && a[0] == b[0] {
      StringLeqTotal(a[1..], b[1..]);
    }
  }

  lemma {:induction false} StringLeqTransitive(a: string, b: string, c: string)
    requires StringLeq(a, b) && StringLeq(b, c)
    ensures StringLeq(a, c)
    decreases |a|
  {
    if a != [] && a[0] == b[0] == c[0] {
      StringLeqTransitive(a[1..], b[1..], c[1..]);
    }
  }

  predicate NameLeq(a: Service, b: Service) { StringLeq(a.name, b.name) }

  lemma NameOrder()
    ensures Sorting.TotalPreorder(NameLeq)
  {
    forall a: Service, b: Service ensures NameLeq(a, b) || NameLeq(b, a) {
      StringLeqTotal(a.name, b.name);
    }
    forall a: Service, b: Service, c: Service | NameLeq(a, b) && NameLeq(b, c) ensures NameLeq(a, c) {
      StringLeqTransitive(a.name, b.name, c.name);
    }
  }

  predicate Counted(s: Service) { s.enabled && |s.domains| > 0 }

  function CountedServices(services: seq<Service>): (r: seq<Service>)
    ensures forall s :: s in r <==> s in services && Counted(s)
    ensures multiset(r) <= multiset(services) && |r| <= |services|
  {
    if services == [] then []
    else
      var init := services[..|services| - 1];
      var last := services[|services| - 1];
      assert services == init + [last];
      CountedServices(init) + if Counted(last) then [last] else []
  }

  /** The services that are counted, by name. */
  function Enabled(services: seq<Service>): (r: seq<Service>)
    ensures forall s :: s in r <==> s in services && Counted(s)
    ensures multiset(r) <= multiset(services) && |r| <= |services|
  {
    var r := Sorting.Sort(NameLeq, CountedServices(services));
    assert forall s :: s in r <==> s in multiset(r);
    r
  }

  method ComputeEnabled(services: seq<Service>) returns (out: seq<Service>)
    ensures out == Enabled(services) && Sorting.Ordered(NameLeq, out)
  {
    out := [];
    for i := 0 to |services|
      invariant out == CountedServices(services[..i])
    {
      assert services[..i + 1][..i] == services[..i];
      if services[i].enabled && |services[i].domains| > 0 {
        out := out + [services[i]];
      }
    }
    assert services[..|services|] == services;
    out := Sorting.Sort(NameLeq, out);
    NameOrder();
    Sorting.SortOrdered(NameLeq, CountedServices(services));
  }

  function CategoryOf(s: Service): Category { Category(s.name, Phrases(s.domains)) }

  function MainCategoryOf(s: Service): Category { Category(s.name, Phrases(s.mainDomains)) }

  function AllOf(enabled: seq<Service>): (r: seq<Category>)
    ensures |r| == |enabled| && forall i :: 0 <= i < |r| ==> r[i] == CategoryOf(enabled[i])
  {
    seq(|enabled|, i requires 0 <= i < |enabled| => CategoryOf(enabled[i]))
  }

  function MainOf(enabled: seq<Service>): seq<Category> {
    if enabled == [] then []
    else
      MainOf(enabled[..|enabled| - 1])
      + if |enabled[|enabled| - 1].mainDomains| == 0 then [] else [MainCategoryOf(enabled[|enabled| - 1])]
  }

  function Categories(services: seq<Service>): seq<Category> { AllOf(Enabled(services)) }

  function MainCategories(services: seq<Service>): seq<Category> { MainOf(Enabled(services)) }

  method ComputeCategories(services: seq<Service>) returns (out: seq<Category>)
    ensures out == Categories(services)
  {
    var enabled := ComputeEnabled(services);
    out := AllPhrases(enabled);
  }

  method AllPhrases(enabled: seq<Service>) returns (out: seq<Category>)
    ensures out == AllOf(enabled)
  {
    out := [];
    for i := 0 to |enabled|
      invariant |out| == i && forall j :: 0 <= j < i ==> out[j] == CategoryOf(enabled[j])
    {
      var phrases := ComputePhrases(enabled[i].domains);
      out := out + [Category(enabled[i].name, phrases)];
    }
  }

  method ComputeMainCategories(services: seq<Service>) returns (out: seq<Category>)
    ensures out == MainCategories(services)
  {
    var enabled := ComputeEnabled(services);
    out := MainPhrases(enabled);
  }

  method MainPhrases(enabled: seq<Service>) returns (out: seq<Category>)
    ensures out == MainOf(enabled)
  {
    out := [];
    for i := 0 to |enabled|
      invariant out == MainOf(enabled[..i])
    {
      assert enabled[..i + 1][..i] == enabled[..i];
      if |enabled[i].mainDomains| == 0 {
        continue;
      }
      var phrases := ComputePhrases(enabled[i].mainDomains);
      out := out + [Category(enabled[i].name, phrases)];
    }
    assert enabled[..|enabled|] == enabled;
  }

  ghost predicate DistinctServiceNames(services: seq<Service>) {
    forall i, j :: 0 <= i < j < |services| ==> services[i].name != services[j].name
  }

  lemma SubsetNamesDistinct(part: seq<Service>, services: seq<Service>)
    requires DistinctServiceNames(services) && multiset(part) <= multiset(services)
    ensures DistinctServiceNames(part)
  {
    forall i, j | 0 <= i < j < |part| ensures part[i].name != part[j].name {
      assert part[i] in multiset(part) && part[j] in multiset(part);
      if part[i] == part[j] {
        AtLeastTwice(part, i, j);
        TwiceMeansTwoPlaces(services, part[i]);
      }
    }
  }

  lemma AtLeastTwice(part: seq<Service>, i: nat, j: nat)
    requires i < j < |part| && part[i] == part[j]
    ensures multiset(part)[part[i]] >= 2
  {
    assert part == part[..i] + [part[i]] + part[i + 1..j] + [part[j]] + part[j + 1..];
  }

  lemma {:induction false} TwiceMeansTwoPlaces(services: seq<Service>, s: Service)
    requires multiset(services)[s] >= 2
    ensures !DistinctServiceNames(services)
  {
    var i :| 0 <= i < |services| && services[i] == s;
    var rest := services[..i] + services[i + 1..];
    assert s in multiset(rest) by {
      assert services == services[..i] + [s] + services[i + 1..];
      assert multiset(services) == multiset(rest) + multiset{s};
    }
    var j :| 0 <= j < |rest| && rest[j] == s;
    var j' := if j < i then j else j + 1;
    assert services[j'] == s && j' != i;
  }

  lemma {:induction false} MainOfMember(enabled: seq<Service>)
    ensures forall c :: c in MainOf(enabled) <==>
      exists s :: s in enabled && |s.mainDomains| > 0 && c == MainCategoryOf(s)
    ensures DistinctServiceNames(enabled) ==> DistinctNames(MainOf(enabled))
  {
    if enabled != [] {
      var init, last := enabled[..|enabled| - 1], enabled[|enabled| - 1];
      assert enabled == init + [last];
      MainOfMember(init);
      forall c ensures c in MainOf(enabled) <==>
        exists s :: s in enabled && |s.mainDomains| > 0 && c == MainCategoryOf(s)
      {
        if c in MainOf(init) {
          var s :| s in init && |s.mainDomains| > 0 && c == MainCategoryOf(s);
          assert s in enabled;
        } else if |last.mainDomains| > 0 && c == MainCategoryOf(last) {
          assert last in enabled;
        }
      }
      if DistinctServiceNames(enabled) {
        assert DistinctServiceNames(init);
        var m := MainOf(init);
        forall i | 0 <= i < |m| ensures m[i].name != last.name {
          assert m[i] in m;
          var s :| s in init && |s.mainDomains| > 0 && m[i] == MainCategoryOf(s);
        }
      }
    }
  }

  /** A service is counted exactly if it is enabled and has domains, and separately if it has main ones. */
  lemma CategoriesAreTheEnabledServices(services: seq<Service>, c: Category)
    ensures c in Categories(services) <==>
      exists s :: s in services && s.enabled && s.domains != [] && c == Category(s.name, Phrases(s.domains))
    ensures c in MainCategories(services) <==>
      exists s :: s in services && s.enabled && s.domains != [] && s.mainDomains != [] && c == Category(s.name, Phrases(s.mainDomains))
  {
    var enabled, all := Enabled(services), Categories(services);
    MainOfMember(enabled);
    if c in all {
      var i :| 0 <= i < |all| && all[i] == c;
      assert enabled[i] in enabled;
    }
    if s :| s in services && s.enabled && s.domains != [] && c == Category(s.name, Phrases(s.domains)) {
      assert s in enabled;
      var i :| 0 <= i < |enabled| && enabled[i] == s;
      assert all[i] == c;
    }
    if c in MainCategories(services) {
      var s :| s in enabled && |s.mainDomains| > 0 && c == MainCategoryOf(s);
      assert s in services;
    }
    if s :| s in services && s.enabled && s.domains != [] && s.mainDomains != [] && c == Category(s.name, Phrases(s.mainDomains)) {
      assert s in enabled && c == MainCategoryOf(s);
    }
  }

  /** A valid catalog gives every category of a scope its own name. */
  lemma ValidCatalogHasDistinctCategories(services: seq<Service>)
    requires Valid(services)
    ensures DistinctNames(Categories(services)) && DistinctNames(MainCategories(services))
    ensures |Categories(services)| <= MAX_SERVICES
  {
    var enabled := Enabled(services);
    SubsetNamesDistinct(enabled, services);
    MainOfMember(enabled);
  }

  /** Every main-scope phrase of a valid catalog is a full-scope phrase of the same service. */
  lemma MainPhrasesAreFullPhrases(s: Service, p: string)
    requires ServiceOk(s) && p in Phrases(s.mainDomains)
    ensures p in Phrases(s.domains)
  {
    var d := DomainOfPhrase(s.mainDomains, p);
    var i :| 0 <= i < |s.mainDomains| && s.mainDomains[i] == d;
    assert IsDomainOf(s.mainDomains[i], s.domains);
    var j :| 0 <= j < |s.domains| && NormalDomain(s.domains[j]) == NormalDomain(d);
    PhraseOfDomain(s.domains, s.domains[j]);
  }
}

/** Trimming, lower case, lengths in bytes and decimal numbers. */
module Text {

  /** Unicode white space. */
  predicate IsSpace(c: char) {
    c in " \t\n\r\U{b}\U{c}\U{85}\U{a0}\U{1680}\U{2028}\U{2029}\U{202f}\U{205f}\U{3000}" || '\U{2000}' <= c <= '\U{200a}'
  }

  function TrimLeft(cut: char -> bool, s: string): string {
    if s != [] && cut(s[0]) then TrimLeft(cut, s[1..]) else s
  }

  function TrimRight(cut: char -> bool, s: string): string {
    if s != [] && cut(s[|s| - 1]) then TrimRight(cut, s[..|s| - 1]) else s
  }

  function Trim(cut: char -> bool, s: string): string { TrimRight(cut, TrimLeft(cut, s)) }

  /**
   Lower case where the result is ASCII: besides the capital letters these are
   the Kelvin sign and the capital I with a dot. Other letters are left as they are.
   */
  function LowerChar(c: char): char {
    if 'A' <= c <= 'Z' then c - 'A' + 'a'
    else if c == '\U{212a}' then 'k'
    else if c == '\U{130}' then 'i'
    else c
  }

  function Lower(s: string): string { seq(|s|, i requires 0 <= i < |s| => LowerChar(s[i])) }

  /** The bytes a text takes in UTF-8. */
  function ByteLength(s: string): (n: nat)
    ensures |s| <= n <= 4 * |s|
  {
    if s == "" then 0 else ByteLength(s[..|s| - 1]) + CharBytes(s[|s| - 1])
  }

  function CharBytes(c: char): nat {
    if c < '\U{80}' then 1 else if c < '\U{800}' then 2 else if c < '\U{10000}' then 3 else 4
  }

  /** Nothing is trimmed from a text that starts and ends with something else. */
  lemma NothingToTrim(s: string)
    requires s != "" && !IsSpace(s[0]) && !IsSpace(s[|s| - 1])
    ensures Trim(IsSpace, s) == s
  {
  }

  /** Trimming leaves the part between the first and the last character that is not cut. */
  lemma {:induction false} TrimLeftAt(cut: char -> bool, s: string) returns (a: nat)
    ensures a <= |s| && TrimLeft(cut, s) == s[a..] && (a < |s| ==> !cut(s[a]))
    ensures forall i :: 0 <= i < a ==> cut(s[i])
  {
    if s != [] && cut(s[0]) {
      var b := TrimLeftAt(cut, s[1..]);
      a := b + 1;
    } else {
      a := 0;
    }
  }

  lemma {:induction false} TrimRightAt(cut: char -> bool, s: string) returns (b: nat)
    ensures b <= |s| && TrimRight(cut, s) == s[..b] && (b > 0 ==> !cut(s[b - 1]))
    ensures forall i :: b <= i < |s| ==> cut(s[i])
  {
    if s != [] && cut(s[|s| - 1]) {
      b := TrimRightAt(cut, s[..|s| - 1]);
    } else {
      b := |s|;
    }
  }

  /** a and b are the ends of what is left of s when it is trimmed. */
  ghost predicate Ends(cut: char -> bool, s: string, a: nat, b: nat) {
    && a <= b <= |s| && (forall i :: 0 <= i < a || b <= i < |s| ==> cut(s[i]))
    && (a < b ==> !cut(s[a]) && !cut(s[b - 1]))
  }

  lemma TrimAt(cut: char -> bool, s: string) returns (a: nat, b: nat)
    ensures Ends(cut, s, a, b) && Trim(cut, s) == s[a..b]
  {
    a := TrimLeftAt(cut, s);
    var n := TrimRightAt(cut, s[a..]);
    b := a + n;
    assert forall i :: b <= i < |s| ==> s[i] == s[a..][i - a];
    assert a < b ==> s[a..][0] == s[a] && s[a..][n - 1] == s[b - 1];
    if a < b {
      assert !cut(s[a]);
    }
  }

  /** Changing characters without changing which of them are cut changes them in what is left. */
  lemma TrimMapped(cut: char -> bool, f: char -> char, s: string)
    requires forall c :: cut(f(c)) <==> cut(c)
    ensures Trim(cut, Mapped(f, s)) == Mapped(f, Trim(cut, s))
  {
    var a, b := TrimAt(cut, s);
    var c, d := TrimAt(cut, Mapped(f, s));
    SameEnds(cut, f, s, a, b, c, d);
  }

  function Mapped(f: char -> char, s: string): string { seq(|s|, i requires 0 <= i < |s| => f(s[i])) }

  lemma SameEnds(cut: char -> bool, f: char -> char, s: string, a: nat, b: nat, c: nat, d: nat)
    requires (forall x :: cut(f(x)) <==> cut(x)) && Ends(cut, s, a, b) && Ends(cut, Mapped(f, s), c, d)
    ensures Mapped(f, s)[c..d] == Mapped(f, s[a..b])
  {
    assert forall i :: 0 <= i < |s| ==> (cut(Mapped(f, s)[i]) <==> cut(s[i]));
    if a < b {
      assert !cut(Mapped(f, s)[a]) && !cut(Mapped(f, s)[b - 1]);
    }
    if c < d {
      assert !cut(s[c]) && !cut(s[d - 1]);
    }
  }

  // ---- decimal numbers ---------------------------------------------------------------

  predicate IsDigit(c: char) { '0' <= c <= '9' }

  predicate AllDigits(s: string) { forall i :: 0 <= i < |s| ==> IsDigit(s[i]) }

  function Print(n: nat): (s: string)
    ensures s != "" && AllDigits(s)
  {
    var last := '0' + (n % 10) as char;
    if n < 10 then [last] else Print(n / 10) + [last]
  }

  /** `strconv.FormatInt` in base ten. */
  function PrintInt(n: int): string { if n < 0 then "-" + Print(-n) else Print(n) }

  function Value(s: string): nat
    requires AllDigits(s)
  {
    if s == "" then 0 else 10 * Value(s[..|s| - 1]) + (s[|s| - 1] - '0') as nat
  }

  lemma {:induction false} ValueOfPrint(n: nat)
    ensures Value(Print(n)) == n
  {
    var last := '0' + (n % 10) as char;
    assert (last - '0') as nat == n % 10;
    if n < 10 {
      assert Print(n) == [last] && [last][..0] == "";
    } else {
      ValueOfPrint(n / 10);
      assert Print(n)[..|Print(n)| - 1] == Print(n / 10);
    }
  }
}

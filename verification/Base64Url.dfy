/** base64url without padding, as section 5 of RFC 4648 defines it, over the browser's btoa and atob. */
module Base64Url {
  import opened Utf8
  import opened Wrappers

  // ---- sextets ------------------------------------------------------------------------

  newtype Sextet = x: int | 0 <= x < 64

  function ToSextets(b: seq<Byte>): seq<Sextet> {
    if |b| == 0 then []
    else
      var b0 := b[0] as int;
      if |b| == 1 then [(b0 / 4) as Sextet, (b0 % 4 * 16) as Sextet]
      else
        var b1 := b[1] as int;
        if |b| == 2 then [(b0 / 4) as Sextet, (b0 % 4 * 16 + b1 / 16) as Sextet, (b1 % 16 * 4) as Sextet]
        else
          var b2 := b[2] as int;
          [(b0 / 4) as Sextet, (b0 % 4 * 16 + b1 / 16) as Sextet, (b1 % 16 * 4 + b2 / 64) as Sextet, (b2 % 64) as Sextet]
            + ToSextets(b[3..])
  }

  /** Bits left over at the end are dropped. */
  function FromSextets(x: seq<Sextet>): seq<Byte> {
    if |x| < 2 then []
    else
      var x0, x1 := x[0] as int, x[1] as int;
      var first := (x0 * 4 + x1 / 16) as Byte;
      if |x| == 2 then [first]
      else
        var x2 := x[2] as int;
        var second := (x1 % 16 * 16 + x2 / 4) as Byte;
        if |x| == 3 then [first, second]
        else [first, second, (x2 % 4 * 64 + x[3] as int) as Byte] + FromSextets(x[4..])
  }

  lemma {:induction false} SextetsRoundTrip(b: seq<Byte>)
    ensures FromSextets(ToSextets(b)) == b
  {
    if |b| > 2 {
      SextetsRoundTrip(b[3..]);
      assert ToSextets(b)[4..] == ToSextets(b[3..]);
      assert b == [b[0], b[1], b[2]] + b[3..];
    }
  }

  lemma {:induction false} SextetCount(b: seq<Byte>)
    ensures (|b| % 3 == 0 ==> |ToSextets(b)| % 4 == 0) && (|b| % 3 == 1 ==> |ToSextets(b)| % 4 == 2)
    ensures |b| % 3 == 2 ==> |ToSextets(b)| % 4 == 3
  {
    if |b| > 2 {
      SextetCount(b[3..]);
    }
  }

  // ---- btoa and atob ------------------------------------------------------------------

  function CharOf(x: Sextet): char {
    var i := x as int;
    if i < 26 then 'A' + i as char
    else if i < 52 then 'a' + (i - 26) as char
    else if i < 62 then '0' + (i - 52) as char
    else if i == 62 then '+' else '/'
  }

  function SextetOf(c: char): Option<Sextet> {
    if 'A' <= c <= 'Z' then Some((c - 'A') as int as Sextet)
    else if 'a' <= c <= 'z' then Some((c - 'a') as int as Sextet + 26)
    else if '0' <= c <= '9' then Some((c - '0') as int as Sextet + 52)
    else if c == '+' then Some(62)
    else if c == '/' then Some(63)
    else None
  }

  lemma CharRoundTrip(x: Sextet)
    ensures SextetOf(CharOf(x)) == Some(x) && CharOf(x) !in "-_= \t\n\r\U{c}"
  {
  }

  function Chars(x: seq<Sextet>): string { seq(|x|, i requires 0 <= i < |x| => CharOf(x[i])) }

  /** As many padding characters as the last group lacks. */
  function Padding(n: nat): string { if n % 4 == 2 then "==" else if n % 4 == 3 then "=" else "" }

  function Btoa(b: seq<Byte>): string { Chars(ToSextets(b)) + Padding(|ToSextets(b)|) }

  predicate IsWhite(c: char) { c in " \t\n\r\U{c}" }

  function WithoutWhite(s: string): string {
    if s == "" then "" else (if IsWhite(s[0]) then "" else [s[0]]) + WithoutWhite(s[1..])
  }

  function Unpadded(s: string): string {
    if |s| % 4 != 0 then s
    else if |s| >= 2 && s[|s| - 2..] == "==" then s[..|s| - 2]
    else if |s| >= 1 && s[|s| - 1] == '=' then s[..|s| - 1]
    else s
  }

  function Sextets(s: string): Option<seq<Sextet>> {
    if s == "" then Some([])
    else
      var first, rest := SextetOf(s[0]), Sextets(s[1..]);
      if first.None? || rest.None? then None else Some([first.value] + rest.value)
  }

  /** The forgiving decoder: white space is ignored and padding may be missing. */
  function Atob(text: string): Option<seq<Byte>> {
    var s := Unpadded(WithoutWhite(text));
    var x := Sextets(s);
    if |s| % 4 == 1 || x.None? then None else Some(FromSextets(x.value))
  }

  predicate Plain(s: string) { forall i :: 0 <= i < |s| ==> s[i] !in "-_ \t\n\r\U{c}" }

  lemma {:induction false} PlainIsKept(s: string)
    requires Plain(s)
    ensures WithoutWhite(s) == s
  {
    if s != "" {
      PlainIsKept(s[1..]);
    }
  }

  lemma {:induction false} SextetsOfChars(x: seq<Sextet>)
    ensures Sextets(Chars(x)) == Some(x)
  {
    if x != [] {
      CharRoundTrip(x[0]);
      assert Chars(x)[1..] == Chars(x[1..]);
      SextetsOfChars(x[1..]);
      assert [x[0]] + x[1..] == x;
    }
  }

  lemma CharsArePlain(x: seq<Sextet>)
    ensures Plain(Chars(x)) && '=' !in Chars(x)
  {
    forall i | 0 <= i < |x| ensures Chars(x)[i] !in "-_= \t\n\r\U{c}" {
      CharRoundTrip(x[i]);
    }
  }

  /** Text without padding characters of its own loses exactly the padding. */
  lemma PaddingIsTaken(s: string)
    requires |s| % 4 != 1 && '=' !in s
    ensures Unpadded(s + Padding(|s|)) == s
  {
    var all := s + Padding(|s|);
    assert |all| % 4 == 0 && all[..|s|] == s;
    if |s| % 4 == 2 {
      assert all[|all| - 2..] == "==";
    } else if s != "" {
      assert s[|s| - 1] in s;
      assert all[|s| - 1] != '=';
      assert |all| >= 2 ==> all[|all| - 2..][0] == all[|all| - 2] && all[|all| - 2..][1] == all[|all| - 1];
    }
  }

  lemma BtoaIsPlain(b: seq<Byte>)
    ensures Plain(Btoa(b))
  {
    CharsArePlain(ToSextets(b));
  }

  lemma AtobUndoesBtoa(b: seq<Byte>)
    ensures Atob(Btoa(b)) == Some(b)
  {
    var x := ToSextets(b);
    SextetCount(b);
    CharsArePlain(x);
    BtoaIsPlain(b);
    PlainIsKept(Btoa(b));
    PaddingIsTaken(Chars(x));
    SextetsOfChars(x);
    SextetsRoundTrip(b);
  }

  // ---- base64url -----------------------------------------------------------------------

  function Replaced(s: string, from: char, to: char): string { seq(|s|, i requires 0 <= i < |s| => if s[i] == from then to else s[i]) }

  function Stripped(s: string): string { if s != "" && s[|s| - 1] == '=' then Stripped(s[..|s| - 1]) else s }

  function EncodeBytes(b: seq<Byte>): string { Stripped(Replaced(Replaced(Btoa(b), '+', '-'), '/', '_')) }

  /** The text with standard characters and as much of "===" as its length asks for. */
  function Restored(s: string): string { Replaced(Replaced(s, '-', '+'), '_', '/') + "==="[(|s| + 3) % 4..] }

  function DecodeBytes(s: string): Option<seq<Byte>> { Atob(Restored(s)) }

  lemma StripsOne(s: string)
    ensures Stripped(s + "=") == Stripped(s)
  {
    assert (s + "=")[..|s|] == s;
  }

  lemma StripsPadding(s: string, n: nat)
    requires '=' !in s
    ensures Stripped(s + Padding(n)) == s
  {
    if s != "" {
      assert s[|s| - 1] in s;
    }
    assert Stripped(s) == s;
    StripsOne(s);
    StripsOne(s + "=");
    assert s + "=" + "=" == s + "==" && s + "" == s;
  }

  function UrlChars(x: seq<Sextet>): string { Replaced(Replaced(Chars(x), '+', '-'), '/', '_') }

  lemma ReplacedJoin(a: string, b: string, from: char, to: char)
    ensures Replaced(a + b, from, to) == Replaced(a, from, to) + Replaced(b, from, to)
  {
  }

  lemma PaddingIsNotReplaced(n: nat)
    ensures Replaced(Replaced(Padding(n), '+', '-'), '/', '_') == Padding(n)
  {
  }

  lemma UrlCharsHaveNoPadding(x: seq<Sextet>)
    ensures '=' !in UrlChars(x) && Replaced(Replaced(UrlChars(x), '-', '+'), '_', '/') == Chars(x)
  {
    CharsArePlain(x);
    var s := Chars(x);
    forall i | 0 <= i < |s| ensures UrlChars(x)[i] != '=' && s[i] !in "-_" {
      assert s[i] in s;
    }
  }

  /** The encoded text is the sextets' characters alone. */
  lemma EncodedChars(b: seq<Byte>)
    ensures EncodeBytes(b) == UrlChars(ToSextets(b))
  {
    var x := ToSextets(b);
    var pad := Padding(|x|);
    ReplacedJoin(Chars(x), pad, '+', '-');
    ReplacedJoin(Replaced(Chars(x), '+', '-'), Replaced(pad, '+', '-'), '/', '_');
    PaddingIsNotReplaced(|x|);
    UrlCharsHaveNoPadding(x);
    StripsPadding(UrlChars(x), |x|);
  }

  lemma PaddingIsRestored(n: nat)
    requires n % 4 != 1
    ensures "==="[(n + 3) % 4..] == Padding(n)
  {
  }

  lemma PaddingComesBack(b: seq<Byte>)
    ensures Restored(EncodeBytes(b)) == Btoa(b)
  {
    var x := ToSextets(b);
    EncodedChars(b);
    SextetCount(b);
    UrlCharsHaveNoPadding(x);
    PaddingIsRestored(|x|);
  }

  /** Decoding restores exactly the padding that encoding stripped, and the bytes. */
  lemma BytesRoundTrip(b: seq<Byte>)
    ensures Restored(EncodeBytes(b)) == Btoa(b)
    ensures DecodeBytes(EncodeBytes(b)) == Some(b)
  {
    PaddingComesBack(b);
    AtobUndoesBtoa(b);
  }
}

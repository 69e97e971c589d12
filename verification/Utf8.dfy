/** Byte strings and UTF-8 as sections 3 and 4 of RFC 3629 define it. */
module Utf8 {

  newtype Byte = x: int | 0 <= x < 256

  predicate Between(b: Byte, low: Byte, high: Byte) { low <= b <= high }

  /** A byte that continues a sequence. */
  predicate Continues(b: Byte) { Between(b, 0x80, 0xBF) }

  /** `utf8.RuneStart`: anything but a continuation byte. */
  predicate RuneStart(b: Byte) { !Continues(b) }

  /** How many bytes a sequence with this first byte has; zero when none can start so. */
  function SizeFor(first: Byte): nat {
    if first <= 0x7F then 1
    else if Between(first, 0xC2, 0xDF) then 2
    else if Between(first, 0xE0, 0xEF) then 3
    else if Between(first, 0xF0, 0xF4) then 4
    else 0
  }

  /** Second bytes that would make an overlong form, a surrogate or a value past U+10FFFF are left out. */
  predicate SecondFits(first: Byte, second: Byte) {
    match first
    case 0xE0 => Between(second, 0xA0, 0xBF)
    case 0xED => Between(second, 0x80, 0x9F)
    case 0xF0 => Between(second, 0x90, 0xBF)
    case 0xF4 => Between(second, 0x80, 0x8F)
    case _ => Continues(second)
  }

  /** The size of the well-formed sequence that s starts with, or zero. */
  function RuneSize(s: seq<Byte>): (n: nat)
    ensures n <= |s|
  {
    if s == [] then 0
    else
      var n := SizeFor(s[0]);
      if n <= |s| && (n >= 2 ==> SecondFits(s[0], s[1])) && (n >= 3 ==> Continues(s[2])) && (n >= 4 ==> Continues(s[3]))
      then n else 0
  }

  predicate Valid(s: seq<Byte>) {
    s != [] ==> RuneSize(s) > 0 && Valid(s[RuneSize(s)..])
  }

  /** More bytes after a well-formed sequence do not change it. */
  lemma RuneSizeOfJoin(a: seq<Byte>, b: seq<Byte>)
    requires RuneSize(a) > 0
    ensures RuneSize(a + b) == RuneSize(a)
  {
  }

  lemma {:induction false} JoinValid(a: seq<Byte>, b: seq<Byte>)
    requires Valid(a) && Valid(b)
    ensures Valid(a + b)
    decreases |a|
  {
    if a == [] {
      assert a + b == b;
    } else {
      var n := RuneSize(a);
      assert (a + b)[n..] == a[n..] + b;
      RuneSizeOfJoin(a, b);
      JoinValid(a[n..], b);
    }
  }

  /** Cutting inside the first sequence leaves none. */
  lemma CutRune(s: seq<Byte>, j: nat)
    requires 0 < j < RuneSize(s)
    ensures RuneSize(s[..j]) == 0 && !RuneStart(s[j])
  {
  }

  /** Valid text can be cut exactly where a sequence starts. */
  lemma {:induction false} CutsAtRuneStarts(s: seq<Byte>, j: nat)
    requires Valid(s) && j <= |s|
    ensures Valid(s[..j]) <==> j == |s| || RuneStart(s[j])
    decreases |s|
  {
    if 0 < j < |s| {
      var n := RuneSize(s);
      if j < n {
        CutRune(s, j);
      } else {
        CutsAtRuneStarts(s[n..], j - n);
        assert s[..j] == s[..n] + s[n..][..j - n];
        assert RuneSize(s[..n]) == n;
        RuneSizeOfJoin(s[..n], s[n..][..j - n]);
        assert s[..j][n..] == s[n..][..j - n];
      }
    } else if j == |s| {
      assert s[..j] == s;
    }
  }

  /** r is the longest valid prefix of s with at most max bytes. */
  predicate LongestValidPrefix(s: seq<Byte>, max: nat, r: seq<Byte>) {
    && r <= s && |r| <= max && Valid(r)
    && forall j :: |r| < j <= max && j <= |s| ==> !Valid(s[..j])
  }

  /** Cuts valid text to the longest valid prefix within the limit. */
  method TruncateUtf8(s: seq<Byte>, max: nat) returns (r: seq<Byte>)
    ensures r == Truncated(s, max)
    ensures Valid(s) ==> LongestValidPrefix(s, max, r)
  {
    if |s| <= max {
      if Valid(s) {
        TruncatedIsLongest(s, max);
      }
      return s;
    }
    var n := max;
    while n > 0 && !RuneStart(s[n])
      invariant 0 <= n <= max && Truncated(s, n) == Truncated(s, max)
    {
      n := n - 1;
    }
    if Valid(s) {
      TruncatedIsLongest(s, max);
    }
    return s[..n];
  }

  function Truncated(s: seq<Byte>, max: nat): seq<Byte> {
    if |s| <= max then s
    else if max == 0 || RuneStart(s[max]) then s[..max]
    else Truncated(s, max - 1)
  }

  lemma {:induction false} TruncatedIsLongest(s: seq<Byte>, max: nat)
    requires Valid(s)
    ensures LongestValidPrefix(s, max, Truncated(s, max))
  {
    if |s| > max {
      CutsAtRuneStarts(s, max);
      if max > 0 && !RuneStart(s[max]) {
        TruncatedIsLongest(s, max - 1);
      }
    }
  }

  // ---- replacing what is not valid ---------------------------------------------------------

  /** U+FFFD. */
  const MARK: seq<Byte> := [0xEF, 0xBF, 0xBD]

  /** Each run of bytes that form no sequence becomes one mark. */
  function Repaired(s: seq<Byte>, inRun: bool): seq<Byte>
    decreases |s|
  {
    if s == [] then []
    else if RuneSize(s) > 0 then s[..RuneSize(s)] + Repaired(s[RuneSize(s)..], false)
    else (if inRun then [] else MARK) + Repaired(s[1..], true)
  }

  /** `validUTF8`: valid text unchanged, otherwise repaired. */
  function ToValid(s: seq<Byte>): seq<Byte> { if Valid(s) then s else Repaired(s, false) }

  lemma OneRune(s: seq<Byte>)
    requires RuneSize(s) > 0
    ensures Valid(s[..RuneSize(s)])
  {
    var r := s[..RuneSize(s)];
    assert r[RuneSize(r)..] == [];
  }

  lemma MarkIsValid()
    ensures Valid(MARK)
  {
    assert RuneSize(MARK) == 3 && MARK[3..] == [];
  }

  lemma {:induction false} RepairedIsValid(s: seq<Byte>, inRun: bool)
    ensures Valid(Repaired(s, inRun))
    decreases |s|
  {
    if s != [] {
      if RuneSize(s) > 0 {
        OneRune(s);
        RepairedIsValid(s[RuneSize(s)..], false);
        JoinValid(s[..RuneSize(s)], Repaired(s[RuneSize(s)..], false));
      } else {
        MarkIsValid();
        RepairedIsValid(s[1..], true);
        JoinValid(if inRun then [] else MARK, Repaired(s[1..], true));
      }
    }
  }

  lemma {:induction false} RepairedKeepsValid(s: seq<Byte>)
    requires Valid(s)
    ensures Repaired(s, false) == s
    decreases |s|
  {
    if s != [] {
      RepairedKeepsValid(s[RuneSize(s)..]);
    }
  }

  /** The well-formed sequences of s in order, leaving out marks and stray bytes. */
  function Text(s: seq<Byte>): seq<Byte>
    decreases |s|
  {
    if s == [] then []
    else if RuneSize(s) > 0 then
      (if s[..RuneSize(s)] == MARK then [] else s[..RuneSize(s)]) + Text(s[RuneSize(s)..])
    else Text(s[1..])
  }

  lemma {:induction false} TextOfJoin(a: seq<Byte>, b: seq<Byte>)
    requires RuneSize(a) == |a| > 0
    ensures Text(a + b) == (if a == MARK then [] else a) + Text(b)
  {
    RuneSizeOfJoin(a, b);
    assert (a + b)[..|a|] == a && (a + b)[|a|..] == b;
  }

  lemma {:induction false} RepairedKeepsText(s: seq<Byte>, inRun: bool)
    ensures Text(Repaired(s, inRun)) == Text(s)
    decreases |s|
  {
    if s != [] {
      if RuneSize(s) > 0 {
        var r := s[..RuneSize(s)];
        RepairedKeepsText(s[RuneSize(s)..], false);
        TextOfJoin(r, Repaired(s[RuneSize(s)..], false));
      } else {
        RepairedKeepsText(s[1..], true);
        if inRun {
          assert [] + Repaired(s[1..], true) == Repaired(s[1..], true);
        } else {
          MarkIsValid();
          TextOfJoin(MARK, Repaired(s[1..], true));
        }
      }
    }
  }

  /** The result is valid, is the input when that was valid, and drops no well-formed sequence. */
  lemma ToValidRepairs(s: seq<Byte>)
    ensures Valid(ToValid(s)) && Text(ToValid(s)) == Text(s)
    ensures ToValid(s) == s <==> Valid(s)
    ensures ToValid(s) == Repaired(s, false)
    ensures ToValid(s) == [] <==> s == []
  {
    RepairedIsValid(s, false);
    RepairedKeepsText(s, false);
    if Valid(s) {
      RepairedKeepsValid(s);
    } else {
      assert Repaired(s, false) != [];
    }
  }
}

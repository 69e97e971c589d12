/** Byte sizes and chart steps: what is printed parses back. */
module Sizes {
  import opened Clock
  import opened Text
  import opened Wrappers

  const KIB: int := 0x400
  const MIB: int := 0x10_0000
  const GIB: int := 0x4000_0000
  const LARGEST: int := 0x4000_0000_0000_0000

  // ---- byte sizes --------------------------------------------------------------------

  /** The largest binary unit that divides a size, and its name. */
  function UnitOf(b: int): (int, string) {
    if b != 0 && b % GIB == 0 then (GIB, "GiB")
    else if b != 0 && b % MIB == 0 then (MIB, "MiB")
    else if b != 0 && b % KIB == 0 then (KIB, "KiB")
    else (1, "")
  }

  /** The unit divides the size, and no larger one of the three does. */
  lemma UnitIsLargest(b: int)
    ensures b % UnitOf(b).0 == 0 && UnitOf(b) in {(1, ""), (KIB, "KiB"), (MIB, "MiB"), (GIB, "GiB")}
    ensures b != 0 ==> forall u :: u in {KIB, MIB, GIB} && u > UnitOf(b).0 ==> b % u != 0
    ensures b == 0 ==> UnitOf(b).0 == 1
  {
  }

  function PrintSize(b: int): string { PrintInt(b / UnitOf(b).0) + UnitOf(b).1 }

  function Multiplier(unit: string): int {
    if unit in {"", "b"} then 1
    else if unit in {"k", "kb", "kib"} then KIB
    else if unit in {"m", "mb", "mib"} then MIB
    else if unit in {"g", "gb", "gib"} then GIB
    else 0
  }

  /** How many digits a text starts with. */
  function Leading(s: string): (n: nat)
    ensures n <= |s| && AllDigits(s[..n]) && (n < |s| ==> !IsDigit(s[n]))
  {
    if s == "" || !IsDigit(s[0]) then 0
    else
      var n := Leading(s[1..]);
      assert s[..n + 1] == [s[0]] + s[1..][..n];
      n + 1
  }

  function SizeIn(digits: string, unit: string): Option<int>
    requires AllDigits(digits)
  {
    var mult := Multiplier(Lower(Trim(IsSpace, unit)));
    if digits == "" || mult == 0 || Value(digits) > LARGEST / mult then None else Some(Value(digits) * mult)
  }

  function ParseSize(text: string): Option<int> {
    var s := Trim(IsSpace, text);
    SizeIn(s[..Leading(s)], s[Leading(s)..])
  }

  method UnitMultiplier(unit: string) returns (mult: int)
    ensures mult == Multiplier(unit)
  {
    if unit in {"", "b"} {
      mult := 1;
    } else if unit in {"k", "kb", "kib"} {
      mult := KIB;
    } else if unit in {"m", "mb", "mib"} {
      mult := MIB;
    } else if unit in {"g", "gb", "gib"} {
      mult := GIB;
    } else {
      mult := 0;
    }
  }

  method CountDigits(s: string) returns (i: nat)
    ensures i == Leading(s)
  {
    i := 0;
    while i < |s| && '0' <= s[i] <= '9'
      invariant i <= Leading(s)
    {
      i := i + 1;
    }
  }

  /** A number out of the 64-bit range is refused by the size check as well. */
  method ParseByteSize(text: string) returns (r: Option<int>)
    ensures r == ParseSize(text)
  {
    var s := Trim(IsSpace, text);
    var i := CountDigits(s);
    if i == 0 {
      return None;
    }
    var n := Value(s[..i]);
    var mult := UnitMultiplier(Lower(Trim(IsSpace, s[i..])));
    if mult == 0 {
      return None;
    }
    if n > LARGEST / mult {
      return None;
    }
    return Some(n * mult);
  }

  lemma {:induction false} LeadingOfJoin(digits: string, unit: string)
    requires AllDigits(digits) && (unit != "" ==> !IsDigit(unit[0]))
    ensures Leading(digits + unit) == |digits|
  {
    if digits == "" {
      assert digits + unit == unit;
    } else {
      assert (digits + unit)[1..] == digits[1..] + unit;
      LeadingOfJoin(digits[1..], unit);
    }
  }

  lemma UnitsParse()
    ensures Multiplier(Lower(Trim(IsSpace, ""))) == 1 && Multiplier(Lower(Trim(IsSpace, "KiB"))) == KIB
    ensures Multiplier(Lower(Trim(IsSpace, "MiB"))) == MIB && Multiplier(Lower(Trim(IsSpace, "GiB"))) == GIB
  {
    NothingToTrim("KiB");
    NothingToTrim("MiB");
    NothingToTrim("GiB");
    assert Lower("") == "" && Lower("KiB") == "kib" && Lower("MiB") == "mib" && Lower("GiB") == "gib";
  }

  /** A text of digits and a unit is taken apart where it was put together. */
  lemma ParseOfDigits(digits: string, unit: string)
    requires digits != "" && AllDigits(digits) && unit in {"", "KiB", "MiB", "GiB"}
    ensures ParseSize(digits + unit) == SizeIn(digits, unit)
  {
    var s := digits + unit;
    assert !IsSpace(s[0]) && !IsSpace(s[|s| - 1]);
    NothingToTrim(s);
    LeadingOfJoin(digits, unit);
    assert s[..|digits|] == digits && s[|digits|..] == unit;
  }

  /** A leading minus sign is no size. */
  lemma MinusIsRefused(s: string)
    requires s != "" && s[0] == '-' && !IsSpace(s[|s| - 1])
    ensures ParseSize(s) == None
  {
    NothingToTrim(s);
  }

  /** What a printed unit stands for. */
  function Named(unit: string): int { if unit == "GiB" then GIB else if unit == "MiB" then MIB else if unit == "KiB" then KIB else 1 }

  lemma NamedParses(unit: string)
    requires unit in {"", "KiB", "MiB", "GiB"}
    ensures Multiplier(Lower(Trim(IsSpace, unit))) == Named(unit)
  {
    UnitsParse();
  }

  lemma UnitDivides(b: int)
    ensures UnitOf(b).0 > 0 && (b / UnitOf(b).0) * UnitOf(b).0 == b
    ensures UnitOf(b).1 in {"", "KiB", "MiB", "GiB"} && Named(UnitOf(b).1) == UnitOf(b).0
  {
  }

  /** In whole units, the limit is the same as in bytes. */
  lemma LimitInUnits(n: nat, unit: int)
    requires unit in {1, KIB, MIB, GIB}
    ensures n > LARGEST / unit <==> n * unit > LARGEST
  {
  }

  lemma NegativeIsRefused(b: int)
    requires b < 0
    ensures ParseSize(PrintSize(b)) == None
  {
    UnitDivides(b);
    var n, unit := b / UnitOf(b).0, UnitOf(b).1;
    assert n < 0;
    var s := PrintSize(b);
    assert s == "-" + Print(-n) + unit;
    MinusIsRefused(s);
  }

  lemma PrintedIsParsed(b: nat)
    ensures ParseSize(PrintSize(b)) == if b <= LARGEST then Some(b) else None
  {
    UnitDivides(b);
    var n, unit := b / UnitOf(b).0, UnitOf(b).1;
    assert n >= 0;
    ParseOfDigits(Print(n), unit);
    NamedParses(unit);
    ValueOfPrint(n);
    LimitInUnits(n, UnitOf(b).0);
  }

  /** A printed size parses back to itself if and only if it is from zero to 2^62, and is refused otherwise. */
  lemma SizeRoundTrip(b: int)
    ensures ParseSize(PrintSize(b)) == if 0 <= b <= LARGEST then Some(b) else None
  {
    if b < 0 {
      NegativeIsRefused(b);
    } else {
      PrintedIsParsed(b);
    }
  }

  // ---- steps and relative durations ------------------------------------------------------

  function StepUnit(d: int): (int, char) {
    if d % DAY == 0 then (DAY, 'd') else if d % HOUR == 0 then (HOUR, 'h') else if d % MINUTE == 0 then (MINUTE, 'm') else (SECOND, 's')
  }

  function FormatStep(d: int): string { PrintInt(Quotient(d, StepUnit(d).0)) + [StepUnit(d).1] }

  /** `strconv.Atoi`, without its range limit. */
  function Atoi(s: string): Option<int> {
    var unsigned := if s != "" && s[0] in "+-" then s[1..] else s;
    if unsigned == "" || !AllDigits(unsigned) then None
    else
      var n: int := Value(unsigned);
      Some(if s[0] == '-' then -n else n)
  }

  function UnitLength(c: char): int {
    match c case 's' => SECOND case 'm' => MINUTE case 'h' => HOUR case 'd' => DAY case 'w' => 7 * DAY case _ => 0
  }

  const MAX_AMOUNT: int := 100_000

  function ParseRelDuration(s: string): Option<int> {
    if |s| < 2 then None
    else
      var n := Atoi(s[..|s| - 1]);
      if n.None? || n.value < 0 || n.value > MAX_AMOUNT then None
      else if UnitLength(s[|s| - 1]) == 0 then None
      else Some(n.value * UnitLength(s[|s| - 1]))
  }

  lemma AtoiOfDigits(digits: string)
    requires digits != "" && AllDigits(digits)
    ensures Atoi(digits) == Some(Value(digits)) && Atoi("-" + digits) == Some(-(Value(digits) as int))
  {
    assert IsDigit(digits[0]);
    assert ("-" + digits)[1..] == digits;
  }

  lemma AtoiOfPrint(n: int)
    ensures Atoi(PrintInt(n)) == Some(n)
  {
    var m := if n < 0 then -n else n;
    AtoiOfDigits(Print(m));
    ValueOfPrint(m);
  }

  lemma ParseOfFormat(d: int)
    ensures var n := Quotient(d, StepUnit(d).0);
      ParseRelDuration(FormatStep(d)) == if 0 <= n <= MAX_AMOUNT then Some(n * StepUnit(d).0) else None
  {
    var n, c := Quotient(d, StepUnit(d).0), StepUnit(d).1;
    AtoiOfPrint(n);
    var s := FormatStep(d);
    assert s[..|s| - 1] == PrintInt(n) && s[|s| - 1] == c;
  }

  lemma FewerUnits(n: int, most: int, unit: int)
    requires unit > 0
    ensures n <= most <==> n * unit <= most * unit
  {
    if n <= most {
      assert (most - n) * unit >= 0;
    } else {
      assert (n - most - 1) * unit >= 0;
    }
  }

  lemma NegativeAmount(d: int, unit: int)
    requires unit > 0 && d < 0
    ensures Quotient(d, unit) <= 0 && (Quotient(d, unit) == 0 ==> Quotient(d, unit) * unit != d)
  {
    DivMod(-d, unit);
  }

  lemma PositiveAmount(d: int, unit: int)
    requires unit > 0 && d >= 0
    ensures d / unit >= 0 && ((d / unit) * unit == d <==> d % unit == 0)
    ensures (d / unit) * unit == d ==> (d / unit <= MAX_AMOUNT <==> d <= MAX_AMOUNT * unit)
  {
    assert d == (d / unit) * unit + d % unit;
    FewerUnits(d / unit, MAX_AMOUNT, unit);
  }

  /** Rounding toward zero loses nothing exactly on whole multiples. */
  lemma WholeAmount(d: int, unit: int)
    requires unit > 0
    ensures var n := Quotient(d, unit);
      0 <= n <= MAX_AMOUNT && n * unit == d <==> d >= 0 && d % unit == 0 && d <= MAX_AMOUNT * unit
  {
    if d >= 0 {
      PositiveAmount(d, unit);
    } else {
      NegativeAmount(d, unit);
    }
  }

  lemma WholeSeconds(d: int, k: nat)
    requires k > 0
    ensures k * SECOND > 0 && (d % (k * SECOND) == 0 ==> d % SECOND == 0)
  {
    Scaled(k, SECOND);
    if d % (k * SECOND) == 0 {
      var q := d / (k * SECOND);
      assert d == q * (k * SECOND) == (q * k) * SECOND;
      MultipleIsAligned(q * k, SECOND);
    }
  }

  /** The unit divides the step exactly when seconds do. */
  lemma UnitIsWhole(d: int)
    ensures StepUnit(d).0 > 0 && (d % StepUnit(d).0 == 0 <==> d % SECOND == 0)
  {
    WholeSeconds(d, 86_400);
    WholeSeconds(d, 3_600);
    WholeSeconds(d, 60);
  }

  /**
   A printed step parses back to itself if and only if it is not negative, a
   whole number of seconds, and at most 100000 of the unit it is printed in.
   */
  lemma StepRoundTrip(d: int)
    ensures ParseRelDuration(FormatStep(d)) == Some(d) <==>
            d >= 0 && d % SECOND == 0 && d <= MAX_AMOUNT * StepUnit(d).0
  {
    ParseOfFormat(d);
    UnitIsWhole(d);
    WholeAmount(d, StepUnit(d).0);
  }
}

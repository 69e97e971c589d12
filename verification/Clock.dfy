/** Instants and durations as integer nanoseconds since Go's zero time. */
module Clock {

  type Time = int

  /** Go's zero `time.Time`, used by the rollup as "no value". */
  const ZERO: Time := 0

  const SECOND: int := 1_000_000_000
  const MINUTE: int := 60 * SECOND
  const HOUR: int := 60 * MINUTE
  const DAY: int := 24 * HOUR

  /** `time.Time.Truncate`: rounds down to a multiple of step since the zero time. */
  function Truncate(t: Time, step: int): (r: Time)
    ensures step > 0 ==> r <= t < r + step && Aligned(r, step)
  {
    if step <= 0 then t else
      DivMod(t, step);
      (t / step) * step
  }

  /** t is a multiple of step. */
  predicate Aligned(t: Time, step: int)
    requires step > 0
  {
    t % step == 0
  }

  /** Division of durations, which rounds toward zero. */
  function Quotient(a: int, b: int): int
    requires b > 0
  {
    if a >= 0 then a / b else -(-a / b)
  }

  lemma DivMod(t: int, step: int)
    requires step > 0
    ensures (t / step) * step <= t < (t / step) * step + step
    ensures ((t / step) * step) % step == 0
  {
    assert t == (t / step) * step + t % step;
    MultipleIsAligned(t / step, step);
  }

  lemma Scaled(n: int, step: int)
    requires step > 0
    ensures n >= 1 ==> n * step >= step
    ensures n <= -1 ==> n * step <= -step
  {
    if n >= 1 {
      assert (n - 1) * step >= 0;
    } else if n <= -1 {
      assert (-n - 1) * step >= 0;
    }
  }

  lemma MultipleIsAligned(k: int, step: int)
    requires step > 0
    ensures (k * step) % step == 0
  {
    var q := (k * step) / step;
    Scaled(k - q, step);
    assert (k - q) * step == (k * step) % step;
  }

  /** Two distinct multiples of step are at least step apart. */
  lemma AlignedGap(a: Time, b: Time, step: int)
    requires step > 0 && Aligned(a, step) && Aligned(b, step) && a < b
    ensures a + step <= b
  {
    var n := b / step - a / step;
    Scaled(n, step);
    assert n * step == b - a by {
      assert a == (a / step) * step;
      assert b == (b / step) * step;
    }
  }

  lemma AlignedAdd(a: Time, n: int, step: int)
    requires step > 0 && Aligned(a, step)
    ensures Aligned(a + n * step, step)
  {
    assert a == (a / step) * step;
    assert a + n * step == (a / step + n) * step;
    MultipleIsAligned(a / step + n, step);
  }

  /** Truncation is the only aligned instant within one step below. */
  lemma TruncateUnique(t: Time, r: Time, step: int)
    requires step > 0 && Aligned(r, step) && r <= t < r + step
    ensures r == Truncate(t, step)
  {
    var u := Truncate(t, step);
    if r < u {
      AlignedGap(r, u, step);
    } else if u < r {
      AlignedGap(u, r, step);
    }
  }

  /** Truncation keeps order. */
  lemma TruncateMonotone(a: Time, b: Time, step: int)
    requires step > 0 && a <= b
    ensures Truncate(a, step) <= Truncate(b, step)
  {
    var u, v := Truncate(a, step), Truncate(b, step);
    if v < u {
      AlignedGap(v, u, step);
    }
  }
}

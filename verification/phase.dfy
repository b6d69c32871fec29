/** Phase accumulation: the frequency cooker, the linear interpolator, the
    read of a table at a fractional position, and the single-step wrap of a
    read position, together with the frequency-modulation rule. */
module Phase {
  import opened WaveTables

  /** Read-position increment for a frequency: table length times frequency
      over sample rate. No clamping is applied. */
  function CookFrequency(frequency: real, sampleRate: real): real
    requires sampleRate != 0.0
  {
    1024.0 * frequency / sampleRate
  }

  /** Cooking is undone by scaling the increment back: increment times sample
      rate over table length is the frequency. */
  lemma CookFrequencyInverse(frequency: real, sampleRate: real)
    requires sampleRate != 0.0
    ensures CookFrequency(frequency, sampleRate) * sampleRate / 1024.0 == frequency
  {
  }

  /** For a positive sample rate, cooking is strictly positive and strictly
      increasing on positive frequencies. */
  lemma CookFrequencyIncreasing(f1: real, f2: real, sampleRate: real)
    requires sampleRate > 0.0 && 0.0 < f1 < f2
    ensures 0.0 < CookFrequency(f1, sampleRate) < CookFrequency(f2, sampleRate)
  {
  }

  /** The increment stays below the table length exactly when the frequency
      is below the sample rate, and is never negative for a frequency that is not. */
  lemma CookFrequencyBelowTableLength(f: real, sampleRate: real)
    requires sampleRate > 0.0
    ensures CookFrequency(f, sampleRate) < 1024.0 <==> f < sampleRate
    ensures CookFrequency(f, sampleRate) <= 1024.0 <==> f <= sampleRate
    ensures CookFrequency(f, sampleRate) >= 0.0 <==> f >= 0.0
  {
    var inc := CookFrequency(f, sampleRate);
    CookFrequencyInverse(f, sampleRate);
    assert inc * sampleRate == 1024.0 * f;
    assert 1024.0 * sampleRate - inc * sampleRate == (1024.0 - inc) * sampleRate;
  }

  /** The value at frac of the straight line through (x1, y1) and (x2, y2). */
  function LinearInterpolation(x1: real, x2: real, y1: real, y2: real, frac: real): (y: real)
    requires x1 != x2
    ensures frac == x1 ==> y == y1
    ensures frac == x2 ==> y == y2
    ensures (y - y1) * (x2 - x1) == (y2 - y1) * (frac - x1)
  {
    var m := (y2 - y1) / (x2 - x1);
    y2 - (m * (x2 - frac))
  }

  /** Between the control points 0 and 1 the interpolator is the convex
      combination of the two table values. */
  lemma UnitInterpolation(y1: real, y2: real, frac: real)
    ensures LinearInterpolation(0.0, 1.0, y1, y2, frac) == y1 + frac * (y2 - y1)
    ensures 0.0 <= frac <= 1.0 ==> Between(LinearInterpolation(0.0, 1.0, y1, y2, frac), y1, y2)
  {
    var d := y2 - y1;
    assert (y2 - y1) / (1.0 - 0.0) == d;
    assert d * (1.0 - frac) == d - frac * d;
    if 0.0 <= frac <= 1.0 {
      ScaleWithin(frac, d);
      assert Between(frac * d, 0.0, d);
      assert LinearInterpolation(0.0, 1.0, y1, y2, frac) == y1 + frac * d;
    }
  }

  /** Scaling d by a factor in [0, 1] stays between 0 and d. */
  lemma ScaleWithin(frac: real, d: real)
    requires 0.0 <= frac <= 1.0
    ensures Between(frac * d, 0.0, d)
  {
    if d >= 0.0 {
      assert frac * d <= 1.0 * d;
    } else {
      assert frac * (-d) <= 1.0 * (-d);
    }
  }

  /** y lies between a and b, whichever of the two is larger. */
  predicate Between(y: real, a: real, b: real)
  {
    (a <= y <= b) || (b <= y <= a)
  }

  /** The second interpolation index: one past k, wrapping 1023 to 0. */
  function NextIndex(k: int): (n: int)
    ensures 0 <= k < TableLength ==> 0 <= n < TableLength && n == (k + 1) % TableLength
  {
    if k + 1 > 1023 then 0 else k + 1
  }

  /** The table value at read position r: the (int) truncation of r, which is
      its floor since r is not negative, picks the entry; the fractional part
      interpolates towards the next entry. */
  function TableSample(table: array<real>, r: real): (y: real)
    reads table
    requires table.Length == TableLength && 0.0 <= r < 1024.0
    ensures 0 <= r.Floor < TableLength
    ensures r == r.Floor as real ==> y == table[r.Floor]
    ensures Between(y, table[r.Floor], table[NextIndex(r.Floor)])
  {
    var k := r.Floor;
    var frac := r - k as real;
    UnitInterpolation(table[k], table[NextIndex(k)], frac);
    LinearInterpolation(0.0, 1.0, table[k], table[NextIndex(k)], frac)
  }

  /** A table whose entries lie in [lo, hi] is read anywhere as a value in [lo, hi]. */
  lemma TableSampleBounded(table: array<real>, r: real, lo: real, hi: real)
    requires table.Length == TableLength && 0.0 <= r < 1024.0
    requires forall k :: 0 <= k < TableLength ==> lo <= table[k] <= hi
    ensures lo <= TableSample(table, r) <= hi
  {
    var k := r.Floor;
    assert lo <= table[k] <= hi && lo <= table[NextIndex(k)] <= hi;
  }

  /** The phase advance as written: add the increment, then subtract the table
      length only when the sum is strictly greater than it. */
  function Advance(r: real, inc: real): (next: real)
    ensures next == r + inc || next == r + inc - 1024.0
    ensures 0.0 <= r <= 1024.0 && 0.0 <= inc <= 1024.0 ==> 0.0 <= next <= 1024.0
  {
    var sum := r + inc;
    if sum > 1024.0 then sum - 1024.0 else sum
  }

  /** Starting below the table length, an advance that lands exactly on the
      table length is not wrapped: the next read position truncates to 1024,
      one past the last table entry. */
  lemma AdvanceLandsOnTableLength(r: real, inc: real)
    requires 0.0 <= r < 1024.0 && 0.0 <= inc < 1024.0 && r + inc == 1024.0
    ensures Advance(r, inc) == 1024.0
    ensures Advance(r, inc).Floor == TableLength
  {
  }

  /** A concrete case: position 1000 with increment 24. */
  lemma AdvanceOutOfTable()
    ensures exists r: real, inc: real :: 0.0 <= r < 1024.0 && 0.0 <= inc < 1024.0 && Advance(r, inc).Floor >= TableLength
  {
    AdvanceLandsOnTableLength(1000.0, 24.0);
  }

  /** The as-written and the corrected advance agree on every position and
      increment in [0, 1024) except when the sum is exactly the table length:
      there the as-written one stays at 1024 and the corrected one wraps to 0. */
  lemma AdvanceAgreesBelowTableLength(r: real, inc: real)
    requires 0.0 <= r < 1024.0 && 0.0 <= inc < 1024.0
    ensures r + inc != 1024.0 <==> Advance(r, inc) == AdvanceWrapped(r, inc)
    ensures r + inc == 1024.0 ==> Advance(r, inc) == 1024.0 && AdvanceWrapped(r, inc) == 0.0
  {
  }

  /** x reduced into [0, 1024). */
  function RealMod(x: real): (m: real)
    ensures 0.0 <= m < 1024.0
  {
    x - 1024.0 * ((x / 1024.0).Floor as real)
  }

  /** A value in [0, 1024) that differs from x by a whole number of table
      lengths is x reduced into [0, 1024). */
  lemma RealModUnique(x: real, m: real, q: int)
    requires 0.0 <= m < 1024.0 && m == x - 1024.0 * (q as real)
    ensures m == RealMod(x)
  {
    assert x / 1024.0 == m / 1024.0 + q as real;
    assert (x / 1024.0).Floor == q;
  }

  /** The corrected phase advance: wrap when the sum reaches the table length. */
  function AdvanceWrapped(r: real, inc: real): (next: real)
    requires 0.0 <= r < 1024.0 && 0.0 <= inc < 1024.0
    ensures 0.0 <= next < 1024.0
    ensures next == r + inc || next == r + inc - 1024.0
  {
    var sum := r + inc;
    if sum >= 1024.0 then sum - 1024.0 else sum
  }

  /** One corrected advance is the sum reduced into [0, 1024). */
  lemma AdvanceWrappedIsMod(r: real, inc: real)
    requires 0.0 <= r < 1024.0 && 0.0 <= inc < 1024.0
    ensures AdvanceWrapped(r, inc) == RealMod(r + inc)
  {
    var sum := r + inc;
    RealModUnique(sum, AdvanceWrapped(r, inc), if sum >= 1024.0 then 1 else 0);
  }

  /** The read position after n corrected advances. */
  function AdvanceWrappedTimes(r: real, inc: real, n: nat): (p: real)
    requires 0.0 <= r < 1024.0 && 0.0 <= inc < 1024.0
    ensures 0.0 <= p < 1024.0
  {
    if n == 0 then r else AdvanceWrapped(AdvanceWrappedTimes(r, inc, n - 1), inc)
  }

  /** After n corrected advances the read position is the start plus n
      increments, reduced into [0, 1024). */
  lemma {:induction false} AdvanceWrappedTimesIsMod(r: real, inc: real, n: nat)
    requires 0.0 <= r < 1024.0 && 0.0 <= inc < 1024.0
    ensures AdvanceWrappedTimes(r, inc, n) == RealMod(r + (n as real) * inc)
  {
    if n == 0 {
      RealModUnique(r, r, 0);
    } else {
      var m: nat := n - 1;
      AdvanceWrappedTimesIsMod(r, inc, m);
      var prev := AdvanceWrappedTimes(r, inc, m);
      var x := r + (m as real) * inc;
      assert x + inc == r + (n as real) * inc;
      var q := (x / 1024.0).Floor;
      assert prev == x - 1024.0 * (q as real);
      var q' := if prev + inc >= 1024.0 then 1 else 0;
      assert AdvanceWrappedTimes(r, inc, n) == prev + inc - 1024.0 * (q' as real);
      RealModUnique(x + inc, AdvanceWrappedTimes(r, inc, n), q + q');
    }
  }

  /** The depth of frequency modulation: Hz per unit of LFO output. */
  const FmDepth: real := 20.0

  /** Instantaneous frequency of an oscillator under frequency modulation. */
  function FmFrequency(base: real, lfo: real): (f: real)
    ensures -1.0 <= lfo <= 1.0 ==> base - FmDepth <= f <= base + FmDepth
    ensures lfo == 0.0 ==> f == base
  {
    base + (20.0 * lfo)
  }

  /** With a base frequency in the control range 25..4200 Hz, an LFO sample
      in [-1, 1] and a sample rate above the highest reachable frequency, the
      modulated frequency is at least 5 Hz and its increment lies in (0, 1024). */
  lemma FmIncrementInRange(base: real, lfo: real, sampleRate: real)
    requires 25.0 <= base <= 4200.0 && -1.0 <= lfo <= 1.0 && sampleRate > 4220.0
    ensures FmFrequency(base, lfo) >= 5.0
    ensures 0.0 < CookFrequency(FmFrequency(base, lfo), sampleRate) < 1024.0
  {
    var f := FmFrequency(base, lfo);
    CookFrequencyBelowTableLength(f, sampleRate);
    CookFrequencyIncreasing(f / 2.0, f, sampleRate);
  }
}

/** The lookup tables of the wavetable synth: the naive piecewise-linear
    sawtooth, triangle and square, the band-limited harmonic sums, and the
    running peak that the band-limited tables are divided by. */
module WaveTables {

  /** Every table holds one cycle of 1024 samples. */
  const TableLength: int := 1024

  /** A full turn in radians: 2 * 3.14159265358979323846, written out to 20
      decimals. Only the arguments given to the sine and tangent depend on it,
      and those two are parameters here. */
  const TwoPi: real := 6.28318530717958647692

  /** pow(-1.0, e) for a whole exponent e, which the C library computes exactly. */
  function SignPower(e: int): real
  {
    if e % 2 == 0 then 1.0 else -1.0
  }

  /** The sine table at index i: the sine of i/1024 of a full turn. */
  function SineSample(sine: real -> real, i: int): real
  {
    sine(((i as real) / 1024.0) * TwoPi)
  }

  /** Naive sawtooth: two rising edges of slope 1/512, the first through 0,
      the second starting one step after the middle at -1. */
  function SawSample(i: int): (y: real)
    requires 0 <= i < TableLength
    ensures -1.0 < y < 1.0
    ensures i < 512 ==> y * 512.0 == i as real
    ensures 512 <= i ==> (y + 1.0) * 512.0 == (i - 511) as real
  {
    if i < 512 then (1.0 / 512.0) * (i as real) + 0.0
    else (1.0 / 512.0) * ((i - 511) as real) + -1.0
  }

  /** Naive triangle: rising edge of slope 1/256, falling edge of slope
      -2/512 from the top at 256, second rising edge from -1 at 768. */
  function TriangleSample(i: int): (y: real)
    requires 0 <= i < TableLength
    ensures -1.0 <= y <= 1.0
    ensures y == 1.0 <==> i == 256
    ensures y == -1.0 <==> i == 768
    ensures i == 0 || i == 512 ==> y == 0.0
  {
    if i < 256 then (1.0 / 256.0) * (i as real) + 0.0
    else if 256 <= i < 768 then (-2.0 / 512.0) * ((i - 256) as real) + 1.0
    else (1.0 / 256.0) * ((i - 768) as real) + -1.0
  }

  /** Naive square: +1 on the first half and -1 on the second, except that
      entry 1 is forced to 0. */
  function SquareSample(i: int): (y: real)
    requires 0 <= i < TableLength
    ensures y == 0.0 <==> i == 1
    ensures y > 0.0 <==> i == 0 || 1 < i < 512
    ensures y < 0.0 <==> 512 <= i
    ensures y * y == 1.0 || y == 0.0
  {
    if i == 1 then 0.0
    else if i < 512 then 1.0 else -1.0
  }

  /** Harmonic g of the band-limited sawtooth at index i. */
  function SawTerm(sine: real -> real, i: int, g: int): real
    requires g >= 1
  {
    SignPower(g + 1) * (1.0 / (g as real)) * sine(TwoPi * (i as real) * (g as real) / 1024.0)
  }

  /** Sum of the sawtooth harmonics 1..n at index i. */
  function SawHarmonics(sine: real -> real, i: int, n: nat): real
  {
    if n == 0 then 0.0 else SawHarmonics(sine, i, n - 1) + SawTerm(sine, i, n)
  }

  /** Term g (odd harmonic 2g+1) of the band-limited triangle at index i. */
  function TriangleTerm(sine: real -> real, i: int, g: nat): real
  {
    var h := 2.0 * (g as real) + 1.0;
    SignPower(g) * (1.0 / (h * h)) * sine(TwoPi * h * (i as real) / 1024.0)
  }

  /** Sum of the triangle terms 0..n-1 at index i. */
  function TriangleHarmonics(sine: real -> real, i: int, n: nat): real
  {
    if n == 0 then 0.0 else TriangleHarmonics(sine, i, n - 1) + TriangleTerm(sine, i, n - 1)
  }

  /** Odd harmonic g of the band-limited square at index i. */
  function SquareTerm(sine: real -> real, i: int, g: int): real
    requires g >= 1
  {
    (1.0 / (g as real)) * sine(TwoPi * (i as real) * (g as real) / 1024.0)
  }

  /** Sum of the first n odd square harmonics (1, 3, ..., 2n-1) at index i. */
  function SquareHarmonics(sine: real -> real, i: int, n: nat): real
  {
    if n == 0 then 0.0 else SquareHarmonics(sine, i, n - 1) + SquareTerm(sine, i, 2 * n - 1)
  }

  /** Band-limited sawtooth before normalisation: harmonics 1 to 6. */
  function BandSaw(sine: real -> real, i: int): real
  {
    SawHarmonics(sine, i, 6)
  }

  /** Band-limited triangle before normalisation: harmonics 1, 3, 5 and 7. */
  function BandTriangle(sine: real -> real, i: int): real
  {
    TriangleHarmonics(sine, i, 4)
  }

  /** Band-limited square before normalisation: harmonics 1, 3 and 5. */
  function BandSquare(sine: real -> real, i: int): real
  {
    SquareHarmonics(sine, i, 3)
  }

  /** Each band-limited harmonic sum has a positive sample somewhere. */
  predicate BandSumsPositive(sine: real -> real)
  {
    && (exists k :: 0 <= k < TableLength && BandSaw(sine, k) > 0.0)
    && (exists k :: 0 <= k < TableLength && BandTriangle(sine, k) > 0.0)
    && (exists k :: 0 <= k < TableLength && BandSquare(sine, k) > 0.0)
  }

  function BandSawTable(sine: real -> real): (t: seq<real>)
    ensures |t| == TableLength
    ensures forall k :: 0 <= k < TableLength ==> t[k] == BandSaw(sine, k)
  {
    seq(TableLength, k => BandSaw(sine, k))
  }

  function BandTriangleTable(sine: real -> real): (t: seq<real>)
    ensures |t| == TableLength
    ensures forall k :: 0 <= k < TableLength ==> t[k] == BandTriangle(sine, k)
  {
    seq(TableLength, k => BandTriangle(sine, k))
  }

  function BandSquareTable(sine: real -> real): (t: seq<real>)
    ensures |t| == TableLength
    ensures forall k :: 0 <= k < TableLength ==> t[k] == BandSquare(sine, k)
  {
    seq(TableLength, k => BandSquare(sine, k))
  }

  /** The angle m whole turns past -x. */
  function MirrorAt(x: real, m: int): real
  {
    -x + (m as real) * TwoPi
  }

  /** What the band-limited tables need of the true sine: it is odd and
      repeats after every whole number of turns, so its value m turns past
      -x is minus its value at x. */
  ghost predicate SineOddPeriodic(sine: real -> real)
  {
    forall x, m: int :: sine(MirrorAt(x, m)) == -sine(x)
  }

  /** An odd sine vanishes at 0. */
  lemma SineAtZero(sine: real -> real)
    requires SineOddPeriodic(sine)
    ensures sine(0.0) == 0.0
  {
    assert MirrorAt(0.0, 0) == 0.0;
    assert sine(MirrorAt(0.0, 0)) == -sine(0.0);
  }

  /** Harmonic m at index 1024 - i is m turns minus harmonic m at index i. */
  lemma MirrorArgument(i: int, m: int)
    ensures TwoPi * ((TableLength - i) as real) * (m as real) / 1024.0
      == MirrorAt(TwoPi * (i as real) * (m as real) / 1024.0, m)
  {
    var a := (i as real) * (m as real);
    assert ((TableLength - i) as real) * (m as real) == 1024.0 * (m as real) - a;
  }

  /** The same for triangle term g, whose harmonic number 2g+1 is written
      first. */
  lemma MirrorArgumentTriangle(i: int, g: nat)
    ensures TwoPi * (2.0 * (g as real) + 1.0) * ((TableLength - i) as real) / 1024.0
      == MirrorAt(TwoPi * (2.0 * (g as real) + 1.0) * (i as real) / 1024.0, 2 * g + 1)
  {
    var h := 2.0 * (g as real) + 1.0;
    assert h * ((TableLength - i) as real) == 1024.0 * h - h * (i as real);
  }

  /** Triangle term g at index 1024 - i is minus the term at index i. */
  lemma TriangleTermMirror(sine: real -> real, i: int, g: nat)
    requires SineOddPeriodic(sine)
    ensures TriangleTerm(sine, TableLength - i, g) == -TriangleTerm(sine, i, g)
  {
    MirrorArgumentTriangle(i, g);
    NegatedTerm(SignPower(g) * (1.0 / ((2.0 * (g as real) + 1.0) * (2.0 * (g as real) + 1.0))),
      sine(TwoPi * (2.0 * (g as real) + 1.0) * (i as real) / 1024.0));
  }

  /** Sawtooth harmonic g at index 1024 - i is minus the harmonic at index i. */
  lemma SawTermMirror(sine: real -> real, i: int, g: int)
    requires g >= 1 && SineOddPeriodic(sine)
    ensures SawTerm(sine, TableLength - i, g) == -SawTerm(sine, i, g)
  {
    MirrorArgument(i, g);
    NegatedTerm(SignPower(g + 1) * (1.0 / (g as real)), sine(TwoPi * (i as real) * (g as real) / 1024.0));
  }

  /** Square harmonic g at index 1024 - i is minus the harmonic at index i. */
  lemma SquareTermMirror(sine: real -> real, i: int, g: int)
    requires g >= 1 && SineOddPeriodic(sine)
    ensures SquareTerm(sine, TableLength - i, g) == -SquareTerm(sine, i, g)
  {
    MirrorArgument(i, g);
    NegatedTerm(1.0 / (g as real), sine(TwoPi * (i as real) * (g as real) / 1024.0));
  }

  lemma NegatedTerm(c: real, v: real)
    ensures c * -v == -(c * v)
  {
  }

  /** The sawtooth sum at index 1024 - i is minus the sum at index i. */
  lemma {:induction false} SawHarmonicsMirror(sine: real -> real, i: int, n: nat)
    requires SineOddPeriodic(sine)
    ensures SawHarmonics(sine, TableLength - i, n) == -SawHarmonics(sine, i, n)
  {
    if n > 0 {
      SawHarmonicsMirror(sine, i, n - 1);
      SawTermMirror(sine, i, n);
    }
  }

  /** The triangle sum at index 1024 - i is minus the sum at index i. */
  lemma {:induction false} TriangleHarmonicsMirror(sine: real -> real, i: int, n: nat)
    requires SineOddPeriodic(sine)
    ensures TriangleHarmonics(sine, TableLength - i, n) == -TriangleHarmonics(sine, i, n)
  {
    if n > 0 {
      TriangleHarmonicsMirror(sine, i, n - 1);
      TriangleTermMirror(sine, i, n - 1);
    }
  }

  /** The square sum at index 1024 - i is minus the sum at index i. */
  lemma {:induction false} SquareHarmonicsMirror(sine: real -> real, i: int, n: nat)
    requires SineOddPeriodic(sine)
    ensures SquareHarmonics(sine, TableLength - i, n) == -SquareHarmonics(sine, i, n)
  {
    if n > 0 {
      SquareHarmonicsMirror(sine, i, n - 1);
      SquareTermMirror(sine, i, 2 * n - 1);
    }
  }

  /** A table of one cycle of an odd wave: entry 0 is 0 and entry 1024 - k
      is minus entry k. */
  ghost predicate OddSymmetric(s: seq<real>)
  {
    && |s| == TableLength
    && s[0] == 0.0
    && forall k :: 0 < k < TableLength ==> s[TableLength - k] == -s[k]
  }

  /** With an odd, periodic sine all three band-limited sums are odd tables. */
  lemma BandTablesOddSymmetric(sine: real -> real)
    requires SineOddPeriodic(sine)
    ensures OddSymmetric(BandSawTable(sine))
    ensures OddSymmetric(BandTriangleTable(sine))
    ensures OddSymmetric(BandSquareTable(sine))
  {
    forall k | 0 <= k < TableLength
      ensures BandSaw(sine, TableLength - k) == -BandSaw(sine, k)
      ensures BandTriangle(sine, TableLength - k) == -BandTriangle(sine, k)
      ensures BandSquare(sine, TableLength - k) == -BandSquare(sine, k)
    {
      SawHarmonicsMirror(sine, k, 6);
      TriangleHarmonicsMirror(sine, k, 4);
      SquareHarmonicsMirror(sine, k, 3);
    }
    SineAtZero(sine);
    HarmonicsAtZero(sine);
  }

  /** Every harmonic sum vanishes at index 0 when the sine vanishes at 0. */
  lemma HarmonicsAtZero(sine: real -> real)
    requires sine(0.0) == 0.0
    ensures BandSaw(sine, 0) == 0.0 && BandTriangle(sine, 0) == 0.0 && BandSquare(sine, 0) == 0.0
  {
  }

  /** The maximum tracked while a table is filled: the first sample, then
      replaced by every later sample that is strictly greater. It is the
      largest sample of the table. */
  function Peak(s: seq<real>): (m: real)
    requires |s| > 0
    ensures m in s
    ensures forall k :: 0 <= k < |s| ==> s[k] <= m
  {
    if |s| == 1 then s[0]
    else
      var prefix := s[..|s| - 1];
      var m := Peak(prefix);
      assert forall k :: 0 <= k < |s| - 1 ==> s[k] == prefix[k];
      if s[|s| - 1] > m then s[|s| - 1] else m
  }

  /** The prefix of a sequence up to its length is the sequence itself. */
  lemma WholePrefix(s: seq<real>)
    ensures s[..|s|] == s
  {
  }

  /** One more sample updates the tracked maximum exactly as the fill loop does. */
  lemma PeakStep(s: seq<real>, i: nat)
    requires 0 < i < |s|
    ensures Peak(s[..i + 1]) == if s[i] > Peak(s[..i]) then s[i] else Peak(s[..i])
  {
    assert s[..i + 1][..i] == s[..i];
  }

  /** Every sample divided by the peak, as the normalisation pass does. */
  function Normalized(s: seq<real>, peak: real): (t: seq<real>)
    requires peak != 0.0
    ensures |t| == |s|
    ensures forall k :: 0 <= k < |s| ==> t[k] == s[k] / peak
  {
    seq(|s|, k requires 0 <= k < |s| => s[k] / peak)
  }

  /** When the peak is positive, the normalised table never exceeds 1 and
      reaches exactly 1 at the sample that was the peak. */
  lemma NormalizedPeakIsOne(s: seq<real>)
    requires |s| > 0 && Peak(s) > 0.0
    ensures forall k :: 0 <= k < |s| ==> Normalized(s, Peak(s))[k] <= 1.0
    ensures exists k :: 0 <= k < |s| && Normalized(s, Peak(s))[k] == 1.0
  {
    var p := Peak(s);
    var t := Normalized(s, p);
    forall k | 0 <= k < |s|
      ensures t[k] <= 1.0
    {
      ScaledBelowPeak(t[k], p, s[k]);
    }
    assert p in s;
    var j :| 0 <= j < |s| && s[j] == p;
    ScaledAtPeak(t[j], p);
  }

  /** Normalising an odd table by a positive peak keeps every entry at or
      above -1: each entry is minus another entry, which the peak bounds. */
  lemma NormalizedOddAboveMinusOne(s: seq<real>)
    requires OddSymmetric(s) && Peak(s) > 0.0
    ensures forall k :: 0 <= k < |s| ==> -1.0 <= Normalized(s, Peak(s))[k] <= 1.0
  {
    var p := Peak(s);
    var t := Normalized(s, p);
    NormalizedPeakIsOne(s);
    forall k | 0 <= k < |s|
      ensures -1.0 <= t[k]
    {
      if k > 0 {
        assert s[k] == -s[TableLength - k];
      }
      ScaledAbovePeak(t[k], p, s[k]);
    }
  }

  lemma ScaledAbovePeak(t: real, p: real, v: real)
    requires p > 0.0 && t == v / p && -p <= v
    ensures -1.0 <= t
  {
  }

  lemma ScaledBelowPeak(t: real, p: real, v: real)
    requires p > 0.0 && t == v / p && v <= p
    ensures t <= 1.0
  {
  }

  lemma ScaledAtPeak(t: real, p: real)
    requires p > 0.0 && t == p / p
    ensures t == 1.0
  {
  }

  /** Dividing by a positive peak keeps the sign of every sample. */
  lemma NormalizedSign(s: seq<real>, peak: real, k: int)
    requires peak > 0.0 && 0 <= k < |s|
    ensures Normalized(s, peak)[k] > 0.0 <==> s[k] > 0.0
  {
    var t := s[k] / peak;
    assert t * peak == s[k];
    if s[k] > 0.0 {
      assert t > 0.0;
    }
  }

  /** A table with a positive sample has a positive peak. */
  lemma PeakPositive(s: seq<real>, k: int)
    requires 0 <= k < |s| && s[k] > 0.0
    ensures Peak(s) > 0.0
  {
  }
}

/** The synth engine of the plugin core: seven wave tables filled once at
    initialisation, two oscillators and two LFOs read by phase accumulation,
    the post-update hook that recomputes increments and filter coefficients,
    and the per-frame synth path. The sine and tangent of the C library are
    parameters: nothing here depends on their values beyond what each
    contract states. */
module PluginKernel {
  import opened WaveTables
  import opened Phase
  import opened Filters

  // Discrete control values: switches, oscillator types and modes, LFO routing.
  const Off: int := 0
  const On: int := 1
  const Sine: int := 0
  const Saw: int := 1
  const Tri: int := 2
  const Square: int := 3
  const Normal: int := 0
  const Am: int := 0
  const Fm: int := 1

  // Declared ranges of the frequency controls, in Hz.
  const MinOscFrequency: real := 25.0
  const MaxOscFrequency: real := 4200.0
  const MinLfoFrequency: real := 0.1
  const MaxLfoFrequency: real := 20.0

  /** The highest frequency an oscillator can be driven at: the top of its
      control range plus the frequency-modulation depth. */
  const MaxReachableFrequency: real := 4220.0

  /** A sample rate above every frequency an oscillator can reach. */
  type SampleRate = fs: real | fs > MaxReachableFrequency witness 44100.0

  /** A value of an oscillator frequency control. */
  type OscFrequency = f: real | MinOscFrequency <= f <= MaxOscFrequency witness 440.0

  /** A value of an LFO frequency control. */
  type LfoFrequency = f: real | MinLfoFrequency <= f <= MaxLfoFrequency witness 10.0

  /** A read position, in table entries. The code wraps a position only when
      it passes 1024, so a sum of exactly 1024 stays: positions lie in
      [0, 1024], and 1024 itself is one past the last entry. */
  type ReadPosition = x: real | 0.0 <= x <= TableLength as real

  /** A read-position increment, in table entries: a real in [0, 1024), since
      no frequency an oscillator or LFO reaches is as high as the sample rate. */
  type Increment = x: real | 0.0 <= x < TableLength as real

  class PluginCore {
    // The seven 1024-entry tables.
    const sinArray: array<real>
    const sawToothArray: array<real>
    const triangleArray: array<real>
    const squareArray: array<real>
    const sawToothArrayBl5: array<real>
    const triangleArrayBl5: array<real>
    const squareArrayBl5: array<real>

    /** Sample rate of the audio stream, set on stream reset. */
    var sampleRate: SampleRate

    // Variables bound to the controls; the host writes them.
    var volumeOsc1: real
    var frequencyOsc1: OscFrequency
    var startOsc1: int
    var osc1Type: int
    var osc1Mode: int
    var startOsc2: int
    var frequencyOsc2: OscFrequency
    var osc2Type: int
    var osc2Mode: int
    var volumeOsc2: real
    var startLfo1: int
    var startLfo2: int
    var frequencyLfo1: LfoFrequency
    var frequencyLfo2: LfoFrequency
    var gainControl: real
    var cutoffControl: real
    var lfo1Control: int
    var lfo2Control: int

    // Read positions and increments of the oscillators and LFOs.
    var readIndexOsc1: ReadPosition
    var readIndexOsc2: ReadPosition
    var readIndexLfo1: ReadPosition
    var readIndexLfo2: ReadPosition
    var incOsc1: Increment
    var incOsc2: Increment
    var incLfo1: Increment
    var incLfo2: Increment

    // Gain-control filter: coefficients and the delayed input.
    var alfaGain: real
    var a0Gain: real
    var z1Gain: real

    // Cutoff-control lowpass: cutoff, K, coefficients, delayed input and output.
    var fcCof: real
    var kCof: real
    var b0Cof: real
    var b1Cof: real
    var a1Cof: real
    var z1xCof: real
    var z1yCof: real

    ghost function Tables(): set<array<real>>
    {
      {sinArray, sawToothArray, triangleArray, squareArray, sawToothArrayBl5, triangleArrayBl5, squareArrayBl5}
    }

    /** Every table has 1024 entries. */
    ghost predicate TablesShaped()
    {
      && sinArray.Length == TableLength
      && sawToothArray.Length == TableLength
      && triangleArray.Length == TableLength
      && squareArray.Length == TableLength
      && sawToothArrayBl5.Length == TableLength
      && triangleArrayBl5.Length == TableLength
      && squareArrayBl5.Length == TableLength
    }

    /** No two tables share storage. */
    ghost predicate TablesDistinct()
    {
      && sinArray != sawToothArray && sinArray != triangleArray && sinArray != squareArray
      && sinArray != sawToothArrayBl5 && sinArray != triangleArrayBl5 && sinArray != squareArrayBl5
      && sawToothArray != triangleArray && sawToothArray != squareArray && sawToothArray != sawToothArrayBl5
      && sawToothArray != triangleArrayBl5 && sawToothArray != squareArrayBl5
      && triangleArray != squareArray && triangleArray != sawToothArrayBl5
      && triangleArray != triangleArrayBl5 && triangleArray != squareArrayBl5
      && squareArray != sawToothArrayBl5 && squareArray != triangleArrayBl5 && squareArray != squareArrayBl5
      && sawToothArrayBl5 != triangleArrayBl5 && sawToothArrayBl5 != squareArrayBl5
      && triangleArrayBl5 != squareArrayBl5
    }

    /** The object invariant: seven tables of 1024 entries and a sine table
        inside [-1, 1]. The ranges of the sample rate, the frequency controls,
        the read positions and the increments are the types of their fields. */
    ghost predicate Valid()
      reads sinArray
    {
      && TablesShaped()
      && forall k :: 0 <= k < TableLength ==> -1.0 <= sinArray[k] <= 1.0
    }

    /** Both oscillators are switched off: the frame is silence. */
    predicate Silent()
      reads this
    {
      startOsc1 == Off && startOsc2 == Off
    }

    /** The positions the next sounding frame reads lie inside the tables:
        oscillator 1's when it is on, oscillator 2's and LFO 2's when
        oscillator 2 is on, and LFO 1's when it is on are below 1024. At 1024
        the code reads one entry past the end of a table, which has no value
        here. */
    predicate ReadsInTable()
      reads this
    {
      && (startOsc1 == On ==> readIndexOsc1 < TableLength as real)
      && (startOsc2 == On ==> readIndexOsc2 < TableLength as real && readIndexLfo2 < TableLength as real)
      && (startLfo1 == On ==> readIndexLfo1 < TableLength as real)
    }

    /** An LFO's output: the sine table read at r, or 0 when it is not gated on. */
    function LfoSample(on: bool, r: real): real
      reads sinArray
      requires TablesShaped() && 0.0 <= r && (on ==> r < TableLength as real)
    {
      if on then TableSample(sinArray, r) else 0.0
    }

    /** The table an oscillator reads: the sine table for the sine type, and
        for the other three types the naive table in normal mode and the
        band-limited one in any other mode. */
    function OscTable(kind: int, mode: int): (t: array<real>)
      requires Sine <= kind <= Square
      ensures t in Tables()
      ensures kind == Sine ==> t == sinArray
    {
      if kind == Sine then sinArray
      else if kind == Saw then (if mode == Normal then sawToothArray else sawToothArrayBl5)
      else if kind == Tri then (if mode == Normal then triangleArray else triangleArrayBl5)
      else (if mode == Normal then squareArray else squareArrayBl5)
    }

    /** An oscillator's output: its table read at r, or 0 when it is switched
        off or its type is none of the four. */
    function OscSample(on: bool, kind: int, mode: int, r: real): real
      reads if on && Sine <= kind <= Square then {OscTable(kind, mode)} else {}
      requires TablesShaped() && 0.0 <= r && (on ==> r < TableLength as real)
    {
      if on && Sine <= kind <= Square then TableSample(OscTable(kind, mode), r) else 0.0
    }

    /** A new core: zeroed tables, the controls at their declared defaults, and
        the given sample rate and starting read positions. The increments and
        the filter state are left as they come, as the code leaves them until
        initialisation. */
    constructor (rate: SampleRate, startOsc1At: ReadPosition, startOsc2At: ReadPosition,
                 startLfo1At: ReadPosition, startLfo2At: ReadPosition)
      ensures Valid() && TablesDistinct()
      ensures fresh(sinArray) && fresh(sawToothArray) && fresh(triangleArray) && fresh(squareArray)
      ensures fresh(sawToothArrayBl5) && fresh(triangleArrayBl5) && fresh(squareArrayBl5)
      ensures sampleRate == rate
      ensures readIndexOsc1 == startOsc1At && readIndexOsc2 == startOsc2At
      ensures readIndexLfo1 == startLfo1At && readIndexLfo2 == startLfo2At
      ensures volumeOsc1 == 0.707 && volumeOsc2 == 0.707
      ensures frequencyOsc1 == 440.0 && frequencyOsc2 == 440.0
      ensures frequencyLfo1 == 10.0 && frequencyLfo2 == 10.0
      ensures startOsc1 == Off && startOsc2 == Off && startLfo1 == Off && startLfo2 == Off
      ensures osc1Type == Sine && osc2Type == Sine && osc1Mode == Normal && osc2Mode == Normal
      ensures lfo1Control == Am && lfo2Control == Am
      ensures gainControl == 0.5 && cutoffControl == 440.0
    {
      sinArray := new real[TableLength](_ => 0.0);
      sawToothArray := new real[TableLength](_ => 0.0);
      triangleArray := new real[TableLength](_ => 0.0);
      squareArray := new real[TableLength](_ => 0.0);
      sawToothArrayBl5 := new real[TableLength](_ => 0.0);
      triangleArrayBl5 := new real[TableLength](_ => 0.0);
      squareArrayBl5 := new real[TableLength](_ => 0.0);
      sampleRate := rate;
      volumeOsc1, frequencyOsc1, startOsc1, osc1Type, osc1Mode := 0.707, 440.0, Off, Sine, Normal;
      startOsc2, frequencyOsc2, osc2Type, osc2Mode, volumeOsc2 := Off, 440.0, Sine, Normal, 0.707;
      startLfo1, startLfo2, frequencyLfo1, frequencyLfo2 := Off, Off, 10.0, 10.0;
      gainControl, cutoffControl, lfo1Control, lfo2Control := 0.5, 440.0, Am, Am;
      readIndexOsc1, readIndexOsc2 := startOsc1At, startOsc2At;
      readIndexLfo1, readIndexLfo2 := startLfo1At, startLfo2At;
    }

    /** Stream reset: stores the new sample rate; nothing is recomputed. */
    method Reset(rate: SampleRate)
      requires Valid()
      modifies this`sampleRate
      ensures Valid() && sampleRate == rate
    {
      sampleRate := rate;
    }

    /** Adds the six sawtooth harmonics into entry i, one per step. */
    method AddSawHarmonics(sine: real -> real, i: int)
      requires TablesShaped() && 0 <= i < TableLength
      modifies sawToothArrayBl5
      ensures sawToothArrayBl5[i] == old(sawToothArrayBl5[i]) + BandSaw(sine, i)
      ensures forall k :: 0 <= k < TableLength && k != i ==> sawToothArrayBl5[k] == old(sawToothArrayBl5[k])
    {
      var g := 1;
      while g <= 6
        invariant 1 <= g <= 7
        invariant sawToothArrayBl5[i] == old(sawToothArrayBl5[i]) + SawHarmonics(sine, i, g - 1)
        invariant forall k :: 0 <= k < TableLength && k != i ==> sawToothArrayBl5[k] == old(sawToothArrayBl5[k])
      {
        sawToothArrayBl5[i] := sawToothArrayBl5[i] + SawTerm(sine, i, g);
        g := g + 1;
      }
    }

    /** Adds the triangle harmonics 1, 3, 5 and 7 into entry i, one per step. */
    method AddTriangleHarmonics(sine: real -> real, i: int)
      requires TablesShaped() && 0 <= i < TableLength
      modifies triangleArrayBl5
      ensures triangleArrayBl5[i] == old(triangleArrayBl5[i]) + BandTriangle(sine, i)
      ensures forall k :: 0 <= k < TableLength && k != i ==> triangleArrayBl5[k] == old(triangleArrayBl5[k])
    {
      var g := 0;
      while g <= 3
        invariant 0 <= g <= 4
        invariant triangleArrayBl5[i] == old(triangleArrayBl5[i]) + TriangleHarmonics(sine, i, g)
        invariant forall k :: 0 <= k < TableLength && k != i ==> triangleArrayBl5[k] == old(triangleArrayBl5[k])
      {
        triangleArrayBl5[i] := triangleArrayBl5[i] + TriangleTerm(sine, i, g);
        g := g + 1;
      }
    }

    /** Adds the square harmonics 1, 3 and 5 into entry i, one per step. */
    method AddSquareHarmonics(sine: real -> real, i: int)
      requires TablesShaped() && 0 <= i < TableLength
      modifies squareArrayBl5
      ensures squareArrayBl5[i] == old(squareArrayBl5[i]) + BandSquare(sine, i)
      ensures forall k :: 0 <= k < TableLength && k != i ==> squareArrayBl5[k] == old(squareArrayBl5[k])
    {
      var g := 1;
      while g <= 5
        invariant 1 <= g <= 7 && g % 2 == 1
        invariant squareArrayBl5[i] == old(squareArrayBl5[i]) + SquareHarmonics(sine, i, g / 2)
        invariant forall k :: 0 <= k < TableLength && k != i ==> squareArrayBl5[k] == old(squareArrayBl5[k])
      {
        squareArrayBl5[i] := squareArrayBl5[i] + SquareTerm(sine, i, g);
        g := g + 2;
      }
    }

    /** Below index n, the sine table and the three naive tables hold their samples. */
    ghost predicate NaiveFilledBelow(sine: real -> real, n: int)
      reads sinArray, sawToothArray, triangleArray, squareArray
      requires TablesShaped() && n <= TableLength
    {
      forall k :: 0 <= k < n ==>
        && sinArray[k] == SineSample(sine, k)
        && sawToothArray[k] == SawSample(k)
        && triangleArray[k] == TriangleSample(k)
        && squareArray[k] == SquareSample(k)
    }

    /** The sine table and the three naive tables hold their samples. */
    ghost predicate NaiveTablesFilled(sine: real -> real)
      reads sinArray, sawToothArray, triangleArray, squareArray
      requires TablesShaped()
    {
      NaiveFilledBelow(sine, TableLength)
    }

    /** Below index n, the band-limited tables hold their harmonic sums. */
    ghost predicate BandFilledBelow(sine: real -> real, n: int)
      reads sawToothArrayBl5, triangleArrayBl5, squareArrayBl5
      requires TablesShaped() && n <= TableLength
    {
      forall k :: 0 <= k < n ==>
        && sawToothArrayBl5[k] == BandSaw(sine, k)
        && triangleArrayBl5[k] == BandTriangle(sine, k)
        && squareArrayBl5[k] == BandSquare(sine, k)
    }

    /** The band-limited tables after normalisation: each holds its harmonic
        sum divided by the sum's peak, which is positive. */
    ghost predicate BandTablesNormalized(sine: real -> real)
      reads sawToothArrayBl5, triangleArrayBl5, squareArrayBl5
    {
      && Peak(BandSawTable(sine)) > 0.0
      && Peak(BandTriangleTable(sine)) > 0.0
      && Peak(BandSquareTable(sine)) > 0.0
      && sawToothArrayBl5[..] == Normalized(BandSawTable(sine), Peak(BandSawTable(sine)))
      && triangleArrayBl5[..] == Normalized(BandTriangleTable(sine), Peak(BandTriangleTable(sine)))
      && squareArrayBl5[..] == Normalized(BandSquareTable(sine), Peak(BandSquareTable(sine)))
    }

    /** The band-limited tables after normalisation: no entry exceeds 1 and
        some entry is exactly 1. */
    ghost predicate BandTablesPeakAtOne(sine: real -> real)
      reads sawToothArrayBl5, triangleArrayBl5, squareArrayBl5
      requires TablesShaped()
    {
      && (forall k :: 0 <= k < TableLength ==> sawToothArrayBl5[k] <= 1.0)
      && (forall k :: 0 <= k < TableLength ==> triangleArrayBl5[k] <= 1.0)
      && (forall k :: 0 <= k < TableLength ==> squareArrayBl5[k] <= 1.0)
      && (exists k :: 0 <= k < TableLength && sawToothArrayBl5[k] == 1.0)
      && (exists k :: 0 <= k < TableLength && triangleArrayBl5[k] == 1.0)
      && (exists k :: 0 <= k < TableLength && squareArrayBl5[k] == 1.0)
    }

    /** Writes entry i of the sine table and of the three naive tables, which
        extends the filled part by one entry. */
    method FillNaiveEntry(sine: real -> real, i: int)
      requires TablesShaped() && TablesDistinct() && 0 <= i < TableLength
      requires NaiveFilledBelow(sine, i)
      modifies sinArray, sawToothArray, triangleArray, squareArray
      ensures NaiveFilledBelow(sine, i + 1)
    {
      sinArray[i] := SineSample(sine, i);
      sawToothArray[i] := SawSample(i);
      triangleArray[i] := TriangleSample(i);
      squareArray[i] := SquareSample(i);
    }

    /** The tracked maxima are the peaks of the first n band-limited sums. */
    ghost predicate PeaksBelow(sine: real -> real, n: int, maxSaw: real, maxTri: real, maxSqr: real)
      requires 0 < n <= TableLength
    {
      && maxSaw == Peak(BandSawTable(sine)[..n])
      && maxTri == Peak(BandTriangleTable(sine)[..n])
      && maxSqr == Peak(BandSquareTable(sine)[..n])
    }

    /** Clears entry i of the three band-limited tables and adds their
        harmonics into it, which extends the filled part by one entry. */
    method FillBandEntry(sine: real -> real, i: int)
      requires TablesShaped() && TablesDistinct() && 0 <= i < TableLength
      requires BandFilledBelow(sine, i)
      modifies sawToothArrayBl5, triangleArrayBl5, squareArrayBl5
      ensures BandFilledBelow(sine, i + 1)
    {
      sawToothArrayBl5[i] := 0.0;
      triangleArrayBl5[i] := 0.0;
      squareArrayBl5[i] := 0.0;
      AddSawHarmonics(sine, i);
      AddTriangleHarmonics(sine, i);
      AddSquareHarmonics(sine, i);
    }

    /** Updates the three tracked maxima with entry i of the band-limited
        tables: they then cover one more entry. */
    method TrackPeaks(sine: real -> real, i: int, maxSaw: real, maxTri: real, maxSqr: real)
      returns (maxSaw': real, maxTri': real, maxSqr': real)
      requires TablesShaped() && 0 <= i < TableLength
      requires BandFilledBelow(sine, i + 1)
      requires i > 0 ==> PeaksBelow(sine, i, maxSaw, maxTri, maxSqr)
      ensures PeaksBelow(sine, i + 1, maxSaw', maxTri', maxSqr')
    {
      maxSaw' := TrackPeak(BandSawTable(sine), i, sawToothArrayBl5[i], maxSaw);
      maxTri' := TrackPeak(BandTriangleTable(sine), i, triangleArrayBl5[i], maxTri);
      maxSqr' := TrackPeak(BandSquareTable(sine), i, squareArrayBl5[i], maxSqr);
    }

    /** The maximum tracking of the fill loop for one table: entry 0 is taken
        as it is, and every later entry replaces the maximum only when it is
        strictly greater. The maximum is the peak of the entries so far. */
    static method TrackPeak(ghost s: seq<real>, i: int, v: real, m: real) returns (m': real)
      requires 0 <= i < |s| && v == s[i]
      requires i > 0 ==> m == Peak(s[..i])
      ensures m' == Peak(s[..i + 1])
    {
      if i == 0 {
        m' := v;
      } else {
        PeakStep(s, i);
        m' := m;
        if v > m' {
          m' := v;
        }
      }
    }

    /** The first pass of initialisation: every table entry is written, and
        the maximum of each band-limited table is tracked as it grows. */
    method FillTables(sine: real -> real) returns (maxSaw: real, maxTri: real, maxSqr: real)
      requires TablesShaped() && TablesDistinct()
      modifies sinArray, sawToothArray, triangleArray, squareArray
      modifies sawToothArrayBl5, triangleArrayBl5, squareArrayBl5
      ensures NaiveTablesFilled(sine) && BandFilledBelow(sine, TableLength)
      ensures PeaksBelow(sine, TableLength, maxSaw, maxTri, maxSqr)
    {
      maxSaw, maxTri, maxSqr := 0.0, 0.0, 0.0;
      var i := 0;
      while i < TableLength
        invariant 0 <= i <= TableLength
        invariant NaiveFilledBelow(sine, i) && BandFilledBelow(sine, i)
        invariant i > 0 ==> PeaksBelow(sine, i, maxSaw, maxTri, maxSqr)
      {
        FillNaiveEntry(sine, i);
        FillBandEntry(sine, i);
        maxSaw, maxTri, maxSqr := TrackPeaks(sine, i, maxSaw, maxTri, maxSqr);
        i := i + 1;
      }
    }

    /** With a sine inside [-1, 1], the filled sine table is inside [-1, 1]. */
    lemma SineTableBounded(sine: real -> real)
      requires TablesShaped() && NaiveTablesFilled(sine)
      requires forall x :: -1.0 <= sine(x) <= 1.0
      ensures forall k :: 0 <= k < TableLength ==> -1.0 <= sinArray[k] <= 1.0
    {
      forall k | 0 <= k < TableLength
        ensures -1.0 <= sinArray[k] <= 1.0
      {
        assert sinArray[k] == SineSample(sine, k);
      }
    }

    /** Band-limited tables filled up to the table length hold, as sequences,
        the three band-limited sum tables. */
    lemma BandTablesAsSequences(sine: real -> real)
      requires TablesShaped() && BandFilledBelow(sine, TableLength)
      ensures sawToothArrayBl5[..] == BandSawTable(sine)
      ensures triangleArrayBl5[..] == BandTriangleTable(sine)
      ensures squareArrayBl5[..] == BandSquareTable(sine)
    {
    }

    /** The second pass of initialisation: each band-limited table divided by
        its tracked maximum. */
    method NormalizeTables(maxSaw: real, maxTri: real, maxSqr: real)
      requires TablesShaped() && TablesDistinct() && maxSaw != 0.0 && maxTri != 0.0 && maxSqr != 0.0
      modifies sawToothArrayBl5, triangleArrayBl5, squareArrayBl5
      ensures sawToothArrayBl5[..] == Normalized(old(sawToothArrayBl5[..]), maxSaw)
      ensures triangleArrayBl5[..] == Normalized(old(triangleArrayBl5[..]), maxTri)
      ensures squareArrayBl5[..] == Normalized(old(squareArrayBl5[..]), maxSqr)
    {
      var i := 0;
      while i < TableLength
        invariant 0 <= i <= TableLength
        invariant forall k :: 0 <= k < i ==> sawToothArrayBl5[k] == old(sawToothArrayBl5[k]) / maxSaw
        invariant forall k :: i <= k < TableLength ==> sawToothArrayBl5[k] == old(sawToothArrayBl5[k])
        invariant forall k :: 0 <= k < i ==> triangleArrayBl5[k] == old(triangleArrayBl5[k]) / maxTri
        invariant forall k :: i <= k < TableLength ==> triangleArrayBl5[k] == old(triangleArrayBl5[k])
        invariant forall k :: 0 <= k < i ==> squareArrayBl5[k] == old(squareArrayBl5[k]) / maxSqr
        invariant forall k :: i <= k < TableLength ==> squareArrayBl5[k] == old(squareArrayBl5[k])
      {
        sawToothArrayBl5[i] := sawToothArrayBl5[i] / maxSaw;
        triangleArrayBl5[i] := triangleArrayBl5[i] / maxTri;
        squareArrayBl5[i] := squareArrayBl5[i] / maxSqr;
        i := i + 1;
      }
    }

    /** Both passes over the tables: fill, then divide each band-limited
        table by its peak, which leaves it at most 1 everywhere and exactly 1
        somewhere. Each band-limited sum
        must have a positive sample, as it does for the true sine, so that the
        peak is positive. */
    method BuildTables(sine: real -> real)
      requires TablesShaped() && TablesDistinct()
      requires forall x :: -1.0 <= sine(x) <= 1.0
      requires BandSumsPositive(sine)
      modifies sinArray, sawToothArray, triangleArray, squareArray
      modifies sawToothArrayBl5, triangleArrayBl5, squareArrayBl5
      ensures NaiveTablesFilled(sine) && BandTablesNormalized(sine) && BandTablesPeakAtOne(sine)
      ensures forall k :: 0 <= k < TableLength ==> -1.0 <= sinArray[k] <= 1.0
    {
      var maxSaw, maxTri, maxSqr := FillTables(sine);
      ghost var sawT, triT, sqrT := BandSawTable(sine), BandTriangleTable(sine), BandSquareTable(sine);
      BandTablesAsSequences(sine);
      WholePrefix(sawT);
      WholePrefix(triT);
      WholePrefix(sqrT);
      ghost var ks :| 0 <= ks < TableLength && BandSaw(sine, ks) > 0.0;
      ghost var kt :| 0 <= kt < TableLength && BandTriangle(sine, kt) > 0.0;
      ghost var kq :| 0 <= kq < TableLength && BandSquare(sine, kq) > 0.0;
      PeakPositive(sawT, ks);
      PeakPositive(triT, kt);
      PeakPositive(sqrT, kq);
      NormalizeTables(maxSaw, maxTri, maxSqr);
      NormalizedTableBounds(sawToothArrayBl5, sawT);
      NormalizedTableBounds(triangleArrayBl5, triT);
      NormalizedTableBounds(squareArrayBl5, sqrT);
      SineTableBounded(sine);
    }

    /** cook_frequency_osc on the current sample rate: the read-position
        increment for a frequency, characterised by its product with the sample
        rate being 1024 times the frequency; it lies in [0, 1024) for a
        frequency between 0 and the sample rate. */
    method CookFrequencyOsc(frequency: real) returns (inc: real)
      ensures inc == CookFrequency(frequency, sampleRate)
      ensures 0.0 <= frequency < sampleRate ==> 0.0 <= inc < TableLength as real
    {
      CookFrequencyBelowTableLength(frequency, sampleRate);
      inc := CookFrequency(frequency, sampleRate);
    }

    /** The four increments cooked from the current frequencies. */
    method CookIncrements()
      modifies this`incOsc1, this`incOsc2, this`incLfo1, this`incLfo2
      ensures incOsc1 == CookFrequency(frequencyOsc1, sampleRate)
      ensures incOsc2 == CookFrequency(frequencyOsc2, sampleRate)
      ensures incLfo1 == CookFrequency(frequencyLfo1, sampleRate)
      ensures incLfo2 == CookFrequency(frequencyLfo2, sampleRate)
    {
      incOsc1 := CookFrequencyOsc(frequencyOsc1);
      incOsc2 := CookFrequencyOsc(frequencyOsc2);
      incLfo1 := CookFrequencyOsc(frequencyLfo1);
      incLfo2 := CookFrequencyOsc(frequencyLfo2);
    }

    /** The part of initialisation that reads the controls: the gain filter
        passes its input (alfa 1, a0 the gain control), the lowpass cutoff is
        the cutoff control, every delay is cleared, and the four increments
        are cooked. */
    method InitializeControls()
      modifies this`alfaGain, this`a0Gain, this`z1Gain, this`fcCof, this`z1xCof, this`z1yCof
      modifies this`incOsc1, this`incOsc2, this`incLfo1, this`incLfo2
      ensures alfaGain == 1.0 && a0Gain == gainControl && z1Gain == 0.0
      ensures fcCof == cutoffControl && z1xCof == 0.0 && z1yCof == 0.0
      ensures incOsc1 == CookFrequency(frequencyOsc1, sampleRate)
      ensures incOsc2 == CookFrequency(frequencyOsc2, sampleRate)
      ensures incLfo1 == CookFrequency(frequencyLfo1, sampleRate)
      ensures incLfo2 == CookFrequency(frequencyLfo2, sampleRate)
    {
      CookIncrements();
      alfaGain, a0Gain, z1Gain := 1.0, gainControl, 0.0;
      fcCof, z1xCof, z1yCof := cutoffControl, 0.0, 0.0;
    }

    /** One-time initialisation: the filter state, the seven tables, and the
        four increments cooked from the current frequencies. The tables do not
        depend on the controls, nor the controls on the tables, so the two
        parts are independent of their order. */
    method Initialize(sine: real -> real)
      requires Valid() && TablesDistinct()
      requires forall x :: -1.0 <= sine(x) <= 1.0
      requires BandSumsPositive(sine)
      modifies sinArray, sawToothArray, triangleArray, squareArray
      modifies sawToothArrayBl5, triangleArrayBl5, squareArrayBl5
      modifies this`alfaGain, this`a0Gain, this`z1Gain, this`fcCof, this`z1xCof, this`z1yCof
      modifies this`incOsc1, this`incOsc2, this`incLfo1, this`incLfo2
      ensures Valid()
      ensures alfaGain == 1.0 && a0Gain == gainControl && z1Gain == 0.0
      ensures fcCof == cutoffControl && z1xCof == 0.0 && z1yCof == 0.0
      ensures NaiveTablesFilled(sine) && BandTablesNormalized(sine) && BandTablesPeakAtOne(sine)
      ensures incOsc1 == CookFrequency(frequencyOsc1, sampleRate)
      ensures incOsc2 == CookFrequency(frequencyOsc2, sampleRate)
      ensures incLfo1 == CookFrequency(frequencyLfo1, sampleRate)
      ensures incLfo2 == CookFrequency(frequencyLfo2, sampleRate)
    {
      InitializeControls();
      BuildTables(sine);
    }

    /** A table holding the normalised form of s is at most 1 everywhere and
        exactly 1 somewhere. */
    static lemma NormalizedTableBounds(table: array<real>, s: seq<real>)
      requires |s| == TableLength && Peak(s) > 0.0
      requires table[..] == Normalized(s, Peak(s))
      ensures forall k :: 0 <= k < TableLength ==> table[k] <= 1.0
      ensures exists k :: 0 <= k < TableLength && table[k] == 1.0
    {
      NormalizedPeakIsOne(s);
      var j :| 0 <= j < |s| && Normalized(s, Peak(s))[j] == 1.0;
      assert table[j] == table[..][j];
      forall k | 0 <= k < TableLength
        ensures table[k] <= 1.0
      {
        assert table[k] == table[..][k];
      }
    }

    /** With a sine that is odd and repeats every turn, as the true sine
        does, every normalised band-limited entry lies in [-1, 1]: each
        harmonic sum at 1024 - k is minus the sum at k, so no entry falls
        below minus the peak. */
    lemma BandTablesWithinUnit(sine: real -> real)
      requires TablesShaped() && BandTablesNormalized(sine) && SineOddPeriodic(sine)
      ensures forall k :: 0 <= k < TableLength ==> -1.0 <= sawToothArrayBl5[k] <= 1.0
      ensures forall k :: 0 <= k < TableLength ==> -1.0 <= triangleArrayBl5[k] <= 1.0
      ensures forall k :: 0 <= k < TableLength ==> -1.0 <= squareArrayBl5[k] <= 1.0
    {
      BandTablesOddSymmetric(sine);
      NormalizedOddAboveMinusOne(BandSawTable(sine));
      NormalizedOddAboveMinusOne(BandTriangleTable(sine));
      NormalizedOddAboveMinusOne(BandSquareTable(sine));
      forall k | 0 <= k < TableLength
        ensures -1.0 <= sawToothArrayBl5[k] <= 1.0
        ensures -1.0 <= triangleArrayBl5[k] <= 1.0
        ensures -1.0 <= squareArrayBl5[k] <= 1.0
      {
        assert sawToothArrayBl5[k] == sawToothArrayBl5[..][k];
        assert triangleArrayBl5[k] == triangleArrayBl5[..][k];
        assert squareArrayBl5[k] == squareArrayBl5[..][k];
      }
    }

    /** Reads both LFOs at their current positions, then advances each by its
        increment, wrapping only a sum past the table length. LFO 1 is gated
        by its own switch; LFO 2 is gated by oscillator 2's switch. */
    method DoLfo() returns (yn1: real, yn2: real)
      requires Valid()
      requires startLfo1 == On ==> readIndexLfo1 < TableLength as real
      requires startOsc2 == On ==> readIndexLfo2 < TableLength as real
      modifies this`readIndexLfo1, this`readIndexLfo2
      ensures yn1 == old(LfoSample(startLfo1 == On, readIndexLfo1))
      ensures yn2 == old(LfoSample(startOsc2 == On, readIndexLfo2))
      ensures -1.0 <= yn1 <= 1.0 && -1.0 <= yn2 <= 1.0
      ensures readIndexLfo1 == Advance(old(readIndexLfo1), incLfo1)
      ensures readIndexLfo2 == Advance(old(readIndexLfo2), incLfo2)
    {
      yn1 := LfoSample(startLfo1 == On, readIndexLfo1);
      yn2 := LfoSample(startOsc2 == On, readIndexLfo2);
      if startLfo1 == On {
        TableSampleBounded(sinArray, readIndexLfo1, -1.0, 1.0);
      }
      if startOsc2 == On {
        TableSampleBounded(sinArray, readIndexLfo2, -1.0, 1.0);
      }
      readIndexLfo1 := Advance(readIndexLfo1, incLfo1);
      readIndexLfo2 := Advance(readIndexLfo2, incLfo2);
    }

    /** Reads both oscillators at their current positions from the tables
        their type and mode select, then advances each by its increment,
        wrapping only a sum past the table length. */
    method DoOscillate() returns (yn1: real, yn2: real)
      requires TablesShaped()
      requires startOsc1 == On ==> readIndexOsc1 < TableLength as real
      requires startOsc2 == On ==> readIndexOsc2 < TableLength as real
      modifies this`readIndexOsc1, this`readIndexOsc2
      ensures yn1 == OscSample(startOsc1 == On, osc1Type, osc1Mode, old(readIndexOsc1))
      ensures yn2 == OscSample(startOsc2 == On, osc2Type, osc2Mode, old(readIndexOsc2))
      ensures readIndexOsc1 == Advance(old(readIndexOsc1), incOsc1)
      ensures readIndexOsc2 == Advance(old(readIndexOsc2), incOsc2)
    {
      yn1 := OscSample(startOsc1 == On, osc1Type, osc1Mode, readIndexOsc1);
      yn2 := OscSample(startOsc2 == On, osc2Type, osc2Mode, readIndexOsc2);
      readIndexOsc1 := Advance(readIndexOsc1, incOsc1);
      readIndexOsc2 := Advance(readIndexOsc2, incOsc2);
    }

    /** The post-update hook: which control recomputes which increment or
        coefficient. Frequency controls always recook their increment; start
        switches recook only when the switch is on; the gain control copies
        into a0; the cutoff control recomputes the bilinear lowpass from
        K = tan(2 pi fc / fs). Any other control changes nothing. */
    method PostUpdatePluginParameter(controlId: int, tangent: real -> real)
      requires Valid()
      requires controlId == 51 ==> tangent((TwoPi * cutoffControl) / sampleRate) + 1.0 != 0.0
      modifies this`incOsc1, this`incOsc2, this`incLfo1, this`incLfo2, this`a0Gain
      modifies this`fcCof, this`kCof, this`b0Cof, this`b1Cof, this`a1Cof
      ensures Valid()
      ensures if controlId == 12 || (controlId == 10 && startOsc1 == On)
        then incOsc1 == CookFrequency(frequencyOsc1, sampleRate) else incOsc1 == old(incOsc1)
      ensures if controlId == 18 || (controlId == 17 && startLfo1 == On)
        then incLfo1 == CookFrequency(frequencyLfo1, sampleRate) else incLfo1 == old(incLfo1)
      ensures if controlId == 22 || (controlId == 20 && startOsc2 == On)
        then incOsc2 == CookFrequency(frequencyOsc2, sampleRate) else incOsc2 == old(incOsc2)
      ensures if controlId == 28 || (controlId == 27 && startLfo2 == On)
        then incLfo2 == CookFrequency(frequencyLfo2, sampleRate) else incLfo2 == old(incLfo2)
      ensures a0Gain == if controlId == 41 then gainControl else old(a0Gain)
      ensures controlId == 51 ==>
        var c := BilinearLowpass(tangent((TwoPi * cutoffControl) / sampleRate));
        fcCof == cutoffControl && kCof == c.k && b0Cof == c.b0 && b1Cof == c.b1 && a1Cof == c.a1
      ensures controlId != 51 ==>
        fcCof == old(fcCof) && kCof == old(kCof) && b0Cof == old(b0Cof) && b1Cof == old(b1Cof) && a1Cof == old(a1Cof)
      ensures controlId !in {10, 12, 17, 18, 20, 22, 27, 28, 41, 51} ==> unchanged(this)
    {
      match controlId {
        case 10 =>
          if startOsc1 == On {
            incOsc1 := CookFrequencyOsc(frequencyOsc1);
          }
        case 12 =>
          incOsc1 := CookFrequencyOsc(frequencyOsc1);
        case 17 =>
          if startLfo1 == On {
            incLfo1 := CookFrequencyOsc(frequencyLfo1);
          }
        case 18 =>
          incLfo1 := CookFrequencyOsc(frequencyLfo1);
        case 20 =>
          if startOsc2 == On {
            incOsc2 := CookFrequencyOsc(frequencyOsc2);
          }
        case 22 =>
          incOsc2 := CookFrequencyOsc(frequencyOsc2);
        case 27 =>
          if startLfo2 == On {
            incLfo2 := CookFrequencyOsc(frequencyLfo2);
          }
        case 28 =>
          incLfo2 := CookFrequencyOsc(frequencyLfo2);
        case 41 =>
          a0Gain := gainControl;
        case 51 =>
          // This case has no break and falls into the default case, which does nothing.
          fcCof := cutoffControl;
          var c := BilinearLowpass(tangent((TwoPi * fcCof) / sampleRate));
          kCof := c.k;
          b0Cof := c.b0;
          b1Cof := b0Cof;
          a1Cof := c.a1;
        case _ =>
      }
    }

    /** The state change of one sounding frame, from the previous state to
        this one. The LFOs are read at their previous positions (LFO 2 gated by
        oscillator 2's switch) and advanced; an oscillator whose LFO is on and
        bound to FM has its increment recooked from its base frequency plus 20
        times its LFO sample, and otherwise keeps it; the oscillators are read
        at their previous positions and advanced by the new increments; under
        AM an oscillator sample is multiplied by its LFO sample; the two are
        mixed at half volume each; the gain-control filter's delay takes the
        mix, the lowpass's input delay takes the gain filter's output and its
        output delay takes the lowpass output. */
    twostate predicate Rendered()
      reads this, sinArray, sawToothArray, triangleArray, squareArray
      reads sawToothArrayBl5, triangleArrayBl5, squareArrayBl5
      requires TablesShaped() && old(ReadsInTable())
    {
      var lfo1 := old(LfoSample(startLfo1 == On, readIndexLfo1));
      var lfo2 := old(LfoSample(startOsc2 == On, readIndexLfo2));
      var osc1 := OscSample(old(startOsc1 == On), old(osc1Type), old(osc1Mode), old(readIndexOsc1));
      var osc2 := OscSample(old(startOsc2 == On), old(osc2Type), old(osc2Mode), old(readIndexOsc2));
      var mixed := Mix(old(volumeOsc1), old(volumeOsc2),
        AmRoute(old(startLfo1 == On && lfo1Control == Am), lfo1, osc1),
        AmRoute(old(startLfo2 == On && lfo2Control == Am), lfo2, osc2));
      var gained := GainFilterStep(old(a0Gain), old(alfaGain), mixed, old(z1Gain));
      && readIndexLfo1 == Advance(old(readIndexLfo1), old(incLfo1))
      && readIndexLfo2 == Advance(old(readIndexLfo2), old(incLfo2))
      && (if old(startLfo1 == On && lfo1Control == Fm)
          then incOsc1 == CookFrequency(FmFrequency(old(frequencyOsc1), lfo1), old(sampleRate))
          else incOsc1 == old(incOsc1))
      && (if old(startLfo2 == On && lfo2Control == Fm)
          then incOsc2 == CookFrequency(FmFrequency(old(frequencyOsc2), lfo2), old(sampleRate))
          else incOsc2 == old(incOsc2))
      && readIndexOsc1 == Advance(old(readIndexOsc1), incOsc1)
      && readIndexOsc2 == Advance(old(readIndexOsc2), incOsc2)
      && z1Gain == mixed && z1xCof == gained
      && z1yCof == LowpassStep(old(b0Cof), old(b1Cof), old(a1Cof), gained, old(z1xCof), old(z1yCof))
    }

    /** The oscillator part of a frame: read and advance the LFOs, apply
        frequency modulation to the oscillator increments, then read and
        advance the oscillators. */
    method RenderSources() returns (lfo1: real, lfo2: real, osc1: real, osc2: real)
      requires Valid() && ReadsInTable()
      modifies this`readIndexOsc1, this`readIndexOsc2, this`readIndexLfo1, this`readIndexLfo2
      modifies this`incOsc1, this`incOsc2
      ensures lfo1 == old(LfoSample(startLfo1 == On, readIndexLfo1))
      ensures lfo2 == old(LfoSample(startOsc2 == On, readIndexLfo2))
      ensures readIndexLfo1 == Advance(old(readIndexLfo1), old(incLfo1))
      ensures readIndexLfo2 == Advance(old(readIndexLfo2), old(incLfo2))
      ensures if old(startLfo1 == On && lfo1Control == Fm)
        then incOsc1 == CookFrequency(FmFrequency(old(frequencyOsc1), lfo1), old(sampleRate)) else incOsc1 == old(incOsc1)
      ensures if old(startLfo2 == On && lfo2Control == Fm)
        then incOsc2 == CookFrequency(FmFrequency(old(frequencyOsc2), lfo2), old(sampleRate)) else incOsc2 == old(incOsc2)
      ensures osc1 == OscSample(startOsc1 == On, osc1Type, osc1Mode, old(readIndexOsc1))
      ensures osc2 == OscSample(startOsc2 == On, osc2Type, osc2Mode, old(readIndexOsc2))
      ensures readIndexOsc1 == Advance(old(readIndexOsc1), incOsc1)
      ensures readIndexOsc2 == Advance(old(readIndexOsc2), incOsc2)
    {
      var fm1, fm2 := startLfo1 == On && lfo1Control == Fm, startLfo2 == On && lfo2Control == Fm;
      var f1, f2, fs := frequencyOsc1, frequencyOsc2, sampleRate;
      lfo1, lfo2 := DoLfo();
      if fm1 {
        FmIncrementInRange(f1, lfo1, fs);
        incOsc1 := CookFrequency(FmFrequency(f1, lfo1), fs);
      }
      if fm2 {
        FmIncrementInRange(f2, lfo2, fs);
        incOsc2 := CookFrequency(FmFrequency(f2, lfo2), fs);
      }
      osc1, osc2 := DoOscillate();
    }

    /** The sound-producing part of a frame, once at least one oscillator is
        on: the LFO samples, the oscillator samples and the output, with the
        state each step leaves behind. */
    method RenderFrame() returns (lfo1: real, lfo2: real, osc1: real, osc2: real, out: real)
      requires Valid() && ReadsInTable()
      modifies this`readIndexOsc1, this`readIndexOsc2, this`readIndexLfo1, this`readIndexLfo2
      modifies this`incOsc1, this`incOsc2, this`z1Gain, this`z1xCof, this`z1yCof
      ensures lfo1 == old(LfoSample(startLfo1 == On, readIndexLfo1))
      ensures lfo2 == old(LfoSample(startOsc2 == On, readIndexLfo2))
      ensures readIndexLfo1 == Advance(old(readIndexLfo1), old(incLfo1))
      ensures readIndexLfo2 == Advance(old(readIndexLfo2), old(incLfo2))
      ensures if old(startLfo1 == On && lfo1Control == Fm)
        then incOsc1 == CookFrequency(FmFrequency(old(frequencyOsc1), lfo1), old(sampleRate)) else incOsc1 == old(incOsc1)
      ensures if old(startLfo2 == On && lfo2Control == Fm)
        then incOsc2 == CookFrequency(FmFrequency(old(frequencyOsc2), lfo2), old(sampleRate)) else incOsc2 == old(incOsc2)
      ensures osc1 == OscSample(startOsc1 == On, osc1Type, osc1Mode, old(readIndexOsc1))
      ensures osc2 == OscSample(startOsc2 == On, osc2Type, osc2Mode, old(readIndexOsc2))
      ensures readIndexOsc1 == Advance(old(readIndexOsc1), incOsc1)
      ensures readIndexOsc2 == Advance(old(readIndexOsc2), incOsc2)
      ensures z1Gain == Mix(old(volumeOsc1), old(volumeOsc2),
        AmRoute(old(startLfo1 == On && lfo1Control == Am), lfo1, osc1),
        AmRoute(old(startLfo2 == On && lfo2Control == Am), lfo2, osc2))
      ensures z1xCof == GainFilterStep(old(a0Gain), old(alfaGain), z1Gain, old(z1Gain))
      ensures out == z1yCof == LowpassStep(old(b0Cof), old(b1Cof), old(a1Cof), z1xCof, old(z1xCof), old(z1yCof))
    {
      var am1, am2 := startLfo1 == On && lfo1Control == Am, startLfo2 == On && lfo2Control == Am;
      var v1, v2, a0, alfa, zg := volumeOsc1, volumeOsc2, a0Gain, alfaGain, z1Gain;
      var b0, b1, a1, zx, zy := b0Cof, b1Cof, a1Cof, z1xCof, z1yCof;
      lfo1, lfo2, osc1, osc2 := RenderSources();
      var mixed := Mix(v1, v2, AmRoute(am1, lfo1, osc1), AmRoute(am2, lfo2, osc2));
      var gained := GainFilterStep(a0, alfa, mixed, zg);
      out := LowpassStep(b0, b1, a1, gained, zx, zy);
      z1Gain, z1xCof, z1yCof := mixed, gained, out;
    }

    /** One frame of the synth. With both oscillators off the output channel
        (and the second channel when stereo) is 0 and no state changes.
        Otherwise: read the LFOs; under FM recook an oscillator's increment
        from its frequency plus 20 times its LFO sample; read the oscillators;
        under AM multiply an oscillator sample by its LFO sample; mix at half
        volume each; run the gain-control filter and then the lowpass; write
        the result to channel 0 and, when stereo, to channel 1. */
    method ProcessAudioFrame(frame: array<real>, stereo: bool)
      requires Valid() && (!Silent() ==> ReadsInTable())
      requires frame.Length >= (if stereo then 2 else 1)
      requires frame !in Tables()
      modifies frame
      modifies this`readIndexOsc1, this`readIndexOsc2, this`readIndexLfo1, this`readIndexLfo2
      modifies this`incOsc1, this`incOsc2, this`z1Gain, this`z1xCof, this`z1yCof
      ensures Valid()
      ensures forall k :: (if stereo then 2 else 1) <= k < frame.Length ==> frame[k] == old(frame[k])
      ensures old(Silent()) ==> frame[0] == 0.0 && (stereo ==> frame[1] == 0.0) && unchanged(this)
      ensures !old(Silent()) ==> Rendered() && frame[0] == z1yCof && (stereo ==> frame[1] == z1yCof)
    {
      if startOsc1 == Off && startOsc2 == Off {
        frame[0] := 0.0;
        if stereo {
          frame[1] := 0.0;
        }
        return;
      }

      var lfo1, lfo2, osc1, osc2, out := RenderFrame();
      assert Rendered();
      frame[0] := out;
      if stereo {
        frame[1] := out;
      }
    }

    /** One frame from a state whose reads all lie inside the tables can
        leave a sounding oscillator's read position at 1024, so that the next
        frame reads one entry past the end of its table. Oscillator 1 runs at
        1033.59375 Hz at a 44100 Hz sample rate, an increment of exactly 24
        entries, and is read at position 1000; the position does not depend on
        the table contents. */
    static method FrameLeavesTableLength() returns (core: PluginCore)
      ensures core.Valid() && core.startOsc1 == On && core.incOsc1 == 24.0
      ensures core.readIndexOsc1 == TableLength as real && !core.ReadsInTable()
    {
      core := SoundingAt1000();
      var frame := new real[1];
      core.ProcessAudioFrame(frame, false);
    }

    /** A fresh core with oscillator 1 alone sounding, at 1033.59375 Hz and a
        44100 Hz sample rate, read at position 1000. */
    static method SoundingAt1000() returns (core: PluginCore)
      ensures fresh(core) && fresh(core.Tables())
      ensures core.Valid() && core.ReadsInTable()
      ensures core.startOsc1 == On && core.startLfo1 == Off && core.startLfo2 == Off
      ensures core.readIndexOsc1 == 1000.0 && core.incOsc1 == 24.0
    {
      core := new PluginCore(44100.0, 1000.0, 0.0, 0.0, 0.0);
      core.frequencyOsc1 := 1033.59375;
      core.incOsc1 := core.CookFrequencyOsc(core.frequencyOsc1);
      core.startOsc1 := On;
    }
  }
}

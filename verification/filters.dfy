/** The signal path after the oscillators: amplitude-modulation routing, the
    volume mix, the gain-control filter and the bilinear lowpass, each as one
    step of its difference equation and as a run over a sequence of inputs. */
module Filters {

  function Abs(x: real): real
  {
    if x < 0.0 then -x else x
  }

  /** Amplitude modulation: when the LFO is on and bound to AM the oscillator
      sample is multiplied by the LFO sample, with no offset; otherwise the
      oscillator sample passes unchanged. */
  function AmRoute(amActive: bool, lfo: real, osc: real): real
  {
    if amActive then lfo * osc else osc
  }

  /** Without AM the sample passes unchanged. With AM the result can pass
      through zero and flip sign, and an LFO sample in [-1, 1] never
      amplifies the oscillator. */
  lemma AmRouteProperties(amActive: bool, lfo: real, osc: real)
    ensures !amActive ==> AmRoute(amActive, lfo, osc) == osc
    ensures amActive && lfo == 0.0 ==> AmRoute(amActive, lfo, osc) == 0.0
    ensures amActive && lfo < 0.0 && osc > 0.0 ==> AmRoute(amActive, lfo, osc) < 0.0
    ensures -1.0 <= lfo <= 1.0 ==> Abs(AmRoute(amActive, lfo, osc)) <= Abs(osc)
  {
    ScaleBound(lfo, osc);
  }

  lemma ScaleBound(lfo: real, osc: real)
    ensures -1.0 <= lfo <= 1.0 ==> Abs(lfo * osc) <= Abs(osc)
  {
    if -1.0 <= lfo <= 1.0 {
      var a, b := Abs(lfo), Abs(osc);
      assert a <= 1.0;
      assert a * b <= 1.0 * b;
      assert Abs(lfo * osc) == a * b;
    }
  }

  /** The volume mix: each oscillator scaled by half its volume, then summed. */
  function Mix(volume1: real, volume2: real, s1: real, s2: real): real
  {
    (volume1 / 2.0) * s1 + (volume2 / 2.0) * s2
  }

  /** With volumes and samples in the control ranges the mix never leaves
      [-(v1 + v2) / 2, (v1 + v2) / 2]; with the second volume at 0 it is half
      the first oscillator at its volume. */
  lemma MixBound(volume1: real, volume2: real, s1: real, s2: real)
    ensures 0.0 <= volume1 && 0.0 <= volume2 && Abs(s1) <= 1.0 && Abs(s2) <= 1.0
      ==> Abs(Mix(volume1, volume2, s1, s2)) <= (volume1 + volume2) / 2.0
    ensures volume2 == 0.0 ==> Mix(volume1, volume2, s1, s2) * 2.0 == volume1 * s1
  {
    HalfVolumeBound(volume1, s1);
    HalfVolumeBound(volume2, s2);
  }

  lemma HalfVolumeBound(v: real, s: real)
    ensures 0.0 <= v && Abs(s) <= 1.0 ==> Abs((v / 2.0) * s) <= v / 2.0
  {
    if 0.0 <= v && Abs(s) <= 1.0 {
      var h := v / 2.0;
      if s >= 0.0 {
        assert h * s <= h * 1.0;
      } else {
        assert h * (-s) <= h * 1.0;
      }
    }
  }

  /** One step of the gain-control filter: the current input scaled by a0 plus
      the previous input scaled by alfa. */
  function GainFilterStep(a0: real, alfa: real, x: real, z1: real): real
  {
    a0 * x + alfa * z1
  }

  /** The gain-control filter over a sequence of inputs, starting from delay
      z1. Each output depends only on its own input and the one before it
      (the delay cell holds the previous input, never an output). */
  function GainFilterRun(a0: real, alfa: real, z1: real, xs: seq<real>): (ys: seq<real>)
    ensures |ys| == |xs|
    ensures forall n {:trigger ys[n]} :: 0 < n < |xs| ==> ys[n] == a0 * xs[n] + alfa * xs[n - 1]
    ensures |xs| > 0 ==> ys[0] == a0 * xs[0] + alfa * z1
    decreases |xs|
  {
    if xs == [] then []
    else [GainFilterStep(a0, alfa, xs[0], z1)] + GainFilterRun(a0, alfa, xs[0], xs[1..])
  }

  /** With a0 = 1 and alfa = 0 the gain-control filter is the identity. */
  lemma GainFilterIdentity(z1: real, xs: seq<real>)
    ensures GainFilterRun(1.0, 0.0, z1, xs) == xs
  {
    var ys := GainFilterRun(1.0, 0.0, z1, xs);
    forall n | 0 <= n < |xs|
      ensures ys[n] == xs[n]
    {
      if n == 0 {
        assert ys[0] == 1.0 * xs[0] + 0.0 * z1;
      } else {
        assert ys[n] == 1.0 * xs[n] + 0.0 * xs[n - 1];
      }
    }
  }

  /** Lowpass coefficients of the bilinear one-pole design for a given K. */
  datatype Lowpass = Lowpass(k: real, b0: real, b1: real, a1: real)

  /** b0 = b1 = K/(K+1) and a1 = (K-1)/(K+1). The coefficients always sum to
      unity gain at DC; for a positive K the pole lies strictly inside the unit
      circle and the feed-forward gains lie strictly between 0 and 1. */
  function BilinearLowpass(k: real): (c: Lowpass)
    requires k + 1.0 != 0.0
    ensures c.k == k && c.b0 == c.b1
    ensures c.b0 + c.b1 - c.a1 == 1.0
    ensures k > 0.0 ==> -1.0 < c.a1 < 1.0 && 0.0 < c.b0 < 1.0
  {
    var b0 := k / (k + 1.0);
    var a1 := (k - 1.0) / (k + 1.0);
    assert b0 + b0 - a1 == (k + k - (k - 1.0)) / (k + 1.0);
    Lowpass(k, b0, b0, a1)
  }

  /** For K > 0 the DC gain (b0 + b1) / (1 + a1) is exactly 1. */
  lemma LowpassUnityDcGain(k: real)
    requires k > 0.0
    ensures 1.0 + BilinearLowpass(k).a1 > 0.0
    ensures (BilinearLowpass(k).b0 + BilinearLowpass(k).b1) / (1.0 + BilinearLowpass(k).a1) == 1.0
  {
    var c := BilinearLowpass(k);
    assert c.b0 + c.b1 == 1.0 + c.a1;
  }

  /** One step of the lowpass: y = b0 x + b1 x1 - a1 y1. */
  function LowpassStep(b0: real, b1: real, a1: real, x: real, x1: real, y1: real): real
  {
    b0 * x + b1 * x1 - a1 * y1
  }

  /** The lowpass over a sequence of inputs, starting from delays x1 and y1;
      after each step the input and output are shifted into the delays. */
  function LowpassRun(c: Lowpass, x1: real, y1: real, xs: seq<real>): (ys: seq<real>)
    ensures |ys| == |xs|
    ensures |xs| > 0 ==> ys[0] == LowpassStep(c.b0, c.b1, c.a1, xs[0], x1, y1)
    ensures forall n {:trigger ys[n]} :: 0 < n < |xs| ==>
      ys[n] == LowpassStep(c.b0, c.b1, c.a1, xs[n], xs[n - 1], ys[n - 1])
    decreases |xs|
  {
    if xs == [] then []
    else
      var y := LowpassStep(c.b0, c.b1, c.a1, xs[0], x1, y1);
      [y] + LowpassRun(c, xs[0], y, xs[1..])
  }

  /** Unity DC gain in the time domain: with coefficients that sum to 1 at DC,
      a lowpass whose delays hold the constant d and whose input stays at d
      outputs d on every sample. */
  lemma {:induction false} LowpassHoldsDc(c: Lowpass, d: real, xs: seq<real>)
    requires c.b0 + c.b1 - c.a1 == 1.0
    requires forall n :: 0 <= n < |xs| ==> xs[n] == d
    ensures forall n :: 0 <= n < |xs| ==> LowpassRun(c, d, d, xs)[n] == d
  {
    if xs != [] {
      var y := LowpassStep(c.b0, c.b1, c.a1, xs[0], d, d);
      assert xs[0] == d;
      assert y == c.b0 * d + c.b1 * d - c.a1 * d;
      assert c.b0 * d + c.b1 * d - c.a1 * d == (c.b0 + c.b1 - c.a1) * d;
      assert y == d;
      LowpassHoldsDc(c, d, xs[1..]);
      assert LowpassRun(c, d, d, xs) == [y] + LowpassRun(c, d, d, xs[1..]);
    }
  }
}

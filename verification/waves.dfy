/**
 * Sampled sine tones and their sums. The same time grid and the same
 * "add one 0.5-amplitude sine per frequency" loop appear in the sound
 * buffer, the spectrogram input and the visualiser's summed wave; they are
 * defined once here. Real arithmetic stands for float64 arithmetic, and the
 * sine itself is a parameter `sin`: its values are not modelled.
 */
module Waves {

  /** `np.pi` as the float64 literal numpy uses. */
  const Pi: real := 3.141592653589793

  /** Amplitude of every tone the program synthesises. */
  const ToneAmplitude: real := 0.5

  /** The k-th of `num` grid points on `[0, stop)`: k steps of `stop / num`. */
  function SampleTime(stop: real, num: nat, k: nat): real
    requires k < num
  {
    k as real * (stop / num as real)
  }

  /** `np.linspace(0, stop, num, endpoint=False)`: `num` points, `stop / num` apart. */
  function Linspace(stop: real, num: nat): (t: seq<real>)
    ensures |t| == num
    ensures forall k :: 0 <= k < num ==> t[k] == SampleTime(stop, num, k)
  {
    seq(num, k requires 0 <= k < num => SampleTime(stop, num, k))
  }

  /** The grid starts at 0, is evenly spaced and never reaches `stop`. */
  lemma GridBounds(stop: real, num: nat, k: nat)
    requires 0.0 < stop && k < num
    ensures k == 0 ==> Linspace(stop, num)[k] == 0.0
    ensures 0.0 <= Linspace(stop, num)[k] < stop
    ensures k + 1 < num ==> Linspace(stop, num)[k + 1] - Linspace(stop, num)[k] == stop / num as real
  {
    var step := stop / num as real;
    assert step * num as real == stop;
    assert 0.0 < step;
    assert k as real * step < num as real * step by {
      assert k as real < num as real;
    }
  }

  /** When `sampleRate * duration` samples are taken exactly, the grid step is `1 / sampleRate`. */
  lemma GridSpacing(sampleRate: real, duration: real, num: nat, k: nat)
    requires 0.0 < sampleRate && 0.0 < duration
    requires num as real == sampleRate * duration && k < num
    ensures Linspace(duration, num)[k] == k as real / sampleRate
  {
    var inv := 1.0 / sampleRate;
    assert inv * sampleRate == 1.0;
    assert inv * (sampleRate * duration) == duration by {
      assert inv * (sampleRate * duration) == (inv * sampleRate) * duration;
    }
    assert duration / num as real == inv;
  }

  /** One tone `0.5 sin(2 pi f x + phase)`. */
  function Tone(sin: real -> real, f: real, x: real, phase: real): real
  {
    ToneAmplitude * sin(2.0 * Pi * f * x + phase)
  }

  /** The tones of `freqs` at time `x`, added one by one in list order. */
  function Sum(sin: real -> real, freqs: seq<real>, x: real, phase: real): real
    decreases |freqs|
  {
    if freqs == [] then 0.0
    else Sum(sin, freqs[..|freqs| - 1], x, phase) + Tone(sin, freqs[|freqs| - 1], x, phase)
  }

  /** The summed signal sampled on the grid `t`. */
  function Superposition(sin: real -> real, freqs: seq<real>, t: seq<real>, phase: real): (w: seq<real>)
    ensures |w| == |t|
  {
    seq(|t|, k requires 0 <= k < |t| => Sum(sin, freqs, t[k], phase))
  }

  /** Each frequency contributes exactly its own term: the sum splits over concatenation. */
  lemma {:induction false} SumAppend(sin: real -> real, a: seq<real>, b: seq<real>, x: real, phase: real)
    ensures Sum(sin, a + b, x, phase) == Sum(sin, a, x, phase) + Sum(sin, b, x, phase)
    decreases |b|
  {
    if b == [] {
      assert a + b == a;
    } else {
      var b' := b[..|b| - 1];
      assert (a + b)[..|a + b| - 1] == a + b';
      SumAppend(sin, a, b', x, phase);
    }
  }

  /** With no tones the signal is silent. */
  lemma SilentWithoutTones(sin: real -> real, t: seq<real>, phase: real)
    ensures forall k :: 0 <= k < |t| ==> Superposition(sin, [], t, phase)[k] == 0.0
  {
  }

  /**
   * With a sine bounded by 1, n tones of amplitude 0.5 stay within n / 2 in
   * magnitude; for three or more tones that exceeds the [-1, 1] range of audio.
   */
  lemma {:induction false} SumBound(sin: real -> real, freqs: seq<real>, x: real, phase: real)
    requires forall y :: -1.0 <= sin(y) <= 1.0
    ensures -ToneAmplitude * |freqs| as real <= Sum(sin, freqs, x, phase) <= ToneAmplitude * |freqs| as real
    decreases |freqs|
  {
    if freqs != [] {
      SumBound(sin, freqs[..|freqs| - 1], x, phase);
      var y := 2.0 * Pi * freqs[|freqs| - 1] * x + phase;
      assert -1.0 <= sin(y) <= 1.0;
    }
  }

  /** `wave += 0.5 * np.sin(2 * np.pi * f * t)`, element by element. */
  method AddTone(wave: array<real>, t: seq<real>, f: real, sin: real -> real)
    requires wave.Length == |t|
    modifies wave
    ensures forall k :: 0 <= k < |t| ==> wave[k] == old(wave[k]) + Tone(sin, f, t[k], 0.0)
  {
    for k := 0 to |t|
      invariant forall j :: 0 <= j < k ==> wave[j] == old(wave[j]) + Tone(sin, f, t[j], 0.0)
      invariant forall j :: k <= j < |t| ==> wave[j] == old(wave[j])
    {
      wave[k] := wave[k] + Tone(sin, f, t[k], 0.0);
    }
  }

  /** `for frequency in freqs: wave += ...`: one tone per frequency, in list order. */
  method Accumulate(wave: array<real>, t: seq<real>, freqs: seq<real>, sin: real -> real)
    requires wave.Length == |t|
    modifies wave
    ensures forall k :: 0 <= k < |t| ==> wave[k] == old(wave[k]) + Sum(sin, freqs, t[k], 0.0)
  {
    for i := 0 to |freqs|
      invariant forall k :: 0 <= k < |t| ==> wave[k] == old(wave[k]) + Sum(sin, freqs[..i], t[k], 0.0)
    {
      AddTone(wave, t, freqs[i], sin);
      assert freqs[..i + 1][..i] == freqs[..i];
    }
    assert freqs[..|freqs|] == freqs;
  }

  /** A zero-initialised buffer on the grid `t` with every tone of `freqs` added in. */
  method Synthesize(t: seq<real>, freqs: seq<real>, sin: real -> real) returns (w: seq<real>)
    ensures w == Superposition(sin, freqs, t, 0.0)
  {
    var wave := new real[|t|](_ => 0.0);
    Accumulate(wave, t, freqs, sin);
    w := wave[..];
  }
}

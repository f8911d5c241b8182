/**
 * fourier.py: sizing and normalisation of the zero-padded, Hann-windowed FFT
 * (`computeFFT`) and the two-tier choice of which spectral peaks get a label
 * (`plotFFTInTkinter`). The cosine of the window and the modulus of each
 * transform bin are parameters; their float values are not modelled.
 */
module Fourier {
  import opened Wrappers
  import opened Waves

  /** 2 to the power `e`. */
  function Pow2(e: nat): (p: nat)
    ensures p >= 1
    ensures e > 0 ==> p % 2 == 0
  {
    if e == 0 then 1 else 2 * Pow2(e - 1)
  }

  ghost predicate IsPowerOfTwo(p: nat)
  {
    exists e: nat :: Pow2(e) == p
  }

  /** `int(np.ceil(np.log2(n)))`, computed exactly on integers. */
  function CeilLog2(n: nat): (e: nat)
    requires n >= 1
    ensures n <= Pow2(e) < 2 * n
    decreases n
  {
    if n == 1 then 0 else 1 + CeilLog2((n + 1) / 2)
  }

  /** `padded_length`: the next power of two at or above the sample count. */
  function PaddedLength(n: nat): (p: nat)
    requires n >= 1
    ensures IsPowerOfTwo(p)
    ensures n <= p < 2 * n
  {
    Pow2(CeilLog2(n))
  }

  lemma {:induction false} Pow2Monotone(a: nat, b: nat)
    requires a <= b
    ensures Pow2(a) <= Pow2(b)
    decreases b
  {
    if a < b {
      Pow2Monotone(a, b - 1);
    }
  }

  /** No smaller power of two covers `n` samples: the padding is minimal. */
  lemma PaddedLengthIsLeast(n: nat, q: nat)
    requires n >= 1 && IsPowerOfTwo(q) && n <= q
    ensures PaddedLength(n) <= q
  {
    var e: nat :| Pow2(e) == q;
    var c := CeilLog2(n);
    if c > 0 {
      assert Pow2(c) == 2 * Pow2(c - 1);
      if e < c {
        Pow2Monotone(e, c - 1);
        assert false;
      }
    }
    Pow2Monotone(c, e);
  }

  lemma Pow2Table()
    ensures Pow2(16) == 65536 && Pow2(17) == 131072
  {
    assert Pow2(1) == 2;
    assert Pow2(2) == 4;
    assert Pow2(3) == 8;
    assert Pow2(4) == 16;
    assert Pow2(5) == 32;
    assert Pow2(6) == 64;
    assert Pow2(7) == 128;
    assert Pow2(8) == 256;
    assert Pow2(9) == 512;
    assert Pow2(10) == 1024;
    assert Pow2(11) == 2048;
    assert Pow2(12) == 4096;
    assert Pow2(13) == 8192;
    assert Pow2(14) == 16384;
    assert Pow2(15) == 32768;
  }

  /** A single sample needs no padding; the visualiser's 88200 samples pad to 2^17. */
  lemma PaddedLengthExamples()
    ensures PaddedLength(1) == 1
    ensures PaddedLength(88200) == 131072
  {
    Pow2Table();
    PaddedLengthIsLeast(88200, 131072);
    var c := CeilLog2(88200);
    if c <= 16 {
      Pow2Monotone(c, 16);
    } else {
      Pow2Monotone(17, c);
    }
  }

  /** `np.hanning(m)`: `0.5 - 0.5 cos(2 pi k / (m - 1))`, and `[1]` for one point. */
  function Hanning(m: nat, cos: real -> real): (w: seq<real>)
    ensures |w| == m
  {
    if m == 1 then [1.0]
    else seq(m, k => 0.5 - 0.5 * cos(2.0 * Pi * k as real / (m - 1) as real))
  }

  /** `signal * window`, element by element. */
  function Windowed(signal: seq<real>, window: seq<real>): (x: seq<real>)
    requires |window| == |signal|
    ensures |x| == |signal|
    ensures forall i :: 0 <= i < |x| ==> x[i] == signal[i] * window[i]
  {
    seq(|signal|, i requires 0 <= i < |signal| => signal[i] * window[i])
  }

  /** `rfft(x, n=p)` zero-pads `x` to length `p` before transforming. */
  function ZeroPad(x: seq<real>, p: nat): (y: seq<real>)
    requires |x| <= p
    ensures |y| == p && y[..|x|] == x
    ensures forall i :: |x| <= i < p ==> y[i] == 0.0
  {
    x + seq(p - |x|, _ => 0.0)
  }

  /** `np.fft.rfftfreq(p, d)`: bins `k / (p d)` for `k` up to `p / 2`. */
  function RfftFreq(p: nat, d: real): (f: seq<real>)
    requires p >= 1 && d != 0.0
    ensures |f| == p / 2 + 1
  {
    seq(p / 2 + 1, k => k as real * (1.0 / (p as real * d)))
  }

  function Abs(x: real): real
  {
    if x < 0.0 then -x else x
  }

  /** `mag` is the bin modulus `x` doubled and divided by `n`: non-negative, and `mag * n == 2|x|`. */
  predicate ScaledBy(mag: real, n: nat, x: real)
  {
    0.0 <= mag && mag * n as real == 2.0 * Abs(x)
  }

  /** `2 * np.abs(fft) / n_points` over `bins` bins of the transform of `y`. */
  function Magnitudes(y: seq<real>, bins: nat, n: nat, modulus: (seq<real>, nat) -> real): (m: seq<real>)
    requires n >= 1
    ensures |m| == bins
    ensures forall k :: 0 <= k < bins ==> ScaledBy(m[k], n, modulus(y, k))
  {
    var m := seq(bins, k requires 0 <= k < bins => 2.0 * Abs(modulus(y, k)) / n as real);
    assert forall k :: 0 <= k < bins ==> ScaledBy(m[k], n, modulus(y, k)) by {
      forall k | 0 <= k < bins
        ensures ScaledBy(m[k], n, modulus(y, k))
      {
        var a := 2.0 * Abs(modulus(y, k));
        assert m[k] == a / n as real;
        assert m[k] * n as real == a;
      }
    }
    m
  }

  /** Parallel frequency-bin and magnitude sequences. */
  datatype Spectrum = Spectrum(freqs: seq<real>, mags: seq<real>)

  /** The exceptions `computeFFT` raises. */
  datatype FftError =
    | EmptySignal     // log2(0) is -inf, and int(-inf) overflows
    | ZeroSampleRate  // 1 / sampleRate divides by zero

  /** The windowed signal, zero-padded to the power-of-two length that is transformed. */
  function PaddedInput(signal: seq<real>, cos: real -> real): (y: seq<real>)
    requires |signal| >= 1
    ensures |y| == PaddedLength(|signal|)
  {
    ZeroPad(Windowed(signal, Hanning(|signal|, cos)), PaddedLength(|signal|))
  }

  /**
   * `computeFFT`. `modulus(y, k)` stands for `|rfft(y)[k]|`; each magnitude is
   * `2 |rfft(y)[k]| / n` with `n` the unpadded sample count.
   */
  function ComputeFFT(signal: seq<real>, sampleRate: real, cos: real -> real, modulus: (seq<real>, nat) -> real)
    : (r: Result<Spectrum, FftError>)
    ensures |signal| == 0 ==> r == Failure(EmptySignal)
    ensures |signal| > 0 && sampleRate == 0.0 ==> r == Failure(ZeroSampleRate)
    ensures r.Success? <==> |signal| > 0 && sampleRate != 0.0
  {
    if |signal| == 0 then Failure(EmptySignal)
    else if sampleRate == 0.0 then Failure(ZeroSampleRate)
    else Success(SpectrumOf(signal, sampleRate, cos, modulus))
  }

  /** The `(freqs, fftMagnitudes)` pair `computeFFT` returns when it does not raise. */
  function SpectrumOf(signal: seq<real>, sampleRate: real, cos: real -> real, modulus: (seq<real>, nat) -> real): Spectrum
    requires |signal| >= 1 && sampleRate != 0.0
  {
    var p := PaddedLength(|signal|);
    Spectrum(RfftFreq(p, 1.0 / sampleRate), Magnitudes(PaddedInput(signal, cos), p / 2 + 1, |signal|, modulus))
  }

  /** Bin `k` sits at `k * sampleRate / p` Hz, and the bins rise with `k` for a positive rate. */
  lemma RfftFreqBins(p: nat, sampleRate: real)
    requires p >= 1 && sampleRate != 0.0
    ensures var f := RfftFreq(p, 1.0 / sampleRate);
            forall k :: 0 <= k < p / 2 + 1 ==> f[k] == k as real * sampleRate / p as real
    ensures var f := RfftFreq(p, 1.0 / sampleRate);
            0.0 < sampleRate ==> forall k :: 0 <= k < p / 2 ==> f[k] < f[k + 1]
  {
    var f := RfftFreq(p, 1.0 / sampleRate);
    var bin := 1.0 / (p as real * (1.0 / sampleRate));
    assert bin == sampleRate / p as real by {
      assert p as real * (1.0 / sampleRate) * sampleRate == p as real;
    }
    forall k | 0 <= k < p / 2 + 1
      ensures f[k] == k as real * sampleRate / p as real
    {
      assert f[k] == k as real * bin;
    }
    if 0.0 < sampleRate {
      forall k | 0 <= k < p / 2
        ensures f[k] < f[k + 1]
      {
        assert f[k + 1] - f[k] == bin;
      }
    }
  }

  /**
   * The spectrum has `p / 2 + 1` bins for the padded length `p`, its bins are
   * the `rfftfreq` of `p` at the signal's rate, and every magnitude is
   * non-negative and scaled by the UNPADDED count.
   */
  lemma SpectrumShape(signal: seq<real>, sampleRate: real, cos: real -> real, modulus: (seq<real>, nat) -> real)
    requires |signal| >= 1 && sampleRate != 0.0
    ensures ComputeFFT(signal, sampleRate, cos, modulus) == Success(SpectrumOf(signal, sampleRate, cos, modulus))
    ensures var s := SpectrumOf(signal, sampleRate, cos, modulus);
            && |s.freqs| == |s.mags| == PaddedLength(|signal|) / 2 + 1
            && s.freqs == RfftFreq(PaddedLength(|signal|), 1.0 / sampleRate)
            && (forall k :: 0 <= k < |s.mags| ==> ScaledBy(s.mags[k], |signal|, modulus(PaddedInput(signal, cos), k)))
  {
    var p := PaddedLength(|signal|);
    var m := Magnitudes(PaddedInput(signal, cos), p / 2 + 1, |signal|, modulus);
    assert SpectrumOf(signal, sampleRate, cos, modulus).mags == m;
  }

  /** Windowing keeps the sample count, and the padded tail is silent. */
  lemma PaddedInputShape(signal: seq<real>, cos: real -> real)
    requires |signal| >= 1
    ensures |Hanning(|signal|, cos)| == |signal|
    ensures forall i :: 0 <= i < |signal| ==>
              PaddedInput(signal, cos)[i] == signal[i] * Hanning(|signal|, cos)[i]
    ensures forall i :: |signal| <= i < PaddedLength(|signal|) ==> PaddedInput(signal, cos)[i] == 0.0
  {
    var x := Windowed(signal, Hanning(|signal|, cos));
    var y := PaddedInput(signal, cos);
    forall i | 0 <= i < |signal|
      ensures y[i] == signal[i] * Hanning(|signal|, cos)[i]
    {
      assert y[..|x|][i] == x[i];
    }
  }

  /** `np.max`. */
  function Max(s: seq<real>): (m: real)
    requires |s| > 0
    ensures forall i :: 0 <= i < |s| ==> s[i] <= m
    ensures exists i :: 0 <= i < |s| && s[i] == m
  {
    if |s| == 1 then s[0]
    else
      var r := Max(s[1..]);
      if s[0] >= r then s[0] else r
  }

  /** Every index of `idx` addresses one of `n` bins. */
  predicate InRange(idx: seq<nat>, n: nat)
  {
    forall i :: 0 <= i < |idx| ==> idx[i] < n
  }

  /** `find_peaks(mags, height=h)`, applied to the local maxima `peaks`: those at least `h` tall. */
  function AtLeast(mags: seq<real>, peaks: seq<nat>, h: real): (r: seq<nat>)
    requires InRange(peaks, |mags|)
    ensures InRange(r, |mags|)
    ensures forall x :: x in r <==> x in peaks && x < |mags| && mags[x] >= h
  {
    if peaks == [] then []
    else if mags[peaks[0]] >= h then [peaks[0]] + AtLeast(mags, peaks[1..], h)
    else AtLeast(mags, peaks[1..], h)
  }

  /** The `if magnitude > bar` test of the labelling loop. */
  function Above(mags: seq<real>, candidates: seq<nat>, bar: real): (r: seq<nat>)
    requires InRange(candidates, |mags|)
    ensures InRange(r, |mags|)
    ensures forall x :: x in r <==> x in candidates && x < |mags| && mags[x] > bar
  {
    if candidates == [] then []
    else if mags[candidates[0]] > bar then [candidates[0]] + Above(mags, candidates[1..], bar)
    else Above(mags, candidates[1..], bar)
  }

  /**
   * The peaks that get an annotation: candidates are the local maxima at
   * least max/10 tall; of those, only the ones strictly above max/5 are labelled.
   */
  function PeakLabels(mags: seq<real>, maxima: seq<nat>): (labels: seq<nat>)
    requires |mags| > 0
    requires InRange(maxima, |mags|)
    ensures forall l :: l in labels <==>
              l in maxima && l < |mags| && mags[l] >= HeightBar(mags) && mags[l] > LabelBar(mags)
  {
    Above(mags, AtLeast(mags, maxima, HeightBar(mags)), LabelBar(mags))
  }

  /** `height=np.max(fftMagnitudes) / 10`: the candidate tier. */
  function HeightBar(mags: seq<real>): real
    requires |mags| > 0
  {
    Max(mags) / 10.0
  }

  /** `magnitude > np.max(fftMagnitudes) / 5`: the label tier. */
  function LabelBar(mags: seq<real>): real
    requires |mags| > 0
  {
    Max(mags) / 5.0
  }

  predicate Increasing(s: seq<nat>)
  {
    forall i, j :: 0 <= i < j < |s| ==> s[i] < s[j]
  }

  /** Putting the head of an increasing list before an ordered selection of its tail keeps the order. */
  lemma PrependKeepsOrder(s: seq<nat>, rest: seq<nat>)
    requires |s| > 0 && Increasing(s) && Increasing(rest)
    requires forall x :: x in rest ==> x in s[1..]
    ensures Increasing([s[0]] + rest)
  {
    var r := [s[0]] + rest;
    forall i, j | 0 <= i < j < |r|
      ensures r[i] < r[j]
    {
      assert r[j] == rest[j - 1] && rest[j - 1] in rest;
      var m :| 0 <= m < |s[1..]| && s[1..][m] == rest[j - 1];
      assert s[0] < s[m + 1];
      if i > 0 {
        assert r[i] == rest[i - 1];
      }
    }
  }

  lemma {:induction false} AtLeastKeepsOrder(mags: seq<real>, peaks: seq<nat>, h: real)
    requires InRange(peaks, |mags|)
    requires Increasing(peaks)
    ensures Increasing(AtLeast(mags, peaks, h))
    decreases |peaks|
  {
    if peaks != [] {
      AtLeastKeepsOrder(mags, peaks[1..], h);
      var rest := AtLeast(mags, peaks[1..], h);
      var r := AtLeast(mags, peaks, h);
      if mags[peaks[0]] >= h {
        assert r == [peaks[0]] + rest;
        PrependKeepsOrder(peaks, rest);
      }
    }
  }

  lemma {:induction false} AboveKeepsOrder(mags: seq<real>, candidates: seq<nat>, bar: real)
    requires InRange(candidates, |mags|)
    requires Increasing(candidates)
    ensures Increasing(Above(mags, candidates, bar))
    decreases |candidates|
  {
    if candidates != [] {
      AboveKeepsOrder(mags, candidates[1..], bar);
      var rest := Above(mags, candidates[1..], bar);
      var r := Above(mags, candidates, bar);
      if mags[candidates[0]] > bar {
        assert r == [candidates[0]] + rest;
        PrependKeepsOrder(candidates, rest);
      }
    }
  }

  /** Labels come out in the ascending index (so frequency) order of the candidates. */
  lemma LabelsKeepOrder(mags: seq<real>, maxima: seq<nat>)
    requires |mags| > 0
    requires InRange(maxima, |mags|)
    requires Increasing(maxima)
    ensures Increasing(PeakLabels(mags, maxima))
  {
    AtLeastKeepsOrder(mags, maxima, HeightBar(mags));
    AboveKeepsOrder(mags, AtLeast(mags, maxima, HeightBar(mags)), LabelBar(mags));
  }

  /**
   * Whenever the height bar is at or below the label bar, the height tier
   * never removes a peak the label tier would keep: labelling the local
   * maxima directly gives the same, identically ordered list.
   */
  lemma {:induction false} HeightTierIsSubsumed(mags: seq<real>, maxima: seq<nat>, h: real, bar: real)
    requires InRange(maxima, |mags|)
    requires h <= bar
    ensures Above(mags, AtLeast(mags, maxima, h), bar) == Above(mags, maxima, bar)
    decreases |maxima|
  {
    if maxima != [] {
      HeightTierIsSubsumed(mags, maxima[1..], h, bar);
      if mags[maxima[0]] >= h {
        var rest := AtLeast(mags, maxima[1..], h);
        assert ([maxima[0]] + rest)[0] == maxima[0];
        assert ([maxima[0]] + rest)[1..] == rest;
      }
    }
  }

  /** The labels of a spectrum with non-negative maximum are the maxima strictly above max/5. */
  lemma LabelsOfNonNegativeSpectrum(mags: seq<real>, maxima: seq<nat>)
    requires |mags| > 0 && 0.0 <= Max(mags)
    requires InRange(maxima, |mags|)
    ensures PeakLabels(mags, maxima) == Above(mags, maxima, LabelBar(mags))
  {
    HeightTierIsSubsumed(mags, maxima, HeightBar(mags), LabelBar(mags));
  }

  /** An all-zero spectrum gets no labels, because the label test is strict. */
  lemma FlatSpectrumHasNoLabels(mags: seq<real>, maxima: seq<nat>)
    requires |mags| > 0 && forall i :: 0 <= i < |mags| ==> mags[i] == 0.0
    requires InRange(maxima, |mags|)
    ensures PeakLabels(mags, maxima) == []
  {
    assert Max(mags) == 0.0;
    NothingAbove(mags, AtLeast(mags, maxima, HeightBar(mags)), LabelBar(mags));
  }

  lemma {:induction false} NothingAbove(mags: seq<real>, candidates: seq<nat>, bar: real)
    requires InRange(candidates, |mags|)
    requires forall i :: 0 <= i < |mags| ==> mags[i] <= bar
    ensures Above(mags, candidates, bar) == []
    decreases |candidates|
  {
    if candidates != [] {
      NothingAbove(mags, candidates[1..], bar);
    }
  }
}

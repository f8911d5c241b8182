/**
 * spectrogram.py: the time grid and summed signal that `create_spectrogram`
 * feeds to `scipy.signal.spectrogram`, and the segment length it picks. The
 * short-time transform itself, the decibel conversion and the plot are not
 * modelled.
 */
module Spectrogram {
  import opened Waves

  /** The longest segment `create_spectrogram` asks for. */
  const MaxSegment: nat := 1024

  /** Default `num_points`. */
  const DefaultPoints: nat := 2048

  /** `nperseg = min(1024, len(signal))`. */
  function SegmentLength(len: nat): (r: nat)
    ensures r <= len && r <= MaxSegment
    ensures r == len || r == MaxSegment
  {
    if len < MaxSegment then len else MaxSegment
  }

  /** The data `create_spectrogram` hands to the short-time transform. */
  datatype SpectrogramInput = SpectrogramInput(t: seq<real>, signal: seq<real>, nperseg: nat)

  /**
   * `create_spectrogram` up to the transform: `num_points` grid times on
   * `[0, duration)`, a zeroed signal with one tone added per frequency, and
   * the segment length.
   */
  method CreateSpectrogram(frequencies: seq<real>, duration: real, numPoints: nat, sin: real -> real)
    returns (r: SpectrogramInput)
    ensures r.t == Linspace(duration, numPoints)
    ensures r.signal == Superposition(sin, frequencies, r.t, 0.0)
    ensures r.nperseg == SegmentLength(|r.signal|)
  {
    var t := Linspace(duration, numPoints);
    var signal := Synthesize(t, frequencies, sin);
    var nperseg := SegmentLength(|signal|);
    r := SpectrogramInput(t, signal, nperseg);
  }

  /**
   * Grid and signal both have `num_points` samples; the segment never exceeds
   * the signal, and is the full 1024 once there are at least 1024 points, as
   * with the default 2048.
   */
  lemma SpectrogramSizes(frequencies: seq<real>, duration: real, numPoints: nat, sin: real -> real)
    ensures var t := Linspace(duration, numPoints);
            var signal := Superposition(sin, frequencies, t, 0.0);
            && |t| == |signal| == numPoints
            && SegmentLength(|signal|) <= |signal|
            && (numPoints >= MaxSegment ==> SegmentLength(|signal|) == MaxSegment)
            && (numPoints < MaxSegment ==> SegmentLength(|signal|) == numPoints)
    ensures SegmentLength(DefaultPoints) == MaxSegment
  {
  }
}

/**
 * soundModule.py: building the sound buffer for a set of tones and the
 * random detune applied on collapse. The pygame mixer is device I/O and is
 * not modelled; the buffer is the real-valued sum before the int16 cast.
 */
module Sound {
  import opened Wrappers
  import opened Waves

  /** Default `sampleRate` of `createSoundWave`. */
  const DefaultSampleRate: real := 44100.0

  /** Both playback entry points synthesise this many seconds. */
  const PlaybackSeconds: real := 2.0

  /** Largest detune, in Hz, that `shiftPitch` applies either way. */
  const MaxDetune: real := 50.0

  /** The `frequencies` argument: a bare int/float, or a list of them. */
  datatype Frequencies = Scalar(f: real) | Many(fs: seq<real>)

  /** A bare number is wrapped into a one-element list. */
  function AsList(arg: Frequencies): seq<real>
  {
    match arg
    case Scalar(f) => [f]
    case Many(fs) => fs
  }

  /** Python's `int(x)` on a float: truncation toward zero. */
  function Trunc(x: real): (r: int)
    ensures 0.0 <= x ==> r as real <= x < r as real + 1.0
    ensures x < 0.0 ==> r as real - 1.0 < x <= r as real
  {
    if x >= 0.0 then x.Floor else -((-x).Floor)
  }

  /** `np.linspace` refuses a negative number of samples. */
  datatype SynthesisError = NegativeSampleCount(count: int)

  /** `int(sampleRate * duration)`, the number of samples of a buffer. */
  function SampleCount(sampleRate: real, duration: real): int
  {
    Trunc(sampleRate * duration)
  }

  /** What `createSoundWave` computes, before the int16 cast. */
  function SoundWave(frequencies: Frequencies, duration: real, sampleRate: real, sin: real -> real)
    : Result<seq<real>, SynthesisError>
  {
    var n := SampleCount(sampleRate, duration);
    if n < 0 then Failure(NegativeSampleCount(n))
    else Success(Superposition(sin, AsList(frequencies), Linspace(duration, n), 0.0))
  }

  /** `createSoundWave`: the grid, a zeroed buffer, and one tone added per frequency. */
  method CreateSoundWave(frequencies: Frequencies, duration: real, sampleRate: real, sin: real -> real)
    returns (r: Result<seq<real>, SynthesisError>)
    ensures r == SoundWave(frequencies, duration, sampleRate, sin)
  {
    var n := SampleCount(sampleRate, duration);
    if n < 0 {
      return Failure(NegativeSampleCount(n));
    }
    var t := Linspace(duration, n);
    var fs := AsList(frequencies);
    var wave := Synthesize(t, fs, sin);
    r := Success(wave);
  }

  /**
   * The buffer exists exactly when the sample count is not negative; it then
   * has `int(sampleRate * duration)` samples, the k-th being the sum of one
   * 0.5-amplitude sine per frequency at time `k * duration / n`.
   */
  lemma SoundWaveShape(frequencies: Frequencies, duration: real, sampleRate: real, sin: real -> real)
    ensures SoundWave(frequencies, duration, sampleRate, sin).Success?
            <==> SampleCount(sampleRate, duration) >= 0
    ensures SoundWave(frequencies, duration, sampleRate, sin).Success? ==>
              |SoundWave(frequencies, duration, sampleRate, sin).value| == SampleCount(sampleRate, duration)
    ensures forall k :: 0 <= k < SampleCount(sampleRate, duration) ==>
              SoundWave(frequencies, duration, sampleRate, sin).value[k]
              == Sum(sin, AsList(frequencies), SampleTime(duration, SampleCount(sampleRate, duration), k), 0.0)
  {
  }

  /** `createSoundWave(f, d)` behaves exactly as `createSoundWave([f], d)`. */
  lemma ScalarIsSingleton(f: real, duration: real, sampleRate: real, sin: real -> real)
    ensures SoundWave(Scalar(f), duration, sampleRate, sin) == SoundWave(Many([f]), duration, sampleRate, sin)
  {
  }

  /** `shiftPitch`: the random draw `shift` (from `np.random.uniform(-50, 50)`) added to `frequency`. */
  function ShiftPitch(frequency: real, shift: real): (r: real)
    requires -MaxDetune <= shift <= MaxDetune
    ensures frequency - MaxDetune <= r <= frequency + MaxDetune
    ensures r - frequency == shift
  {
    frequency + shift
  }

  /** Two seconds at 44100 Hz are 88200 samples. */
  lemma PlaybackSampleCount()
    ensures SampleCount(DefaultSampleRate, PlaybackSeconds) == 88200
  {
    assert (DefaultSampleRate * PlaybackSeconds).Floor == 88200;
  }

  /** The buffer `playSuperpositionSound` hands to the mixer. */
  function SuperpositionBuffer(frequencies: seq<real>, sin: real -> real): Result<seq<real>, SynthesisError>
  {
    SoundWave(Many(frequencies), PlaybackSeconds, DefaultSampleRate, sin)
  }

  /** The buffer `playSound` hands to the mixer. */
  function ToneBuffer(frequency: real, sin: real -> real): Result<seq<real>, SynthesisError>
  {
    SoundWave(Scalar(frequency), PlaybackSeconds, DefaultSampleRate, sin)
  }

  /**
   * Both playback entry points build a 2-second, 88200-sample buffer on the
   * 1/44100 s grid, and playing one tone is playing a one-tone superposition.
   */
  lemma PlaybackBuffers(frequencies: seq<real>, frequency: real, sin: real -> real)
    ensures SampleCount(DefaultSampleRate, PlaybackSeconds) == 88200
    ensures SuperpositionBuffer(frequencies, sin).Success? && |SuperpositionBuffer(frequencies, sin).value| == 88200
    ensures ToneBuffer(frequency, sin).Success? && |ToneBuffer(frequency, sin).value| == 88200
    ensures ToneBuffer(frequency, sin) == SuperpositionBuffer([frequency], sin)
    ensures forall k :: 0 <= k < 88200 ==> Linspace(PlaybackSeconds, 88200)[k] == k as real / DefaultSampleRate
  {
    assert (DefaultSampleRate * PlaybackSeconds).Floor == 88200;
    forall k | 0 <= k < 88200
      ensures Linspace(PlaybackSeconds, 88200)[k] == k as real / DefaultSampleRate
    {
      GridSpacing(DefaultSampleRate, PlaybackSeconds, 88200, k);
    }
  }
}

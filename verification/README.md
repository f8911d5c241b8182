# Superposition-Fourier-Audio, modelled in Dafny

The program demonstrates "quantum superposition" with sound. The user picks a
number of outcomes. The program then builds a ladder of tones (600 Hz, 650 Hz,
…) and plays them together. It animates each tone and their sum, shows the
windowed, zero-padded FFT spectrum with labelled peaks, and shows a
spectrogram. Pressing Enter "collapses" the state: it detunes the first tone by
a random amount in ±50 Hz, stops the audio, plays only that tone and switches
the equation text to the collapsed form.

This project models the discrete logic around that signal maths:

- `waves.dfy` (`Waves`): the `np.linspace(0, d, n, endpoint=False)` time grid.
  It also holds the sum of 0.5-amplitude sines that `createSoundWave`,
  `create_spectrogram` and `main` each build. That sum is accumulated in place
  in an `array`, one tone at a time, and proved equal to a specification
  function.
- `sound.dfy` (`Sound`): covers `soundModule.py`.
  - The sample count `int(sampleRate * duration)`, with Python's truncation.
  - A bare frequency is wrapped into a one-element list.
  - The 2-second playback buffers.
  - The bounded pitch shift.
- `fourier.py` is covered by `fourier.dfy` (`Fourier`):
  - the next-power-of-two padding, as exact integer arithmetic;
  - the Hann window and zero padding;
  - the `rfftfreq` bins;
  - the `2|X|/n` normalisation by the unpadded length;
  - the two-tier peak-label filter (height ≥ max/10, then label only if > max/5).
- `spectrogram.dfy` (`Spectrogram`): the spectrogram's time grid, the
  in-place signal accumulation and the `nperseg = min(1024, len)` guard.
- `main_program.dfy` (`MainProgram`): covers `mainProgram.py`.
  - The outcome clamp and the 600 + 50·i ladder.
  - The collapse state machine, as a class `Session` with the two shared
    cells and a ghost trace of mixer calls, plus a pure `Collapse` function
    for reasoning over several handler runs.
  - The equation text.
  - What one animation frame draws.
  - `main`'s start-up.
- `wrappers.dfy` (`Wrappers`): `Option` and `Result`.

Floating-point numerics are not modelled. `sin`, `cos` and the modulus of the
real FFT are function-valued parameters, and numbers are Dafny `real`s. The
random detune and the `.1f` rendering of a float are also parameters.

Points where the program's behaviour is easy to misread:

- There is no lower clamp on the outcome count.
- Each tone has a fixed amplitude of 0.5, not an amplitude normalised by the
  number of tones.
- The label test is a strict `>`.
- The sample count is `int()` truncation, not rounding.

## Model

| member | source | states |
|---|---|---|
| Waves.Linspace | soundModule.py:14 | The grid has exactly `num` points and the k-th is `k * (stop / num)`. |
| Waves.GridBounds | spectrogram.py:9 | The grid starts at 0, every point lies in `[0, stop)` (so `stop` itself is excluded), and consecutive points are `stop / num` apart. |
| Waves.GridSpacing | soundModule.py:14 | When `sampleRate * duration` samples are taken, point k is exactly `k / sampleRate`. |
| Waves.Tone | soundModule.py:25 | Definition of one term `0.5 sin(2π f t + phase)`; its sums are stated by `Waves.SumAppend` and `Waves.SumBound`. |
| Waves.Sum | spectrogram.py:13-14 | Definition of the list-order tone sum at one time; stated by `Waves.SumAppend`, `Waves.SilentWithoutTones` and `Waves.SumBound`. |
| Waves.Superposition | spectrogram.py:10-14 | The summed signal has one sample per grid point. |
| Waves.SumAppend | soundModule.py:24-25 | Each frequency contributes exactly its own term. The sum over a concatenated list is the sum of the two parts, so terms accumulate in list order. |
| Waves.SilentWithoutTones | spectrogram.py:10-14 | An empty frequency list leaves every sample at zero. |
| Waves.SumBound | soundModule.py:25 | With `|sin| ≤ 1`, n tones of amplitude 0.5 stay within ±n/2. For three or more tones this exceeds the [-1, 1] range of audio. |
| Waves.AddTone | soundModule.py:25 | Adding one tone in place adds `0.5 sin(2π f t[k])` to every sample and changes nothing else. |
| Waves.Accumulate | soundModule.py:24-25 | Looping over the frequencies adds, to each sample, the sum of all their tones. |
| Waves.Synthesize | soundModule.py:17-25 | A zeroed buffer, after accumulating every tone, is exactly the superposition on the grid. |
| Sound.Trunc | soundModule.py:14 | `int(x)` truncates toward zero. It is the floor for x ≥ 0 and the ceiling for x < 0. |
| Sound.AsList | soundModule.py:20-21 | Definition of the scalar-to-list wrapping; stated by `Sound.ScalarIsSingleton`. |
| Sound.SampleCount | soundModule.py:14 | Definition of `int(sampleRate * duration)`; stated by `Sound.Trunc`, `Sound.SoundWaveShape` and `Sound.PlaybackSampleCount`. |
| Sound.SoundWave | soundModule.py:12-28 | Definition of the buffer `createSoundWave` returns; stated by `Sound.SoundWaveShape` and `Sound.CreateSoundWave`. |
| Sound.CreateSoundWave | soundModule.py:12-28 | The method (grid, zero buffer, in-place accumulation) yields the buffer function `SoundWave`. A negative sample count is an error. |
| Sound.SoundWaveShape | soundModule.py:14-25 | The buffer exists iff `int(sampleRate*duration) ≥ 0`. It then has exactly that many samples, and sample k is the sum of one 0.5-amplitude sine per frequency at time `k*duration/n`. |
| Sound.ScalarIsSingleton | soundModule.py:20-21 | `createSoundWave(f, d)` equals `createSoundWave([f], d)`. |
| Sound.ShiftPitch | soundModule.py:60-63 | The result lies in `[f-50, f+50]` and differs from f by exactly the drawn shift. |
| Sound.PlaybackSampleCount | soundModule.py:33-34 | Two seconds at 44100 Hz give exactly 88200 samples. |
| Sound.SuperpositionBuffer | soundModule.py:33-34 | Definition of the buffer `playSuperpositionSound` plays; stated by `Sound.PlaybackBuffers`. |
| Sound.ToneBuffer | soundModule.py:46-47 | Definition of the buffer `playSound` plays; stated by `Sound.PlaybackBuffers`. |
| Sound.PlaybackBuffers | soundModule.py:32-47 | Both playback entry points build a 2-second buffer of 88200 samples on the 1/44100 s grid. Playing one tone is playing a one-tone superposition. |
| Fourier.Pow2 | fourier.py:17 | Powers of two are at least 1, and even above exponent 0. |
| Fourier.CeilLog2 | fourier.py:17 | `ceil(log2 n)` is the exponent e with `n ≤ 2^e < 2n`. |
| Fourier.PaddedLength | fourier.py:16-17 | The padded length is a power of two, at least `n_points` and below `2*n_points`. |
| Fourier.Pow2Monotone | fourier.py:17 | Powers of two grow with the exponent. |
| Fourier.PaddedLengthIsLeast | fourier.py:17 | No smaller power of two holds `n_points` samples. |
| Fourier.PaddedLengthExamples | fourier.py:16-17 | One sample pads to 1. `main`'s 88200 samples pad to 131072. |
| Fourier.Hanning | fourier.py:12 | The window has exactly as many points as the signal. |
| Fourier.Windowed | fourier.py:13 | The windowed signal has the signal's length and is the elementwise product. |
| Fourier.ZeroPad | fourier.py:20 | Padding keeps the signal as a prefix and fills the rest, up to the padded length, with zeros. |
| Fourier.RfftFreq | fourier.py:19 | There are `p/2 + 1` frequency bins. |
| Fourier.Magnitudes | fourier.py:21 | Each magnitude is non-negative, and times the unpadded `n` it is `2|X[k]|`. |
| Fourier.PaddedInput | fourier.py:12-20 | The FFT input has the padded length. |
| Fourier.ComputeFFT | fourier.py:7-23 | An empty signal fails (`log2(0)` gives `int(-inf)`). A zero sample rate fails (`1/0`). Otherwise there is a spectrum. |
| Fourier.SpectrumOf | fourier.py:16-23 | Definition of the `(freqs, fftMagnitudes)` pair; stated by `Fourier.SpectrumShape`. |
| Fourier.RfftFreqBins | fourier.py:19 | Bin k is `k * sampleRate / p`, and the bins strictly increase for a positive rate. |
| Fourier.SpectrumShape | fourier.py:16-21 | A valid call returns the spectrum pair. Frequencies and magnitudes both have `p/2 + 1` entries, the frequencies are the `rfftfreq` of the padded length, and each magnitude is non-negative and normalised by the unpadded length. |
| Fourier.PaddedInputShape | fourier.py:12-20 | The window length equals the signal length. The FFT input is the windowed signal followed by zeros. |
| Fourier.Max | fourier.py:50 | `np.max` is an upper bound attained by some entry. |
| Fourier.AtLeast | fourier.py:50 | The kept candidates are exactly the given maxima with magnitude ≥ the height bar. |
| Fourier.Above | fourier.py:54 | The kept indices are exactly the candidates with magnitude strictly above the bar. |
| Fourier.PeakLabels | fourier.py:50-54 | An index is labelled iff it is a local maximum with magnitude ≥ max/10 and > max/5. |
| Fourier.HeightBar | fourier.py:50 | Definition of `max/10`; stated by `Fourier.PeakLabels` and `Fourier.LabelsOfNonNegativeSpectrum`. |
| Fourier.LabelBar | fourier.py:54 | Definition of `max/5`; stated by `Fourier.PeakLabels`, `Fourier.LabelsOfNonNegativeSpectrum` and `Fourier.FlatSpectrumHasNoLabels`. |
| Fourier.AtLeastKeepsOrder | fourier.py:50-51 | Filtering by height keeps the candidates in increasing index order. |
| Fourier.AboveKeepsOrder | fourier.py:51-54 | Filtering by label bar keeps increasing index order. |
| Fourier.LabelsKeepOrder | fourier.py:51-54 | Labels come out in increasing index (frequency) order. |
| Fourier.HeightTierIsSubsumed | fourier.py:50-54 | With a height bar at or below the label bar, the height filter adds nothing to the label filter. |
| Fourier.LabelsOfNonNegativeSpectrum | fourier.py:50-54 | For a non-negative maximum, the labels are exactly the maxima strictly above max/5. |
| Fourier.NothingAbove | fourier.py:54 | If no magnitude exceeds the bar, nothing is labelled. |
| Fourier.FlatSpectrumHasNoLabels | fourier.py:50-54 | An all-zero spectrum gets no labels, because of the strict `>`. |
| Spectrogram.SegmentLength | spectrogram.py:17 | `nperseg` never exceeds the signal length or 1024, and is one of the two. |
| Spectrogram.CreateSpectrogram | spectrogram.py:7-17 | The grid is the `num_points` linspace on `[0, duration)`. The signal is the superposition accumulated in place on it. `nperseg` is `min(1024, len)`. |
| Spectrogram.SpectrogramSizes | spectrogram.py:7-17 | Grid and signal both have `num_points` samples. `nperseg ≤ len` and `≤ 1024`, it equals 1024 once there are at least 1024 points, and the default 2048 points give 1024. |
| MainProgram.ClampOutcomes | mainProgram.py:123-125 | A count above 10 becomes exactly 10. A count of at most 10 is unchanged, since there is no lower clamp. |
| MainProgram.Ladder | mainProgram.py:130 | The ladder has `count` tones, or none when `count ≤ 0`. |
| MainProgram.LadderShape | mainProgram.py:129-130 | Tone i is `600 + 50*i`. Tones are positive and strictly increasing in steps of exactly 50. |
| MainProgram.Configure | mainProgram.py:117-130 | Without a count there is no tone list. Otherwise the list has the clamped length (0 for counts ≤ 0, at most 10) and tone i is `600 + 50*i`. |
| MainProgram.AsReals | mainProgram.py:135 | The integer tones are passed on unchanged, in order. |
| MainProgram.Collapse | mainProgram.py:198-204 | An already collapsed state is returned unchanged, and the audio trace only grows. Further stated by `FirstCollapse`, `CollapseIdempotent` and `CollapseKeepsConsistent`. |
| MainProgram.Run | mainProgram.py:198-206 | The bound handlers run one after another: a collapsed state stays unchanged, and the trace only grows. Further stated by `RunCollapsesOnce` and `AtMostOnePlay`. |
| MainProgram.CollapseKeepsConsistent | mainProgram.py:198-204 | The initial state is consistent, and every collapse keeps it so. "Consistent" means collapsed iff a frequency is resolved, no mixer call from a collapse recorded while superposed, and once collapsed the frequency is within ±50 Hz of the first tone and the trace is exactly stop, play. |
| MainProgram.FirstCollapse | mainProgram.py:199-203 | The first collapse of a non-empty list resolves to `frequencies[0] + shift`, in `[f0-50, f0+50]`. It marks the state collapsed and appends exactly stop, then play of that frequency. |
| MainProgram.CollapseIdempotent | mainProgram.py:199 | A second collapse changes nothing, whatever its draw. |
| MainProgram.RunCollapsesOnce | mainProgram.py:198-206 | Any number of handler runs gives the same result as the first alone. |
| MainProgram.AtMostOnePlay | mainProgram.py:198-204 | From the initial state, any run of handlers leaves a consistent state with at most the stop/play pair in the trace. |
| MainProgram.NatToString | mainProgram.py:78 | A rendered frequency is a non-empty string of decimal digits. |
| MainProgram.NatToStringRoundTrip | mainProgram.py:78 | The digits read back as the number. |
| MainProgram.IntToString | mainProgram.py:78 | `str(f)` is made of a minus sign and decimal digits only, so it contains no `+`. |
| MainProgram.TermText | mainProgram.py:78 | Definition of `0.5 sin(2π {f} t)`; stated by `MainProgram.TermHasNoPlus` and `MainProgram.JoinTermsCount`. |
| MainProgram.TermHasNoPlus | mainProgram.py:78 | A single term contains no `+`, so the only `+` signs in the joined text are separators. |
| MainProgram.JoinTerms | mainProgram.py:187 | Definition of `" + ".join`; stated by `MainProgram.JoinTermsCount` and `MainProgram.JoinTermsAppend`. |
| MainProgram.CollapsedText | mainProgram.py:185 | Definition of the collapsed equation text; stated by `MainProgram.EquationShowsState`. |
| MainProgram.SuperpositionText | mainProgram.py:188 | Definition of the superposition equation text; stated by `MainProgram.EquationShowsState`. |
| MainProgram.ShowsCollapsed | mainProgram.py:184 | Definition of the branch test `isCollapsed[0] and collapsedFrequency[0] is not None`; stated by `MainProgram.EquationShowsState` and `MainProgram.AnimationFrameAgrees`. |
| MainProgram.EquationLabel | mainProgram.py:183-188 | Definition of the `updateEquations` text; stated by `MainProgram.EquationShowsState` and `MainProgram.Session.EquationText`. |
| MainProgram.EquationShowsState | mainProgram.py:183-188 | The label starts with "Collapsed: " iff the state is collapsed with a resolved frequency. Otherwise it is "Superposition: ψ(t) = " followed by the joined terms. |
| MainProgram.JoinTermsCount | mainProgram.py:187 | The superposition text has one term per frequency. Its `+` signs are exactly the `len - 1` separators, and it opens with the first tone's term. |
| MainProgram.JoinTermsAppend | mainProgram.py:187 | Terms appear in list order, each appended tone after a `" + "`. |
| MainProgram.DisplayTimes | mainProgram.py:23-26 | A frame shows the first 2000 grid points. |
| MainProgram.ToneLine | mainProgram.py:68 | An animated wave has one sample per displayed time. |
| MainProgram.ToneLines | mainProgram.py:68 | There is one animated line per frequency, in order. |
| MainProgram.ColumnSum | mainProgram.py:75 | `np.sum(axis=0)` has one entry per displayed time. |
| MainProgram.SumLineIsSuperposition | mainProgram.py:68-76 | The plotted sum of the wave lines is the superposition of the tones at the frame's phase. |
| MainProgram.AnimationFrame | mainProgram.py:57-82 | The frame takes the collapsed branch iff the state shows collapsed, and its sum line has one sample per displayed time. Further stated by `AnimationFrameAgrees` and `FrameOnDisplay`. |
| MainProgram.AnimationFrameAgrees | mainProgram.py:57-82 | A frame takes the collapsed branch exactly when the equation label does, and its canvas text is that label. A superposed frame draws one line per tone plus their superposition. A collapsed frame draws the resolved tone alone. |
| MainProgram.FrameOnDisplay | mainProgram.py:23-26 | On the grid `visualizeWaves` draws, the sum line has 2000 samples, and displayed sample k is at `k / 44100` s. |
| MainProgram.Session.constructor | mainProgram.py:131-132 | A new session holds the tone list, is not collapsed, has no resolved frequency and has made no audio calls. |
| MainProgram.Session.CollapseState | mainProgram.py:198-204 | If already collapsed, nothing changes. With an empty list it fails before any assignment. Otherwise it resolves to `frequencies[0] + shift`, sets the flag, and appends stop then play. The new state is `Collapse` of the old, and the invariant holds. |
| MainProgram.Session.PressReturn | mainProgram.py:198-206 | One Enter reaching both bound handlers has the effect of the first alone. |
| MainProgram.Session.EquationText | mainProgram.py:183-188 | The collapsed text is shown iff collapsed with a resolved frequency. In a valid session that is iff collapsed. |
| MainProgram.Start | mainProgram.py:117-172 | Without a count, nothing is built. Otherwise a fresh, superposed session holds the configured ladder. The summed wave handed to the spectrum plot has 88200 samples (`int(sampleRate * duration)`), and it is exactly the buffer `playSuperpositionSound` builds for the same tones. |

## Left out

- The Tk windows, matplotlib figures, `FuncAnimation`, axis limits, subplot labels, `updateEquationLabel`, the Stop and Save buttons, `plotFFTStandalone`, and the drawing of spectrum annotations and the spectrogram image. All of this is presentation.
- `uiModule.py` and `mathModule.py`: pure user-interface code, not part of this model.
- The numeric values of `sin`, `cos`, `np.hanning`'s cosine, `rfft` and `log10`. These are floating-point library numerics, so they are parameters here. Float rounding and NaN are not modelled.
- The internals of `scipy.signal.find_peaks` (plateaus, edges) and `scipy.signal.spectrogram` (segments, overlap, power). The local maxima are an input, and the spectrogram's `sample_rate` only feeds scipy, so it is dropped.
- The pygame mixer (`make_sound`, `play(-1)`, `stopSound`). Mixer calls a collapse makes are recorded as ghost `AudioEvent`s.
- The superposition playback that `main` starts on a thread (mainProgram.py:134-137). It is concurrent with the GUI, and its order relative to a collapse is not determined, so it is not in the trace.
- The int16 PCM cast of `createSoundWave`. The buffer is the real-valued sum before scaling by 32767. For three or more tones, `Waves.SumBound`'s bound exceeds 1, so the sum is not kept within the range the cast assumes.
- `np.random.uniform`: the draw is a parameter.
- MainProgram.Session.CollapseState: requires the closed interval [-50, 50] for the draw, although `np.random.uniform(-50, 50)` is half-open and never yields 50.
- The `.1f` float formatting: it is a parameter `fmt`. Integer tones are rendered exactly.
- The `print` messages, and `main`'s `except ValueError` clause. The count arrives as an `Option<int>`.
- MainProgram.Start: returns a session and a summed wave for every count, where `main` raises for a count ≤ 0. The tone list is then empty, `plt.subplots(1, 1)` (mainProgram.py:29) returns a single Axes, and indexing it with `ax[numWaves]` (mainProgram.py:45, reached from line 167) raises `TypeError` before the collapse handler is ever bound. The model instead exposes the empty-list collapse as `EmptyToneSet`.
- Spectrogram.CreateSpectrogram: `num_points` is a `nat`, so a negative point count (which `np.linspace` rejects) is not modelled.
- Keyboard focus and Tk's dispatch order. mainProgram.py:100 binds `<Return>` on the left frame (the `root` parameter of `visualizeWaves`, passed at line 163), and mainProgram.py:206 binds it on the Tk root. One Enter reaches both handlers only while the left frame holds the focus; otherwise only the line-206 handler runs. `Run` covers both cases (one draw or two), and `Session.PressReturn` is the two-handler case, with the draws in dispatch order.

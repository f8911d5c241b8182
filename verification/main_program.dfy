/**
 * mainProgram.py: the outcome-count clamp and the tone ladder built by
 * `main`, the collapse state machine driven by the `<Return>` handlers, the
 * equation text derived from that state, and what one animation frame of
 * `visualizeWaves` shows. Tk and matplotlib calls are not modelled; the
 * audio calls a collapse makes are recorded in a ghost trace.
 */
module MainProgram {
  import opened Wrappers
  import opened Waves
  import opened Sound

  /** At most this many outcomes (tones) are kept. */
  const MaxOutcomes: int := 10

  /** `baseFrequency`, in Hz. */
  const BaseFrequency: int := 600

  /** Spacing between consecutive tones, in Hz. */
  const FrequencyStep: int := 50

  /** Samples of the grid `main` and `visualizeWaves` build: `int(sampleRate * duration)` for 2 s at 44100 Hz. */
  const GridSamples: int := SampleCount(DefaultSampleRate, PlaybackSeconds)

  /** `display_points`: how many leading samples an animation frame shows. */
  const DisplayPoints: nat := 2000

  // ---------------------------------------------------------------- configuration

  /** `if numOutcomes > 10: numOutcomes = 10`; there is no lower clamp. */
  function ClampOutcomes(n: int): (r: int)
    ensures r <= MaxOutcomes
    ensures n <= MaxOutcomes ==> r == n
    ensures n > MaxOutcomes ==> r == MaxOutcomes
  {
    if n > MaxOutcomes then MaxOutcomes else n
  }

  /** `[baseFrequency + i * 50 for i in range(count)]`; a count of 0 or less gives `[]`. */
  function Ladder(count: int): (fs: seq<int>)
    ensures |fs| == if count > 0 then count else 0
  {
    seq(if count > 0 then count else 0, i => BaseFrequency + FrequencyStep * i)
  }

  /** The ladder starts at 600 Hz, climbs in steps of exactly 50 Hz, and every tone is positive. */
  lemma LadderShape(count: int)
    ensures forall i :: 0 <= i < |Ladder(count)| ==> Ladder(count)[i] == 600 + 50 * i && Ladder(count)[i] > 0
    ensures forall i :: 0 <= i < |Ladder(count)| - 1 ==> Ladder(count)[i + 1] - Ladder(count)[i] == 50
    ensures forall i, j :: 0 <= i < j < |Ladder(count)| ==> Ladder(count)[i] < Ladder(count)[j]
  {
  }

  /**
   * The tone list `main` builds from the entry form's count: none at all
   * when it is called without one, otherwise the ladder of the clamped count.
   */
  function Configure(numOutcomes: Option<int>): (r: Option<seq<int>>)
    ensures numOutcomes.None? <==> r.None?
    ensures numOutcomes.Some? ==>
              var n := numOutcomes.value;
              && |r.value| == (if n > MaxOutcomes then MaxOutcomes else if n > 0 then n else 0)
              && |r.value| <= MaxOutcomes
              && forall i :: 0 <= i < |r.value| ==> r.value[i] == BaseFrequency + FrequencyStep * i
  {
    match numOutcomes
    case None => None
    case Some(n) => Some(Ladder(ClampOutcomes(n)))
  }

  /** The integer tones as the reals the synthesis works on. */
  function AsReals(fs: seq<int>): (rs: seq<real>)
    ensures |rs| == |fs|
    ensures forall i :: 0 <= i < |fs| ==> rs[i] == fs[i] as real
  {
    seq(|fs|, i requires 0 <= i < |fs| => fs[i] as real)
  }

  // ---------------------------------------------------------------- collapse state machine

  /** The mixer calls a collapse makes: `stopSound()` and `playSound(f)`. */
  datatype AudioEvent = Stop | Play(frequency: real)

  /** `isCollapsed[0]`, `collapsedFrequency[0]`, and the audio calls made so far. */
  datatype State = State(isCollapsed: bool, collapsedFrequency: Option<real>, audio: seq<AudioEvent>)

  /** `collapsedFrequency = [None]`, `isCollapsed = [False]`, nothing played yet. */
  const Initial: State := State(false, None, [])

  /**
   * The states a session can be in: superposed, with no mixer call from a
   * collapse recorded, or collapsed near the first tone after stop-then-play.
   */
  predicate Consistent(fs: seq<int>, s: State)
  {
    && (s.isCollapsed <==> s.collapsedFrequency.Some?)
    && (!s.isCollapsed ==> s.audio == [])
    && (s.isCollapsed ==>
          && |fs| > 0
          && fs[0] as real - MaxDetune <= s.collapsedFrequency.value <= fs[0] as real + MaxDetune
          && s.audio == [Stop, Play(s.collapsedFrequency.value)])
  }

  /**
   * `collapseState`: only when not yet collapsed, resolve to the detuned
   * first tone, mark the state collapsed, then stop and play. An empty tone
   * list makes `frequencies[0]` raise before anything is assigned.
   */
  function Collapse(fs: seq<int>, s: State, shift: real): (r: State)
    requires -MaxDetune <= shift <= MaxDetune
    ensures s.isCollapsed ==> r == s
    ensures |s.audio| <= |r.audio| && r.audio[..|s.audio|] == s.audio
  {
    if s.isCollapsed || |fs| == 0 then s
    else
      var f := ShiftPitch(fs[0] as real, shift);
      State(true, Some(f), s.audio + [Stop, Play(f)])
  }

  /** The start state is consistent, and every collapse keeps a state consistent. */
  lemma CollapseKeepsConsistent(fs: seq<int>, s: State, shift: real)
    requires -MaxDetune <= shift <= MaxDetune
    requires Consistent(fs, s)
    ensures Consistent(fs, Initial)
    ensures Consistent(fs, Collapse(fs, s, shift))
  {
  }

  /**
   * The first collapse of a non-empty tone list resolves to `frequencies[0] + shift`
   * (within 50 Hz of it), marks the state collapsed and appends exactly stop,
   * then play of the resolved frequency, to the audio trace.
   */
  lemma FirstCollapse(fs: seq<int>, s: State, shift: real)
    requires -MaxDetune <= shift <= MaxDetune
    requires !s.isCollapsed && |fs| > 0
    ensures var r := Collapse(fs, s, shift);
            && r.isCollapsed
            && r.collapsedFrequency == Some(fs[0] as real + shift)
            && fs[0] as real - MaxDetune <= r.collapsedFrequency.value <= fs[0] as real + MaxDetune
            && r.audio == s.audio + [Stop, Play(fs[0] as real + shift)]
  {
  }

  /** A second collapse changes nothing, whatever its random draw. */
  lemma CollapseIdempotent(fs: seq<int>, s: State, a: real, b: real)
    requires -MaxDetune <= a <= MaxDetune && -MaxDetune <= b <= MaxDetune
    ensures Collapse(fs, Collapse(fs, s, a), b) == Collapse(fs, s, a)
  {
  }

  /** Every draw lies in the detune range. */
  predicate Draws(shifts: seq<real>)
  {
    forall i :: 0 <= i < |shifts| ==> -MaxDetune <= shifts[i] <= MaxDetune
  }

  /** The handlers fired one after another, each with its own random draw. */
  function Run(fs: seq<int>, s: State, shifts: seq<real>): (r: State)
    requires Draws(shifts)
    ensures s.isCollapsed ==> r == s
    ensures |s.audio| <= |r.audio| && r.audio[..|s.audio|] == s.audio
    decreases |shifts|
  {
    if shifts == [] then s else Run(fs, Collapse(fs, s, shifts[0]), shifts[1..])
  }

  /** However many `<Return>` handlers run, the outcome is that of the first one. */
  lemma {:induction false} RunCollapsesOnce(fs: seq<int>, s: State, shifts: seq<real>)
    requires Draws(shifts)
    ensures Run(fs, s, shifts) == if shifts == [] then s else Collapse(fs, s, shifts[0])
    decreases |shifts|
  {
    if shifts != [] {
      var s1 := Collapse(fs, s, shifts[0]);
      RunCollapsesOnce(fs, s1, shifts[1..]);
      if shifts[1..] != [] {
        CollapseIdempotent(fs, s, shifts[0], shifts[1]);
      }
    }
  }

  /** Starting from the initial state, no run of handlers ever plays more than one resolved tone. */
  lemma AtMostOnePlay(fs: seq<int>, shifts: seq<real>)
    requires Draws(shifts)
    ensures Consistent(fs, Run(fs, Initial, shifts))
    ensures |Run(fs, Initial, shifts).audio| <= 2
  {
    RunCollapsesOnce(fs, Initial, shifts);
    if shifts != [] {
      CollapseKeepsConsistent(fs, Initial, shifts[0]);
    }
  }

  /** What `collapseState` did: resolved, nothing (already collapsed), or raised on an empty list. */
  datatype Outcome = Resolved(frequency: real) | AlreadyCollapsed | EmptyToneSet

  // ---------------------------------------------------------------- equation text

  /** The ASCII digit for `d`. */
  function DigitChar(d: int): (c: char)
    requires 0 <= d < 10
    ensures '0' <= c <= '9' && c as int - '0' as int == d
  {
    ('0' as int + d) as char
  }

  /** `str(n)` for a non-negative int: its decimal digits, most significant first. */
  function NatToString(n: nat): (s: string)
    ensures |s| >= 1
    ensures forall i :: 0 <= i < |s| ==> '0' <= s[i] <= '9'
    decreases n
  {
    if n < 10 then [DigitChar(n)] else NatToString(n / 10) + [DigitChar(n % 10)]
  }

  /** The value of a string of decimal digits. */
  function ParseDigits(s: string): nat
    requires forall i :: 0 <= i < |s| ==> '0' <= s[i] <= '9'
    decreases |s|
  {
    if s == [] then 0 else 10 * ParseDigits(s[..|s| - 1]) + (s[|s| - 1] as int - '0' as int)
  }

  /** The rendering of a frequency reads back as that frequency. */
  lemma {:induction false} NatToStringRoundTrip(n: nat)
    ensures ParseDigits(NatToString(n)) == n
    decreases n
  {
    if n >= 10 {
      NatToStringRoundTrip(n / 10);
      var s := NatToString(n);
      assert s[..|s| - 1] == NatToString(n / 10);
    }
  }

  /** `str(i)` for any int: a minus sign for negatives, then the digits. */
  function IntToString(i: int): (s: string)
    ensures forall k :: 0 <= k < |s| ==> s[k] == '-' || '0' <= s[k] <= '9'
  {
    if i < 0 then "-" + NatToString(-i) else NatToString(i)
  }

  /** The text around the frequency in one term. */
  const TermOpen: string := "0.5 sin(2π "
  const TermClose: string := " t)"

  /** What `" + ".join` puts between terms. */
  const Separator: string := " + "

  /** `f"0.5 sin(2π {f} t)"`. */
  function TermText(f: int): string
  {
    TermOpen + IntToString(f) + TermClose
  }

  /** `" + ".join(terms)`. */
  function JoinTerms(fs: seq<int>): string
    decreases |fs|
  {
    if fs == [] then ""
    else if |fs| == 1 then TermText(fs[0])
    else TermText(fs[0]) + Separator + JoinTerms(fs[1..])
  }

  /** `f"Collapsed: ψ(t) = 0.5 sin(2π {f:.1f} t)"`, with `rendered` the `.1f` rendering. */
  function CollapsedText(rendered: string): string
  {
    "Collapsed: ψ(t) = 0.5 sin(2π " + rendered + " t)"
  }

  /** `f"Superposition: ψ(t) = {terms}"`. */
  function SuperpositionText(fs: seq<int>): string
  {
    "Superposition: ψ(t) = " + JoinTerms(fs)
  }

  /** The branch test of `update` and `updateEquations`. */
  predicate ShowsCollapsed(isCollapsed: bool, collapsedFrequency: Option<real>)
  {
    isCollapsed && collapsedFrequency.Some?
  }

  /** The text `updateEquations` puts on the equation label; `fmt` renders a float with one decimal. */
  function EquationLabel(isCollapsed: bool, collapsedFrequency: Option<real>, fs: seq<int>, fmt: real -> string): string
  {
    if ShowsCollapsed(isCollapsed, collapsedFrequency) then CollapsedText(fmt(collapsedFrequency.value))
    else SuperpositionText(fs)
  }

  predicate StartsWith(s: string, prefix: string)
  {
    |prefix| <= |s| && s[..|prefix|] == prefix
  }

  /** The collapsed form is shown exactly when the state is collapsed with a resolved frequency. */
  lemma EquationShowsState(isCollapsed: bool, collapsedFrequency: Option<real>, fs: seq<int>, fmt: real -> string)
    ensures StartsWith(EquationLabel(isCollapsed, collapsedFrequency, fs, fmt), "Collapsed: ")
            <==> ShowsCollapsed(isCollapsed, collapsedFrequency)
    ensures !ShowsCollapsed(isCollapsed, collapsedFrequency) ==>
              EquationLabel(isCollapsed, collapsedFrequency, fs, fmt) == "Superposition: ψ(t) = " + JoinTerms(fs)
  {
    var text := EquationLabel(isCollapsed, collapsedFrequency, fs, fmt);
    if !ShowsCollapsed(isCollapsed, collapsedFrequency) {
      assert text[0] == 'S';
    }
  }

  /** How often `c` occurs in `s`. */
  function Count(c: char, s: string): nat
    decreases |s|
  {
    if s == [] then 0 else (if s[0] == c then 1 else 0) + Count(c, s[1..])
  }

  lemma {:induction false} CountAppend(c: char, a: string, b: string)
    ensures Count(c, a + b) == Count(c, a) + Count(c, b)
    decreases |a|
  {
    if a == [] {
      assert a + b == b;
    } else {
      assert (a + b)[0] == a[0];
      assert (a + b)[1..] == a[1..] + b;
      CountAppend(c, a[1..], b);
    }
  }

  lemma {:induction false} CountAbsent(c: char, s: string)
    requires forall i :: 0 <= i < |s| ==> s[i] != c
    ensures Count(c, s) == 0
    decreases |s|
  {
    if s != [] {
      CountAbsent(c, s[1..]);
    }
  }

  lemma TermHasNoPlus(f: int)
    ensures Count('+', TermText(f)) == 0
  {
    var r := IntToString(f);
    CountAbsent('+', TermOpen);
    CountAbsent('+', r);
    CountAbsent('+', TermClose);
    CountAppend('+', TermOpen, r);
    CountAppend('+', TermOpen + r, TermClose);
  }

  /**
   * The superposition text has one term per frequency: its `+` signs are
   * exactly the `|fs| - 1` separators, and it opens with the first tone's term.
   */
  lemma {:induction false} JoinTermsCount(fs: seq<int>)
    ensures fs == [] ==> JoinTerms(fs) == ""
    ensures fs != [] ==> Count('+', JoinTerms(fs)) == |fs| - 1
    ensures fs != [] ==> StartsWith(JoinTerms(fs), TermText(fs[0]))
    decreases |fs|
  {
    if |fs| == 1 {
      TermHasNoPlus(fs[0]);
    } else if |fs| > 1 {
      JoinTermsCount(fs[1..]);
      TermHasNoPlus(fs[0]);
      var t := TermText(fs[0]);
      assert Count('+', Separator) == 1;
      CountAppend('+', t, Separator);
      CountAppend('+', t + Separator, JoinTerms(fs[1..]));
      assert (t + Separator + JoinTerms(fs[1..]))[..|t|] == t;
    }
  }

  /** Terms are joined in list order: appending a tone appends its term after a separator. */
  lemma {:induction false} JoinTermsAppend(fs: seq<int>, f: int)
    requires fs != []
    ensures JoinTerms(fs + [f]) == JoinTerms(fs) + Separator + TermText(f)
    decreases |fs|
  {
    var g := fs + [f];
    assert g[0] == fs[0];
    if |fs| == 1 {
      assert g[1..] == [f];
    } else {
      assert g[1..] == fs[1..] + [f];
      JoinTermsAppend(fs[1..], f);
      calc {
        JoinTerms(g);
        TermText(fs[0]) + Separator + JoinTerms(fs[1..] + [f]);
        TermText(fs[0]) + Separator + (JoinTerms(fs[1..]) + Separator + TermText(f));
        (TermText(fs[0]) + Separator + JoinTerms(fs[1..])) + Separator + TermText(f);
      }
    }
  }

  // ---------------------------------------------------------------- animation frame

  /** `t[:display_points]` for the 2-second, 88200-sample grid. */
  function DisplayTimes(): (t: seq<real>)
    ensures |t| == DisplayPoints
  {
    PlaybackSampleCount();
    Linspace(PlaybackSeconds, GridSamples)[..DisplayPoints]
  }

  /** One plotted wave: `0.5 * np.sin(2 * np.pi * f * t_display + phase)`. */
  function ToneLine(sin: real -> real, f: real, t: seq<real>, phase: real): (line: seq<real>)
    ensures |line| == |t|
  {
    seq(|t|, k requires 0 <= k < |t| => Tone(sin, f, t[k], phase))
  }

  /** The list `waves`, one line per frequency. */
  function ToneLines(sin: real -> real, fs: seq<real>, t: seq<real>, phase: real): (lines: seq<seq<real>>)
    ensures |lines| == |fs|
    ensures forall i :: 0 <= i < |fs| ==> lines[i] == ToneLine(sin, fs[i], t, phase)
  {
    seq(|fs|, i requires 0 <= i < |fs| => ToneLine(sin, fs[i], t, phase))
  }

  /** Column `k` of `np.sum(waves, axis=0)`. */
  function ColumnAt(lines: seq<seq<real>>, k: nat): real
    requires forall i :: 0 <= i < |lines| ==> k < |lines[i]|
    decreases |lines|
  {
    if lines == [] then 0.0 else ColumnAt(lines[..|lines| - 1], k) + lines[|lines| - 1][k]
  }

  /** `np.sum(waves, axis=0)` for `n`-sample lines. */
  function ColumnSum(lines: seq<seq<real>>, n: nat): (sum: seq<real>)
    requires forall i :: 0 <= i < |lines| ==> |lines[i]| == n
    ensures |sum| == n
  {
    seq(n, k requires 0 <= k < n => ColumnAt(lines, k))
  }

  lemma {:induction false} ColumnAtTones(sin: real -> real, fs: seq<real>, t: seq<real>, phase: real, k: nat)
    requires k < |t|
    ensures ColumnAt(ToneLines(sin, fs, t, phase), k) == Sum(sin, fs, t[k], phase)
    decreases |fs|
  {
    if fs != [] {
      var lines := ToneLines(sin, fs, t, phase);
      var prefix := fs[..|fs| - 1];
      assert lines[..|lines| - 1] == ToneLines(sin, prefix, t, phase);
      ColumnAtTones(sin, prefix, t, phase, k);
    }
  }

  /** The plotted sum of the individual wave lines is the superposition of the tones. */
  lemma SumLineIsSuperposition(sin: real -> real, fs: seq<real>, t: seq<real>, phase: real)
    ensures ColumnSum(ToneLines(sin, fs, t, phase), |t|) == Superposition(sin, fs, t, phase)
  {
    forall k | 0 <= k < |t|
      ensures ColumnSum(ToneLines(sin, fs, t, phase), |t|)[k] == Superposition(sin, fs, t, phase)[k]
    {
      ColumnAtTones(sin, fs, t, phase, k);
    }
  }

  /** What `update(frame)` draws. */
  datatype FrameView =
    | CollapsedFrame(sumLine: seq<real>, axisText: string, canvasText: string)
    | SuperposedFrame(waveLines: seq<seq<real>>, sumLine: seq<real>, axisText: string, canvasText: string)

  /** `update(frame)` in `visualizeWaves`: the phase advances by `frame / 10`. */
  function AnimationFrame(fs: seq<int>, isCollapsed: bool, collapsedFrequency: Option<real>,
                          t: seq<real>, frame: int, sin: real -> real, fmt: real -> string): (v: FrameView)
    ensures v.CollapsedFrame? <==> ShowsCollapsed(isCollapsed, collapsedFrequency)
    ensures |v.sumLine| == |t|
  {
    var phase := frame as real / 10.0;
    if ShowsCollapsed(isCollapsed, collapsedFrequency) then
      var text := CollapsedText(fmt(collapsedFrequency.value));
      CollapsedFrame(ToneLine(sin, collapsedFrequency.value, t, phase), text, text)
    else
      var waves := ToneLines(sin, AsReals(fs), t, phase);
      SuperposedFrame(waves, ColumnSum(waves, |t|), "ψ(t) = " + JoinTerms(fs), SuperpositionText(fs))
  }

  /**
   * A frame takes the collapsed branch exactly when the equation label does;
   * its canvas text is that label; a superposed frame draws one line per tone
   * and their sum, a collapsed one the single resolved tone.
   */
  lemma AnimationFrameAgrees(fs: seq<int>, isCollapsed: bool, collapsedFrequency: Option<real>,
                             t: seq<real>, frame: int, sin: real -> real, fmt: real -> string)
    ensures var v := AnimationFrame(fs, isCollapsed, collapsedFrequency, t, frame, sin, fmt);
            var phase := frame as real / 10.0;
            && (v.CollapsedFrame? <==> ShowsCollapsed(isCollapsed, collapsedFrequency))
            && v.canvasText == EquationLabel(isCollapsed, collapsedFrequency, fs, fmt)
            && (v.CollapsedFrame? ==> v.sumLine == Superposition(sin, [collapsedFrequency.value], t, phase))
            && (v.SuperposedFrame? ==>
                  && |v.waveLines| == |fs|
                  && v.sumLine == Superposition(sin, AsReals(fs), t, phase))
  {
    var phase := frame as real / 10.0;
    if ShowsCollapsed(isCollapsed, collapsedFrequency) {
      var f := collapsedFrequency.value;
      assert ToneLine(sin, f, t, phase) == Superposition(sin, [f], t, phase) by {
        forall k | 0 <= k < |t|
          ensures ToneLine(sin, f, t, phase)[k] == Superposition(sin, [f], t, phase)[k]
        {
          assert [f][..0] == [];
          assert Sum(sin, [f], t[k], phase) == Sum(sin, [], t[k], phase) + Tone(sin, f, t[k], phase);
        }
      }
    } else {
      SumLineIsSuperposition(sin, AsReals(fs), t, phase);
    }
  }

  /**
   * On the grid `visualizeWaves` actually draws, a frame's sum line has 2000
   * samples, and displayed sample k sits at time `k / 44100` s.
   */
  lemma FrameOnDisplay(fs: seq<int>, isCollapsed: bool, collapsedFrequency: Option<real>,
                       frame: int, sin: real -> real, fmt: real -> string)
    ensures |AnimationFrame(fs, isCollapsed, collapsedFrequency, DisplayTimes(), frame, sin, fmt).sumLine| == DisplayPoints
    ensures forall k :: 0 <= k < DisplayPoints ==> DisplayTimes()[k] == k as real / DefaultSampleRate
  {
    PlaybackSampleCount();
    PlaybackBuffers([], 0.0, sin);
    forall k | 0 <= k < DisplayPoints
      ensures DisplayTimes()[k] == k as real / DefaultSampleRate
    {
      assert DisplayTimes()[k] == Linspace(PlaybackSeconds, 88200)[k];
    }
  }

  // ---------------------------------------------------------------- the session

  /** The state `main` shares with its handlers: the two one-element lists, and the mixer calls made. */
  class Session {
    const frequencies: seq<int>
    var isCollapsed: bool
    var collapsedFrequency: Option<real>
    ghost var audio: seq<AudioEvent>

    ghost function Snapshot(): State
      reads this
    {
      State(isCollapsed, collapsedFrequency, audio)
    }

    ghost predicate Valid()
      reads this
    {
      Consistent(frequencies, Snapshot())
    }

    constructor (frequencies: seq<int>)
      ensures this.frequencies == frequencies
      ensures Valid() && Snapshot() == Initial
    {
      this.frequencies := frequencies;
      isCollapsed := false;
      collapsedFrequency := None;
      audio := [];
    }

    /** `collapseState(event)`, with `shift` the draw `shiftPitch` takes from the random source. */
    method CollapseState(shift: real) returns (outcome: Outcome)
      requires Valid() && -MaxDetune <= shift <= MaxDetune
      modifies this
      ensures Valid()
      ensures Snapshot() == Collapse(frequencies, old(Snapshot()), shift)
      ensures old(isCollapsed) ==> outcome == AlreadyCollapsed && Snapshot() == old(Snapshot())
      ensures !old(isCollapsed) && |frequencies| == 0 ==> outcome == EmptyToneSet && Snapshot() == old(Snapshot())
      ensures !old(isCollapsed) && |frequencies| > 0 ==>
                var f := frequencies[0] as real + shift;
                && outcome == Resolved(f)
                && isCollapsed && collapsedFrequency == Some(f)
                && audio == old(audio) + [Stop, Play(f)]
    {
      if !isCollapsed {
        if |frequencies| == 0 {
          return EmptyToneSet;
        }
        var f := ShiftPitch(frequencies[0] as real, shift);
        collapsedFrequency := Some(f);
        isCollapsed := true;
        audio := audio + [Stop];
        audio := audio + [Play(f)];
        outcome := Resolved(f);
      } else {
        outcome := AlreadyCollapsed;
      }
    }

    /**
     * One press of Enter reaching both bound `<Return>` handlers, in dispatch
     * order, each drawing its own shift: the same as the first handler alone.
     */
    method PressReturn(shiftA: real, shiftB: real)
      requires Valid()
      requires -MaxDetune <= shiftA <= MaxDetune && -MaxDetune <= shiftB <= MaxDetune
      modifies this
      ensures Valid()
      ensures Snapshot() == Collapse(frequencies, old(Snapshot()), shiftA)
    {
      var first := CollapseState(shiftA);
      var second := CollapseState(shiftB);
      CollapseIdempotent(frequencies, old(Snapshot()), shiftA, shiftB);
    }

    /**
     * `updateEquations`: the label text for the current state. In a valid
     * session the collapsed form is shown exactly when the session has collapsed.
     */
    function EquationText(fmt: real -> string): (text: string)
      reads this
      ensures StartsWith(text, "Collapsed: ") <==> ShowsCollapsed(isCollapsed, collapsedFrequency)
      ensures Valid() ==> (StartsWith(text, "Collapsed: ") <==> isCollapsed)
    {
      EquationShowsState(isCollapsed, collapsedFrequency, frequencies, fmt);
      EquationLabel(isCollapsed, collapsedFrequency, frequencies, fmt)
    }
  }

  /**
   * `main(numOutcomes)`: without a count, return at once; otherwise build the
   * clamped tone ladder, the superposed initial state and the 2-second summed
   * wave that is handed to the spectrum plot.
   */
  method Start(numOutcomes: Option<int>, sin: real -> real) returns (session: Option<Session>, sumWave: seq<real>)
    ensures numOutcomes.None? ==> session.None? && sumWave == []
    ensures numOutcomes.Some? ==>
              && session.Some? && fresh(session.value)
              && session.value.frequencies == Configure(numOutcomes).value
              && session.value.Valid() && session.value.Snapshot() == Initial
              && SuperpositionBuffer(AsReals(session.value.frequencies), sin) == Success(sumWave)
              && |sumWave| == 88200
  {
    var config := Configure(numOutcomes);
    if config.None? {
      return None, [];
    }
    var fs := config.value;
    var s := new Session(fs);
    PlaybackSampleCount();
    var t := Linspace(PlaybackSeconds, GridSamples);
    sumWave := Synthesize(t, AsReals(fs), sin);
    session := Some(s);
  }
}

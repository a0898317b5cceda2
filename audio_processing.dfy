/**
 * Signal utilities (audio_processing.py): peak normalisation, the cutoff
 * clamping and fallback of the band-pass filter, the soft operator/customer
 * masks of the mono speaker split, and the stereo/mono dispatch. Signals are
 * sequences of exact reals; decoding, the Butterworth design and the filter
 * itself are outside the model (the filter is a parameter).
 */
module AudioProcessing {
  import opened Arith
  import Tally

  // ---------------------------------------------------------------------------
  // normalize_audio
  // ---------------------------------------------------------------------------

  /** `np.abs(audio)`. */
  function Magnitudes(audio: seq<real>): (r: seq<real>)
    ensures |r| == |audio|
  {
    seq(|audio|, i requires 0 <= i < |audio| => Abs(audio[i]))
  }

  /** `np.max(np.abs(audio))` of a non-empty signal. */
  function Peak(audio: seq<real>): (m: real)
    requires |audio| > 0
    ensures m >= 0.0
    ensures forall i :: 0 <= i < |audio| ==> Abs(audio[i]) <= m
    ensures exists i :: 0 <= i < |audio| && Abs(audio[i]) == m
  {
    var mags := Magnitudes(audio);
    assert forall i :: 0 <= i < |audio| ==> mags[i] == Abs(audio[i]);
    MaxOf(mags)
  }

  /** Every sample divided by `divisor`. */
  function Scale(audio: seq<real>, divisor: real): (r: seq<real>)
    requires divisor != 0.0
    ensures |r| == |audio|
  {
    seq(|audio|, i requires 0 <= i < |audio| => audio[i] / divisor)
  }

  /**
   * normalize_audio: the signal divided by its peak, or the signal itself
   * when it is silent. `None` for an empty signal, where `np.max` raises.
   */
  function Normalize(audio: seq<real>): (r: Tally.Option<seq<real>>)
    ensures r.None? <==> audio == []
    ensures r.Some? ==> |r.value| == |audio|
    ensures r.Some? ==> forall i :: 0 <= i < |audio| ==> Abs(r.value[i]) <= 1.0 || Peak(audio) == 0.0
    ensures r.Some? && Peak(audio) == 0.0 ==> r.value == audio
  {
    if audio == [] then Tally.None
    else
      var peak := Peak(audio);
      if peak > 0.0 then
        ScaledWithinOne(audio);
        Tally.Some(Scale(audio, peak))
      else Tally.Some(audio)
  }

  lemma AbsDivBound(x: real, p: real)
    requires p > 0.0 && Abs(x) <= p
    ensures Abs(x / p) == Abs(x) / p
    ensures Abs(x / p) <= 1.0
  {
    if x >= 0.0 {
      DivMonotone(0.0, x, p);
    } else {
      DivMonotone(x, 0.0, p);
      DivNegate(x, p);
    }
    DivMonotone(Abs(x), p, p);
    SelfDiv(p);
  }

  lemma DivNegate(x: real, p: real)
    requires p > 0.0
    ensures (-x) / p == -(x / p)
  {
    assert (x / p) * p == x;
  }

  /** Dividing by the peak brings every sample into [-1, 1]. */
  lemma ScaledWithinOne(audio: seq<real>)
    requires |audio| > 0 && Peak(audio) > 0.0
    ensures forall i :: 0 <= i < |audio| ==> Abs(Scale(audio, Peak(audio))[i]) <= 1.0
  {
    forall i | 0 <= i < |audio|
      ensures Abs(Scale(audio, Peak(audio))[i]) <= 1.0
    {
      AbsDivBound(audio[i], Peak(audio));
    }
  }

  /** A signal is silent exactly when its peak is 0. */
  lemma SilentIffZeroPeak(audio: seq<real>)
    requires |audio| > 0
    ensures Peak(audio) == 0.0 <==> forall i :: 0 <= i < |audio| ==> audio[i] == 0.0
  {
  }

  /** A non-silent signal comes out with peak exactly 1. */
  lemma NormalizedPeakIsOne(audio: seq<real>)
    requires |audio| > 0 && Peak(audio) > 0.0
    ensures Peak(Normalize(audio).value) == 1.0
  {
    var peak := Peak(audio);
    var out := Normalize(audio).value;
    var k :| 0 <= k < |audio| && Abs(audio[k]) == peak;
    AbsDivBound(audio[k], peak);
    SelfDiv(peak);
    assert Abs(out[k]) == 1.0;
  }

  /** Normalising twice is normalising once. */
  lemma NormalizeIdempotent(audio: seq<real>)
    requires |audio| > 0
    ensures Normalize(Normalize(audio).value) == Normalize(audio)
  {
    var out := Normalize(audio).value;
    if Peak(audio) > 0.0 {
      NormalizedPeakIsOne(audio);
      assert Scale(out, 1.0) == out;
    }
  }

  // ---------------------------------------------------------------------------
  // bandpass_filter: cutoff clamping and fallback
  // ---------------------------------------------------------------------------

  /** A pair of cutoffs, in Hz or as fractions of the Nyquist frequency. */
  datatype Band = Band(low: real, high: real)

  /**
   * The first clamp, in Hz: `lowcut` into [20, 20% of Nyquist] (20 wins when
   * that range is empty), `highcut` into [lowcut + 30, 25% of Nyquist] (the
   * lower bound wins likewise).
   */
  function ClampCutoffs(lowcut: real, highcut: real, sampleRate: int): (r: Band)
    ensures r.low >= 20.0 && r.high >= r.low + 30.0
    ensures 20.0 <= lowcut <= 0.2 * (0.5 * sampleRate as real) ==> r.low == lowcut
    ensures r.low + 30.0 <= highcut <= 0.25 * (0.5 * sampleRate as real) ==> r.high == highcut
  {
    var nyquist := 0.5 * sampleRate as real;
    var maxAllowedFreq := nyquist * 0.25;
    var low := Max(20.0, Min(lowcut, maxAllowedFreq * 0.8));
    Band(low, Max(low + 30.0, Min(highcut, maxAllowedFreq)))
  }

  /**
   * The clamps on the normalised cutoffs, before re-centring: `low` into
   * [0.001, 0.249] and `high` into [low + 0.001, 0.249]. `None` for a zero
   * sample rate, where dividing by the Nyquist frequency raises.
   */
  function ClampedBand(lowcut: real, highcut: real, sampleRate: int): (r: Tally.Option<Band>)
    ensures r.None? <==> sampleRate == 0
    ensures r.Some? ==> 0.001 <= r.value.low <= 0.249 && r.value.high >= r.value.low + 0.001
    ensures r.Some? ==> r.value.high <= 0.25
  {
    if sampleRate == 0 then Tally.None
    else
      var nyquist := 0.5 * sampleRate as real;
      var hz := ClampCutoffs(lowcut, highcut, sampleRate);
      var low := Max(0.001, Min(hz.low / nyquist, 0.249));
      Tally.Some(Band(low, Max(low + 0.001, Min(hz.high / nyquist, 0.249))))
  }

  /**
   * The minimum separation: a band narrower than 0.01 is replaced by the band
   * of width exactly 0.01 around its midpoint.
   */
  function Recentre(b: Band): (r: Band)
    ensures r.high - r.low >= 0.01
    ensures b.high - b.low < 0.01 ==> r.high - r.low == 0.01 && r.low + r.high == b.low + b.high
    ensures b.high - b.low >= 0.01 ==> r == b
  {
    if b.high - b.low < 0.01 then
      var mid := (b.low + b.high) / 2.0;
      Band(mid - 0.005, mid + 0.005)
    else b
  }

  /** The normalised band `butter` is asked for. */
  function NormalizedBand(lowcut: real, highcut: real, sampleRate: int): (r: Tally.Option<Band>)
    ensures r.None? <==> sampleRate == 0
    ensures r.Some? ==> r.value.high - r.value.low >= 0.01 && 0.0 < r.value.high < 1.0
  {
    match ClampedBand(lowcut, highcut, sampleRate)
    case None => Tally.None
    case Some(b) => Tally.Some(Recentre(b))
  }

  /** `butter` designs a band-pass filter only for `0 < low < high < 1`. */
  predicate Designable(b: Band)
  {
    0.0 < b.low < b.high < 1.0
  }

  /**
   * bandpass_filter: the designed filter's output, peak-normalised; the input
   * itself whenever a step raises (a zero rate, an undesignable band, an
   * empty output). `filter(low, high, data)` stands for `lfilter` with the
   * coefficients `butter` designs for the band.
   */
  function Bandpass(data: seq<real>, lowcut: real, highcut: real, sampleRate: int,
                    filter: (real, real, seq<real>) -> seq<real>): (r: seq<real>)
    ensures NormalizedBand(lowcut, highcut, sampleRate).None? ==> r == data
    ensures (NormalizedBand(lowcut, highcut, sampleRate).Some?
             && !Designable(NormalizedBand(lowcut, highcut, sampleRate).value)) ==> r == data
    ensures r != data ==> forall i :: 0 <= i < |r| ==> Abs(r[i]) <= 1.0
  {
    match NormalizedBand(lowcut, highcut, sampleRate)
    case None => data
    case Some(b) =>
      if !Designable(b) then data
      else
        var filtered := filter(b.low, b.high, data);
        match Normalize(filtered)
        case None => data
        case Some(out) => out
  }

  /**
   * From a 200 Hz sample rate up, the upper normalised cutoff stays at or
   * below 0.249.
   */
  lemma HighCutoffBound(lowcut: real, highcut: real, sampleRate: int)
    requires sampleRate >= 200
    ensures NormalizedBand(lowcut, highcut, sampleRate).value.high <= 0.249
  {
    var nyquist := 0.5 * sampleRate as real;
    var hz := ClampCutoffs(lowcut, highcut, sampleRate);
    assert hz.low <= Max(20.0, 0.2 * nyquist);
    assert 20.0 / nyquist <= 0.2 by {
      DivMonotone(20.0, 0.2 * nyquist, nyquist);
      assert (0.2 * nyquist) / nyquist == 0.2;
    }
    var low0 := hz.low / nyquist;
    assert low0 <= 0.2 by {
      DivMonotone(hz.low, Max(20.0, 0.2 * nyquist), nyquist);
      assert (0.2 * nyquist) / nyquist == 0.2;
    }
  }

  /**
   * Below that rate the bound fails: at 100 Hz every pair of cutoffs clamps
   * to 20 and 50 Hz, and the re-centred band is [0.2445, 0.2545].
   */
  lemma LowRateBand(lowcut: real, highcut: real)
    ensures NormalizedBand(lowcut, highcut, 100) == Tally.Some(Band(0.2445, 0.2545))
  {
    assert ClampCutoffs(lowcut, highcut, 100) == Band(20.0, 50.0);
    assert ClampedBand(lowcut, highcut, 100) == Tally.Some(Band(0.249, 0.25));
  }

  /**
   * Re-centring can push `low` below 0.001: at 16 kHz a 20-50 Hz band becomes
   * [-0.000625, 0.009375], which `butter` refuses, so the data comes back
   * unfiltered.
   */
  lemma NarrowLowBandUnfiltered(data: seq<real>, filter: (real, real, seq<real>) -> seq<real>)
    ensures NormalizedBand(20.0, 50.0, 16000) == Tally.Some(Band(-0.000625, 0.009375))
    ensures Bandpass(data, 20.0, 50.0, 16000, filter) == data
  {
    assert ClampCutoffs(20.0, 50.0, 16000) == Band(20.0, 50.0);
    assert ClampedBand(20.0, 50.0, 16000) == Tally.Some(Band(0.0025, 0.00625));
  }

  // ---------------------------------------------------------------------------
  // separate_speakers_from_mono: frames, levels and masks
  // ---------------------------------------------------------------------------

  /** Frame `k` covers the samples `k*hop .. k*hop + frameLength - 1`. */
  predicate InFrame(hop: nat, frameLength: nat, k: nat, p: nat)
  {
    k * hop <= p < k * hop + frameLength
  }

  /** `n` frames of `frameLength` samples, one every `hop` samples, fit in `len` samples. */
  predicate FramesFit(n: nat, hop: nat, frameLength: nat, len: nat)
  {
    n >= 1 && hop >= 1 && (n - 1) * hop + frameLength <= len
  }

  /**
   * The mask after the first loop has written the levels of frames
   * `0 .. i-1`: a sample holds the level of the last of them containing it,
   * 0 if none does.
   */
  function PreMask(levels: seq<real>, hop: nat, frameLength: nat, p: nat, i: nat): real
    requires i <= |levels|
  {
    if i == 0 then 0.0
    else if InFrame(hop, frameLength, i - 1, p) then levels[i - 1]
    else PreMask(levels, hop, frameLength, p, i - 1)
  }

  /** `np.linspace(a, b, m)[k]`. */
  function Linspace(a: real, b: real, m: nat, k: nat): real
    requires k < m
  {
    if m == 1 then a else a + (k as real) * (b - a) / ((m - 1) as real)
  }

  /** The end `min(start + transition, len)` of the cross-fade at frame `r`. */
  function RampEnd(hop: nat, transition: nat, len: nat, r: nat): nat
  {
    if r * hop + transition < len then r * hop + transition else len
  }

  /** Sample `p` lies in the cross-fade at the start of frame `r`. */
  predicate InRamp(hop: nat, transition: nat, len: nat, r: nat, p: nat)
  {
    r * hop <= p < RampEnd(hop, transition, len, r)
  }

  /**
   * The mask after the cross-fade loop has processed frames `1 .. i-1`. The
   * fade at frame `r` reads its two end values from the mask as it stands:
   * the sample just before the frame and the frame's first sample.
   */
  function Faded(levels: seq<real>, hop: nat, frameLength: nat, transition: nat, len: nat,
                 p: nat, i: nat): real
    requires 1 <= i <= |levels| && hop >= 1
    decreases i
  {
    if i == 1 then PreMask(levels, hop, frameLength, p, |levels|)
    else
      var r := i - 1;
      MulMonotone(1, r, hop);
      var start := r * hop;
      if InRamp(hop, transition, len, r, p) then
        Linspace(Faded(levels, hop, frameLength, transition, len, start - 1, r),
                 Faded(levels, hop, frameLength, transition, len, start, r),
                 RampEnd(hop, transition, len, r) - start, p - start)
      else Faded(levels, hop, frameLength, transition, len, p, r)
  }

  /** The finished mask: every frame written, every cross-fade applied. */
  function Mask(levels: seq<real>, hop: nat, frameLength: nat, transition: nat, len: nat): (m: seq<real>)
    requires |levels| >= 1 && hop >= 1
    ensures |m| == len
  {
    seq(len, p requires 0 <= p < len => Faded(levels, hop, frameLength, transition, len, p, |levels|))
  }

  /**
   * The two mask loops over one mask array: first each frame's slice gets
   * its level, then the start of every frame but the first is overwritten by
   * a linear ramp from the sample before it to its first sample.
   */
  method BuildMask(levels: seq<real>, len: nat, hop: nat, frameLength: nat, transition: nat)
    returns (mask: seq<real>)
    requires FramesFit(|levels|, hop, frameLength, len) && frameLength >= 1
    ensures mask == Mask(levels, hop, frameLength, transition, len)
  {
    var m := new real[len](_ => 0.0);
    FillFrames(m, levels, hop, frameLength);
    FadeEdges(m, levels, hop, frameLength, transition);
    mask := m[..];
  }

  /** The first pass of `BuildMask`: each frame's samples take the frame's level, later frames winning. */
  method FillFrames(m: array<real>, levels: seq<real>, hop: nat, frameLength: nat)
    requires FramesFit(|levels|, hop, frameLength, m.Length) && frameLength >= 1
    requires forall p :: 0 <= p < m.Length ==> m[p] == 0.0
    modifies m
    ensures forall p :: 0 <= p < m.Length ==> m[p] == PreMask(levels, hop, frameLength, p, |levels|)
  {
    var n, len := |levels|, m.Length;
    for i := 0 to n
      invariant forall p :: 0 <= p < len ==> m[p] == PreMask(levels, hop, frameLength, p, i)
    {
      var start := i * hop;
      MulMonotone(i, n - 1, hop);
      var end := if start + frameLength < len then start + frameLength else len;
      for j := start to end
        invariant forall p :: 0 <= p < len ==>
          m[p] == if start <= p < j then levels[i] else PreMask(levels, hop, frameLength, p, i)
      {
        m[j] := levels[i];
      }
    }
  }

  /** The second pass of `BuildMask`: the start of every frame after the first becomes a linear ramp. */
  method FadeEdges(m: array<real>, levels: seq<real>, hop: nat, frameLength: nat, transition: nat)
    requires FramesFit(|levels|, hop, frameLength, m.Length) && frameLength >= 1
    requires forall p :: 0 <= p < m.Length ==> m[p] == PreMask(levels, hop, frameLength, p, |levels|)
    modifies m
    ensures m[..] == Mask(levels, hop, frameLength, transition, m.Length)
  {
    var n, len := |levels|, m.Length;
    for i := 1 to n
      invariant forall p :: 0 <= p < len ==> m[p] == Faded(levels, hop, frameLength, transition, len, p, i)
    {
      var start := i * hop;
      MulMonotone(1, i, hop);
      MulMonotone(i, n - 1, hop);
      var end := RampEnd(hop, transition, len, i);
      var first, last := m[start - 1], m[start];
      for j := start to end
        invariant forall p :: 0 <= p < len ==>
          m[p] == if start <= p < j then Linspace(first, last, end - start, p - start)
                  else Faded(levels, hop, frameLength, transition, len, p, i)
      {
        m[j] := Linspace(first, last, end - start, j - start);
      }
    }
  }

  /**
   * Before cross-fading, a sample holds the level of the highest-index frame
   * containing it.
   */
  lemma {:induction false} PreMaskIsLastFrame(levels: seq<real>, hop: nat, frameLength: nat,
                                               p: nat, k: nat, i: nat)
    requires k < i <= |levels|
    requires InFrame(hop, frameLength, k, p)
    requires forall k' :: k < k' < i ==> !InFrame(hop, frameLength, k', p)
    ensures PreMask(levels, hop, frameLength, p, i) == levels[k]
  {
    if i - 1 != k {
      PreMaskIsLastFrame(levels, hop, frameLength, p, k, i - 1);
    }
  }

  /** A sample no frame contains holds 0. */
  lemma {:induction false} PreMaskUncovered(levels: seq<real>, hop: nat, frameLength: nat, p: nat, i: nat)
    requires i <= |levels|
    requires forall k :: 0 <= k < i ==> !InFrame(hop, frameLength, k, p)
    ensures PreMask(levels, hop, frameLength, p, i) == 0.0
  {
    if i > 0 {
      PreMaskUncovered(levels, hop, frameLength, p, i - 1);
    }
  }

  /** A sample outside the cross-fades before frame `i` keeps its level. */
  lemma {:induction false} FadedUntouched(levels: seq<real>, hop: nat, frameLength: nat, transition: nat,
                                          len: nat, p: nat, i: nat)
    requires 1 <= i <= |levels| && hop >= 1
    requires forall r :: 1 <= r < i ==> !InRamp(hop, transition, len, r, p)
    ensures Faded(levels, hop, frameLength, transition, len, p, i)
         == PreMask(levels, hop, frameLength, p, |levels|)
  {
    if i > 1 {
      FadedUntouched(levels, hop, frameLength, transition, len, p, i - 1);
    }
  }

  /** With fades shorter than the hop, a sample lies in at most one fade. */
  lemma RampsDisjoint(hop: nat, transition: nat, len: nat, r: nat, r': nat, p: nat)
    requires transition < hop
    requires InRamp(hop, transition, len, r, p) && InRamp(hop, transition, len, r', p)
    ensures r == r'
  {
    assert r * hop <= p < r * hop + transition;
    assert r' * hop <= p < r' * hop + transition;
    if r < r' {
      MulMonotone(r + 1, r', hop);
    } else if r' < r {
      MulMonotone(r' + 1, r, hop);
    }
  }

  /** A later fade leaves a sample of an earlier one alone. */
  lemma {:induction false} FadedAfterRamp(levels: seq<real>, hop: nat, frameLength: nat, transition: nat,
                                          len: nat, p: nat, r: nat, i: nat)
    requires 1 <= r < i <= |levels| && transition < hop
    requires InRamp(hop, transition, len, r, p)
    ensures Faded(levels, hop, frameLength, transition, len, p, i)
         == Faded(levels, hop, frameLength, transition, len, p, r + 1)
  {
    if i > r + 1 {
      if InRamp(hop, transition, len, i - 1, p) {
        RampsDisjoint(hop, transition, len, r, i - 1, p);
      }
      FadedAfterRamp(levels, hop, frameLength, transition, len, p, r, i - 1);
    }
  }

  /**
   * The two samples a fade reads still hold their frame levels: the one
   * before frame `r` that of frame `r - 1`, the first of frame `r` its own.
   */
  lemma RampEndpoints(levels: seq<real>, hop: nat, frameLength: nat, transition: nat, len: nat, r: nat)
    requires 1 <= r < |levels| && transition < hop <= frameLength
    ensures r * hop >= 1
    ensures Faded(levels, hop, frameLength, transition, len, r * hop - 1, r) == levels[r - 1]
    ensures Faded(levels, hop, frameLength, transition, len, r * hop, r) == levels[r]
  {
    MulMonotone(1, r, hop);
    RampStartLevel(levels, hop, frameLength, transition, len, r);
    BeforeRampLevel(levels, hop, frameLength, transition, len, r);
  }

  lemma BeforeRampLevel(levels: seq<real>, hop: nat, frameLength: nat, transition: nat, len: nat, r: nat)
    requires 1 <= r < |levels| && transition < hop <= frameLength
    ensures r * hop >= 1
    ensures Faded(levels, hop, frameLength, transition, len, r * hop - 1, r) == levels[r - 1]
  {
    MulMonotone(1, r, hop);
    var before := r * hop - 1;
    assert (r - 1) * hop == r * hop - hop;
    NoEarlierRamp(hop, transition, len, r, before);
    FadedUntouched(levels, hop, frameLength, transition, len, before, r);
    NoLaterFrame(hop, frameLength, r - 1, |levels|, before);
    PreMaskIsLastFrame(levels, hop, frameLength, before, r - 1, |levels|);
  }

  lemma RampStartLevel(levels: seq<real>, hop: nat, frameLength: nat, transition: nat, len: nat, r: nat)
    requires 1 <= r < |levels| && transition < hop <= frameLength
    ensures Faded(levels, hop, frameLength, transition, len, r * hop, r) == levels[r]
  {
    var start := r * hop;
    MulMonotone(1, r, hop);
    NoEarlierRamp(hop, transition, len, r, start);
    FadedUntouched(levels, hop, frameLength, transition, len, start, r);
    assert (r + 1) * hop == start + hop;
    NoLaterFrame(hop, frameLength, r, |levels|, start);
    PreMaskIsLastFrame(levels, hop, frameLength, start, r, |levels|);
  }

  /** A sample from just before frame `r` on lies in no fade of an earlier frame. */
  lemma NoEarlierRamp(hop: nat, transition: nat, len: nat, r: nat, p: nat)
    requires transition < hop && r * hop <= p + 1
    ensures forall r' :: 1 <= r' < r ==> !InRamp(hop, transition, len, r', p)
  {
    forall r' | 1 <= r' < r
      ensures !InRamp(hop, transition, len, r', p)
    {
      MulMonotone(r' + 1, r, hop);
    }
  }

  /** A sample before the start of frame `k + 1` lies in no later frame. */
  lemma NoLaterFrame(hop: nat, frameLength: nat, k: nat, n: nat, p: nat)
    requires p < (k + 1) * hop
    ensures forall k' :: k < k' < n ==> !InFrame(hop, frameLength, k', p)
  {
    forall k' | k < k' < n
      ensures !InFrame(hop, frameLength, k', p)
    {
      MulMonotone(k + 1, k', hop);
    }
  }

  /**
   * The cross-fade at frame `r` runs linearly from the level of frame `r - 1`
   * to the level of frame `r`, and samples outside every fade keep the level
   * of the last frame containing them.
   */
  lemma CrossFade(levels: seq<real>, hop: nat, frameLength: nat, transition: nat, len: nat,
                  r: nat, p: nat)
    requires 1 <= r < |levels| && transition < hop <= frameLength
    requires InRamp(hop, transition, len, r, p)
    ensures Faded(levels, hop, frameLength, transition, len, p, |levels|)
         == Linspace(levels[r - 1], levels[r], RampEnd(hop, transition, len, r) - r * hop, p - r * hop)
  {
    FadedAfterRamp(levels, hop, frameLength, transition, len, p, r, |levels|);
    RampEndpoints(levels, hop, frameLength, transition, len, r);
    MulMonotone(1, r, hop);
  }

  /** A ramp between two values stays between them. */
  lemma LinspaceBetween(a: real, b: real, m: nat, k: nat, lo: real, hi: real)
    requires k < m && lo <= a <= hi && lo <= b <= hi
    ensures lo <= Linspace(a, b, m, k) <= hi
  {
    if m > 1 {
      LinspaceForm(a, b, m, k);
      UnitRatio(k, m - 1);
      Interpolate(a, b, (k as real) / ((m - 1) as real), lo, hi);
    }
  }

  lemma LinspaceForm(a: real, b: real, m: nat, k: nat)
    requires k < m && m > 1
    ensures Linspace(a, b, m, k) == a + ((k as real) / ((m - 1) as real)) * (b - a)
  {
  }

  /** Ramps between complementary values are complementary. */
  lemma LinspaceComplement(a: real, b: real, m: nat, k: nat)
    requires k < m
    ensures Linspace(1.0 - a, 1.0 - b, m, k) == 1.0 - Linspace(a, b, m, k)
  {
    if m > 1 {
      var t := (k as real) / ((m - 1) as real);
      LinspaceForm(a, b, m, k);
      LinspaceForm(1.0 - a, 1.0 - b, m, k);
      InterpolateComplement(a, b, t);
    }
  }

  /** Sample `p` is covered by one of the first `i` frames. */
  predicate Covered(hop: nat, frameLength: nat, p: nat, i: nat)
  {
    exists k :: 0 <= k < i && InFrame(hop, frameLength, k, p)
  }

  /** Complementary levels in [0.2, 0.8] for the operator and the customer. */
  predicate Complementary(op: seq<real>, cu: seq<real>)
  {
    |op| == |cu|
    && forall k :: 0 <= k < |op| ==> cu[k] == 1.0 - op[k] && 0.2 <= op[k] <= 0.8
  }

  lemma {:induction false} PreMaskComplement(op: seq<real>, cu: seq<real>, hop: nat, frameLength: nat,
                                             p: nat, i: nat)
    requires Complementary(op, cu) && i <= |op|
    requires Covered(hop, frameLength, p, i)
    ensures PreMask(cu, hop, frameLength, p, i) == 1.0 - PreMask(op, hop, frameLength, p, i)
    ensures 0.2 <= PreMask(op, hop, frameLength, p, i) <= 0.8
  {
    if !InFrame(hop, frameLength, i - 1, p) {
      var k :| 0 <= k < i && InFrame(hop, frameLength, k, p);
      assert Covered(hop, frameLength, p, i - 1);
      PreMaskComplement(op, cu, hop, frameLength, p, i - 1);
    }
  }

  lemma {:induction false} FadedComplement(op: seq<real>, cu: seq<real>, hop: nat, frameLength: nat,
                                           transition: nat, len: nat, p: nat, i: nat)
    requires Complementary(op, cu) && 1 <= i <= |op| && 1 <= hop <= frameLength
    requires Covered(hop, frameLength, p, |op|)
    ensures Faded(cu, hop, frameLength, transition, len, p, i)
         == 1.0 - Faded(op, hop, frameLength, transition, len, p, i)
    ensures 0.2 <= Faded(op, hop, frameLength, transition, len, p, i) <= 0.8
  {
    if i == 1 {
      PreMaskComplement(op, cu, hop, frameLength, p, |op|);
    } else {
      var r := i - 1;
      MulMonotone(1, r, hop);
      var start := r * hop;
      if InRamp(hop, transition, len, r, p) {
        assert (r - 1) * hop == start - hop;
        assert InFrame(hop, frameLength, r - 1, start - 1);
        assert InFrame(hop, frameLength, r, start);
        FadedComplement(op, cu, hop, frameLength, transition, len, start - 1, r);
        FadedComplement(op, cu, hop, frameLength, transition, len, start, r);
        RampComplement(op, cu, hop, frameLength, transition, len, p, r);
      } else {
        FadedComplement(op, cu, hop, frameLength, transition, len, p, r);
      }
    }
  }

  /** The cross-fade step of `FadedComplement`: complementary ramp ends give complementary ramps. */
  lemma RampComplement(op: seq<real>, cu: seq<real>, hop: nat, frameLength: nat,
                       transition: nat, len: nat, p: nat, r: nat)
    requires |op| == |cu| && 1 <= r < |op| && hop >= 1
    requires InRamp(hop, transition, len, r, p)
    requires var start := r * hop;
      && start >= 1
      && Faded(cu, hop, frameLength, transition, len, start - 1, r)
         == 1.0 - Faded(op, hop, frameLength, transition, len, start - 1, r)
      && 0.2 <= Faded(op, hop, frameLength, transition, len, start - 1, r) <= 0.8
      && Faded(cu, hop, frameLength, transition, len, start, r)
         == 1.0 - Faded(op, hop, frameLength, transition, len, start, r)
      && 0.2 <= Faded(op, hop, frameLength, transition, len, start, r) <= 0.8
    ensures Faded(cu, hop, frameLength, transition, len, p, r + 1)
         == 1.0 - Faded(op, hop, frameLength, transition, len, p, r + 1)
    ensures 0.2 <= Faded(op, hop, frameLength, transition, len, p, r + 1) <= 0.8
  {
    var start := r * hop;
    var a := Faded(op, hop, frameLength, transition, len, start - 1, r);
    var b := Faded(op, hop, frameLength, transition, len, start, r);
    var m := RampEnd(hop, transition, len, r) - start;
    assert Faded(op, hop, frameLength, transition, len, p, r + 1) == Linspace(a, b, m, p - start);
    assert Faded(cu, hop, frameLength, transition, len, p, r + 1) == Linspace(1.0 - a, 1.0 - b, m, p - start);
    LinspaceComplement(a, b, m, p - start);
    LinspaceBetween(a, b, m, p - start, 0.2, 0.8);
  }

  /**
   * On every sample some frame covers, the operator and customer masks add
   * up to 1 and each lies in [0.2, 0.8], cross-fades included.
   */
  lemma MasksComplement(op: seq<real>, cu: seq<real>, hop: nat, frameLength: nat, transition: nat,
                        len: nat, p: nat)
    requires Complementary(op, cu) && |op| >= 1 && 1 <= hop <= frameLength && p < len
    requires Covered(hop, frameLength, p, |op|)
    ensures Mask(op, hop, frameLength, transition, len)[p] + Mask(cu, hop, frameLength, transition, len)[p] == 1.0
    ensures 0.2 <= Mask(op, hop, frameLength, transition, len)[p] <= 0.8
    ensures 0.2 <= Mask(cu, hop, frameLength, transition, len)[p] <= 0.8
  {
    FadedComplement(op, cu, hop, frameLength, transition, len, p, |op|);
  }

  /** Samples past the end of the last frame keep 0 in the mask. */
  lemma MaskZeroPastFrames(levels: seq<real>, hop: nat, frameLength: nat, transition: nat, len: nat, p: nat)
    requires FramesFit(|levels|, hop, frameLength, len) && transition <= frameLength
    requires (|levels| - 1) * hop + frameLength <= p < len
    ensures Mask(levels, hop, frameLength, transition, len)[p] == 0.0
  {
    var n := |levels|;
    forall r | 1 <= r < n ensures !InRamp(hop, transition, len, r, p) {
      MulMonotone(r, n - 1, hop);
    }
    forall k | 0 <= k < n ensures !InFrame(hop, frameLength, k, p) {
      MulMonotone(k, n - 1, hop);
    }
    FadedUntouched(levels, hop, frameLength, transition, len, p, n);
    PreMaskUncovered(levels, hop, frameLength, p, n);
  }

  // ---------------------------------------------------------------------------
  // separate_speakers_from_mono: energies and levels
  // ---------------------------------------------------------------------------

  /** `np.sum(frame ** 2)`. */
  function SumSquares(xs: seq<real>): real
  {
    Sum(seq(|xs|, i requires 0 <= i < |xs| => xs[i] * xs[i]))
  }

  /** The energy of each of the `n` frames. */
  function FrameEnergies(audio: seq<real>, hop: nat, frameLength: nat, n: nat): (e: seq<real>)
    requires FramesFit(n, hop, frameLength, |audio|)
    ensures |e| == n
  {
    seq(n, k requires 0 <= k < n =>
      MulMonotone(k, n - 1, hop);
      SumSquares(audio[k * hop .. k * hop + frameLength]))
  }

  /** Where `x` lies between `lo` and `hi`, as a fraction of the distance. */
  function Fraction(x: real, lo: real, hi: real): real
    requires lo < hi
  {
    (x - lo) / (hi - lo)
  }

  /** The fraction grows with `x`, and is 0 at `lo` and non-negative above it. */
  lemma FractionMonotone(x: real, y: real, lo: real, hi: real)
    requires lo < hi && lo <= x <= y
    ensures 0.0 <= Fraction(x, lo, hi) <= Fraction(y, lo, hi)
    ensures x == lo ==> Fraction(x, lo, hi) == 0.0
  {
    DivMonotone(0.0, x - lo, hi - lo);
    DivMonotone(x - lo, y - lo, hi - lo);
  }

  /** Min-max normalised energies; only defined when not all energies are equal. */
  function Rescaled(e: seq<real>): (r: seq<real>)
    requires |e| > 0 && MaxOf(e) > MinOf(e)
    ensures |r| == |e|
  {
    seq(|e|, i requires 0 <= i < |e| => Fraction(e[i], MinOf(e), MaxOf(e)))
  }

  /**
   * Frame `i` is loud: its normalised energy exceeds 1.2 times the mean. When
   * all energies are equal the normalisation is 0/0, NaN compares false, and
   * no frame is loud.
   */
  predicate Loud(e: seq<real>, i: nat)
    requires i < |e|
  {
    MaxOf(e) > MinOf(e) && Rescaled(e)[i] > Mean(Rescaled(e)) * 1.2
  }

  /** The operator's level per frame: 0.8 for a loud frame, 0.2 otherwise. */
  function OperatorLevels(e: seq<real>): (r: seq<real>)
    ensures |r| == |e|
  {
    seq(|e|, i requires 0 <= i < |e| => if Loud(e, i) then 0.8 else 0.2)
  }

  /** The customer's level per frame: 0.2 for a loud frame, 0.8 otherwise. */
  function CustomerLevels(e: seq<real>): (r: seq<real>)
    ensures |r| == |e|
  {
    seq(|e|, i requires 0 <= i < |e| => if Loud(e, i) then 0.2 else 0.8)
  }

  /** The two level sequences are complementary. */
  lemma LevelsComplementary(e: seq<real>)
    ensures Complementary(OperatorLevels(e), CustomerLevels(e))
  {
  }

  /** The quietest frame always goes to the customer. */
  lemma QuietestFrameIsCustomer(e: seq<real>, k: nat)
    requires k < |e| && e[k] == MinOf(e)
    ensures !Loud(e, k)
    ensures OperatorLevels(e)[k] == 0.2 && CustomerLevels(e)[k] == 0.8
  {
    if MaxOf(e) > MinOf(e) {
      RescaledNonNegative(e);
      FractionMonotone(e[k], e[k], MinOf(e), MaxOf(e));
    }
  }

  /** Normalised energies, and so their mean, are never negative. */
  lemma RescaledNonNegative(e: seq<real>)
    requires |e| > 0 && MaxOf(e) > MinOf(e)
    ensures forall i :: 0 <= i < |e| ==> Rescaled(e)[i] >= 0.0
    ensures Mean(Rescaled(e)) >= 0.0
  {
    var r := Rescaled(e);
    forall i | 0 <= i < |r| ensures r[i] >= 0.0 {
      RescaledAt(e, i);
    }
    MeanNonNegative(r);
  }

  /** One normalised energy is never negative. */
  lemma RescaledAt(e: seq<real>, i: nat)
    requires i < |e| && MaxOf(e) > MinOf(e)
    ensures Rescaled(e)[i] >= 0.0
  {
    FractionMonotone(e[i], e[i], MinOf(e), MaxOf(e));
  }

  /** A frame at least as energetic as a loud frame is loud. */
  lemma LoudnessMonotone(e: seq<real>, i: nat, j: nat)
    requires i < |e| && j < |e| && e[i] <= e[j] && Loud(e, i)
    ensures Loud(e, j)
  {
    FractionMonotone(e[i], e[j], MinOf(e), MaxOf(e));
  }

  /** Equal energies everywhere: every frame goes to the customer. */
  lemma EqualEnergiesAllCustomer(e: seq<real>)
    requires |e| > 0 && forall i :: 0 <= i < |e| ==> e[i] == e[0]
    ensures forall i :: 0 <= i < |e| ==> !Loud(e, i)
  {
    var hi :| 0 <= hi < |e| && e[hi] == MaxOf(e);
    var lo :| 0 <= lo < |e| && e[lo] == MinOf(e);
  }

  // ---------------------------------------------------------------------------
  // separate_speakers_from_mono and separate_channels
  // ---------------------------------------------------------------------------

  /** What the decoder returns: a 1-D array, or one row per channel. */
  datatype Decoded = Mono(samples: seq<real>) | Multi(channels: seq<seq<real>>)

  /** A decoded array is rectangular with at least one channel. */
  predicate WellFormed(audio: Decoded)
  {
    audio.Multi? ==>
      |audio.channels| >= 1
      && forall c :: 0 <= c < |audio.channels| ==> |audio.channels[c]| == |audio.channels[0]|
  }

  /** `np.mean(audio, axis=0)`: the average of the channels, sample by sample. */
  function Downmix(channels: seq<seq<real>>): (r: seq<real>)
    requires |channels| >= 1
    requires forall c :: 0 <= c < |channels| ==> |channels[c]| == |channels[0]|
    ensures |r| == |channels[0]|
  {
    seq(|channels[0]|, j requires 0 <= j < |channels[0]| =>
      Mean(seq(|channels|, c requires 0 <= c < |channels| => channels[c][j])))
  }

  /** The signal the mono split works on: the down-mix of a multi-channel array. */
  function MonoSignal(audio: Decoded): seq<real>
    requires WellFormed(audio)
  {
    if audio.Multi? then Downmix(audio.channels) else audio.samples
  }

  /** `audio * mask`. */
  function Apply(audio: seq<real>, mask: seq<real>): (r: seq<real>)
    requires |mask| == |audio|
    ensures |r| == |audio|
  {
    seq(|audio|, p requires 0 <= p < |audio| => audio[p] * mask[p])
  }

  /** Frame length, hop and fade length for a sample rate: 25, 10 and 5 ms. */
  function FrameLength(sampleRate: nat): nat { sampleRate / 40 }
  function HopLength(sampleRate: nat): nat { sampleRate / 100 }
  function TransitionLength(sampleRate: nat): nat { sampleRate / 200 }

  /** Where framing succeeds the fade is shorter than the hop, the hop no longer than a frame. */
  lemma FrameParameters(sampleRate: nat)
    requires HopLength(sampleRate) >= 1
    ensures TransitionLength(sampleRate) < HopLength(sampleRate) <= FrameLength(sampleRate)
  {
  }

  /** The frame count of `librosa.util.frame`; the frames fit in the signal. */
  function FrameCount(len: nat, hop: nat, frameLength: nat): (n: nat)
    requires hop >= 1 && len >= frameLength
    ensures FramesFit(n, hop, frameLength, len)
  {
    var q := (len - frameLength) / hop;
    assert q * hop <= len - frameLength;
    1 + q
  }

  /**
   * separate_speakers_from_mono: the normalised signal weighted by each soft
   * mask, normalised again. Where a step raises (an empty signal, a rate
   * below 100 Hz giving a zero hop, a signal shorter than one frame) both
   * results are the signal as it stood: down-mixed, and normalised if that
   * step was reached.
   */
  function MonoSplit(audio: Decoded, sampleRate: nat): (r: (seq<real>, seq<real>))
    requires WellFormed(audio)
    ensures |r.0| == |r.1| == |MonoSignal(audio)|
    ensures forall p :: 0 <= p < |r.0| ==> Abs(r.0[p]) <= 1.0 && Abs(r.1[p]) <= 1.0
    ensures MonoSignal(audio) == [] ==> r.0 == r.1 == []
    ensures MonoSignal(audio) != [] && (HopLength(sampleRate) == 0 || |MonoSignal(audio)| < FrameLength(sampleRate)) ==>
      r.0 == r.1 == Normalize(MonoSignal(audio)).value
  {
    var signal := MonoSignal(audio);
    match Normalize(signal)
    case None => (signal, signal)
    case Some(x) =>
      var frameLength, hop := FrameLength(sampleRate), HopLength(sampleRate);
      if hop == 0 || |x| < frameLength then (x, x)
      else
        var n := FrameCount(|x|, hop, frameLength);
        var e := FrameEnergies(x, hop, frameLength, n);
        var transition := TransitionLength(sampleRate);
        (Normalize(Apply(x, Mask(OperatorLevels(e), hop, frameLength, transition, |x|))).value,
         Normalize(Apply(x, Mask(CustomerLevels(e), hop, frameLength, transition, |x|))).value)
  }

  /**
   * separate_speakers_from_mono as the source runs it: the masks are filled
   * in place, frame by frame, by `BuildMask`.
   */
  method SeparateSpeakersFromMono(audio: Decoded, sampleRate: nat) returns (operator: seq<real>, customer: seq<real>)
    requires WellFormed(audio)
    ensures (operator, customer) == MonoSplit(audio, sampleRate)
  {
    var signal := MonoSignal(audio);
    var normalized := Normalize(signal);
    if normalized.None? {
      return signal, signal;
    }
    var x := normalized.value;
    var frameLength, hopLength := FrameLength(sampleRate), HopLength(sampleRate);
    if hopLength == 0 || |x| < frameLength {
      return x, x;
    }
    var n := FrameCount(|x|, hopLength, frameLength);
    var energy := FrameEnergies(x, hopLength, frameLength, n);
    var transition := TransitionLength(sampleRate);
    var operatorMask := BuildMask(OperatorLevels(energy), |x|, hopLength, frameLength, transition);
    var customerMask := BuildMask(CustomerLevels(energy), |x|, hopLength, frameLength, transition);
    operator := Normalize(Apply(x, operatorMask)).value;
    customer := Normalize(Apply(x, customerMask)).value;
  }

  /**
   * The split's masks, where framing succeeds: on covered samples they add up
   * to 1 and lie in [0.2, 0.8]; past the last frame both are 0.
   */
  lemma SplitMasks(x: seq<real>, sampleRate: nat, p: nat)
    requires HopLength(sampleRate) >= 1 && |x| >= FrameLength(sampleRate) && p < |x|
    ensures var hop, frameLength := HopLength(sampleRate), FrameLength(sampleRate);
      var n := FrameCount(|x|, hop, frameLength);
      var e := FrameEnergies(x, hop, frameLength, n);
      var op := Mask(OperatorLevels(e), hop, frameLength, TransitionLength(sampleRate), |x|);
      var cu := Mask(CustomerLevels(e), hop, frameLength, TransitionLength(sampleRate), |x|);
      (Covered(hop, frameLength, p, n) ==> op[p] + cu[p] == 1.0 && 0.2 <= op[p] <= 0.8 && 0.2 <= cu[p] <= 0.8)
      && ((n - 1) * hop + frameLength <= p ==> op[p] == 0.0 && cu[p] == 0.0)
  {
    var hop, frameLength := HopLength(sampleRate), FrameLength(sampleRate);
    var n := FrameCount(|x|, hop, frameLength);
    var e := FrameEnergies(x, hop, frameLength, n);
    var transition := TransitionLength(sampleRate);
    FrameParameters(sampleRate);
    LevelsComplementary(e);
    if Covered(hop, frameLength, p, n) {
      MasksComplement(OperatorLevels(e), CustomerLevels(e), hop, frameLength, transition, |x|, p);
    }
    if (n - 1) * hop + frameLength <= p {
      MaskZeroPastFrames(OperatorLevels(e), hop, frameLength, transition, |x|, p);
      MaskZeroPastFrames(CustomerLevels(e), hop, frameLength, transition, |x|, p);
    }
  }

  /**
   * separate_channels after decoding: a two-channel array gives its channels
   * verbatim; anything else goes to the mono split.
   */
  method SeparateChannels(audio: Decoded, sampleRate: nat)
    returns (operator: seq<real>, customer: seq<real>, rate: nat)
    requires WellFormed(audio)
    ensures rate == sampleRate
    ensures audio.Multi? && |audio.channels| == 2 ==>
      operator == audio.channels[0] && customer == audio.channels[1]
    ensures !(audio.Multi? && |audio.channels| == 2) ==>
      (operator, customer) == MonoSplit(audio, sampleRate)
  {
    if audio.Multi? && |audio.channels| == 2 {
      return audio.channels[0], audio.channels[1], sampleRate;
    }
    operator, customer := SeparateSpeakersFromMono(audio, sampleRate);
    rate := sampleRate;
  }
}

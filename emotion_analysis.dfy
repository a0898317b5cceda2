/**
 * The emotion analyser (emotion_analysis.py): the mapping of a recogniser's
 * scores onto the three categories with its neutral fallback, label
 * statistics, the segmentation of `extract_features`, the rule-based
 * classifier `map_features_to_emotions` and the smoothing pass
 * `smooth_emotions`. The acoustic features themselves are inputs.
 */
module EmotionAnalysis {
  import opened Labels
  import opened Arith
  import Tally

  // ---------------------------------------------------------------------------
  // EmotionAnalyzer: the recogniser's result and its fallback
  // ---------------------------------------------------------------------------

  /** `emotion_mapping.get(key, 'нейтрально')`. */
  function MapLabel(key: string): Emotion
  {
    if key in {"anger", "disgust", "fear", "sadness"} then Negative
    else if key == "happiness" then Joy
    else Neutral  // 'surprise', 'neutral' and every unknown label
  }

  /** The scores of a recogniser's dict, in the dict's order. */
  function ScoresOf(emotions: seq<(string, real)>): (r: seq<real>)
    ensures |r| == |emotions|
  {
    seq(|emotions|, i requires 0 <= i < |emotions| => emotions[i].1)
  }

  /**
   * EmotionAnalyzer._map_emotions: one label, the category of the first
   * highest-scoring key; `['нейтрально']` for an empty dict.
   */
  function MapEmotions(emotions: seq<(string, real)>): (r: seq<Emotion>)
    ensures |r| == 1
    ensures emotions == [] ==> r == [Neutral]
    ensures emotions != [] ==>
      exists k :: 0 <= k < |emotions| && r == [MapLabel(emotions[k].0)]
        && (forall j :: 0 <= j < |emotions| ==> emotions[j].1 <= emotions[k].1)
        && (forall j :: 0 <= j < k ==> emotions[j].1 < emotions[k].1)
  {
    if emotions == [] then [Neutral]
    else
      var k := Tally.ArgMax(ScoresOf(emotions));
      assert forall j :: 0 <= j < |emotions| ==> ScoresOf(emotions)[j] == emotions[j].1;
      [MapLabel(emotions[k].0)]
  }

  /** What the voice recogniser does for one call of analyze_emotions. */
  datatype Recognition =
    | NoRecognizer                             // the constructor failed: voice_recognizer is None
    | RecognitionFails                         // writing the WAV or recognising raised
    | Recognized(scores: seq<(string, real)>)  // the recogniser's dict of scores

  /**
   * analyze_emotions: the mapped recognition, or one neutral label per whole
   * second of audio when there is no recogniser or recognition fails. `None`
   * where the fallback itself raises (a zero sample rate). For a negative
   * rate Python's floor division gives a count of at most 0, and a list
   * repeated a non-positive number of times is empty.
   */
  function AnalyzeEmotions(recognition: Recognition, audioLength: nat, sampleRate: int)
    : (r: Tally.Option<seq<Emotion>>)
    ensures recognition.Recognized? ==> r == Tally.Some(MapEmotions(recognition.scores))
    ensures !recognition.Recognized? ==> (r.None? <==> sampleRate == 0)
    ensures !recognition.Recognized? && sampleRate > 0 ==>
      r.Some? && |r.value| == audioLength / sampleRate
      && (forall i :: 0 <= i < |r.value| ==> r.value[i] == Neutral)
    ensures !recognition.Recognized? && sampleRate < 0 ==> r == Tally.Some([])
  {
    match recognition
    case Recognized(scores) => Tally.Some(MapEmotions(scores))
    case _ =>
      if sampleRate == 0 then Tally.None
      else
        var copies := if sampleRate > 0 then audioLength / sampleRate else 0;
        Tally.Some(seq(copies, _ => Neutral))
  }

  // ---------------------------------------------------------------------------
  // Label statistics (get_emotion_statistics, get_dominant_emotion)
  // ---------------------------------------------------------------------------

  /** The sum of the counts in `s` of the labels in `keys`. */
  function SumCounts<T(==)>(s: seq<T>, keys: seq<T>): nat
  {
    if keys == [] then 0
    else SumCounts(s, keys[..|keys| - 1]) + Tally.Occ(s, keys[|keys| - 1])
  }

  /** The sum of the values of `m` at `keys`. */
  function SumValues<T>(m: map<T, real>, keys: seq<T>): real
    requires forall k :: 0 <= k < |keys| ==> keys[k] in m
  {
    if keys == [] then 0.0
    else SumValues(m, keys[..|keys| - 1]) + m[keys[|keys| - 1]]
  }

  lemma {:induction false} SumCountsSnoc<T>(s: seq<T>, e: T, keys: seq<T>)
    ensures SumCounts(s + [e], keys) == SumCounts(s, keys) + Tally.Occ(keys, e)
  {
    assert multiset(s + [e]) == multiset(s) + multiset{e};
    if keys != [] {
      var init := keys[..|keys| - 1];
      assert keys == init + [keys[|keys| - 1]];
      assert multiset(keys) == multiset(init) + multiset{keys[|keys| - 1]};
      SumCountsSnoc(s, e, init);
    }
  }

  lemma {:induction false} OccOfDistinct<T>(d: seq<T>, e: T)
    requires forall i, j :: 0 <= i < j < |d| ==> d[i] != d[j]
    requires e in d
    ensures Tally.Occ(d, e) == 1
  {
    var init := d[..|d| - 1];
    assert d == init + [d[|d| - 1]];
    assert multiset(d) == multiset(init) + multiset{d[|d| - 1]};
    if d[|d| - 1] == e {
      assert e !in init;
    } else {
      OccOfDistinct(init, e);
    }
  }

  /** Every element of `s` is counted exactly once over the distinct labels. */
  lemma {:induction false} CountsAddUp<T>(s: seq<T>)
    ensures SumCounts(s, Tally.Distinct(s)) == |s|
  {
    if s != [] {
      var init, e := s[..|s| - 1], s[|s| - 1];
      assert s == init + [e];
      CountsAddUp(init);
      CountsAddUpStep(init, e);
    }
  }

  /** Scanning one more element adds one to the sum of the counts over the distinct labels. */
  lemma CountsAddUpStep<T>(init: seq<T>, e: T)
    requires SumCounts(init, Tally.Distinct(init)) == |init|
    ensures SumCounts(init + [e], Tally.Distinct(init + [e])) == |init| + 1
  {
    var d := Tally.Distinct(init);
    Tally.DistinctSpec(init);
    Tally.DistinctSnoc(init, e);
    SumCountsSnoc(init, e, d);
    if e in d {
      OccOfDistinct(d, e);
    } else {
      CountsAddUpNewKey(init, e);
      Tally.OccAbsent(d, e);
    }
  }

  /** The step of `CountsAddUp` where the scanned element is a new key. */
  lemma CountsAddUpNewKey<T>(init: seq<T>, e: T)
    requires e !in Tally.Distinct(init)
    requires SumCounts(init + [e], Tally.Distinct(init)) == SumCounts(init, Tally.Distinct(init)) + Tally.Occ(Tally.Distinct(init), e)
    ensures SumCounts(init + [e], Tally.Distinct(init) + [e]) == SumCounts(init + [e], Tally.Distinct(init)) + 1
  {
    var d := Tally.Distinct(init);
    assert (d + [e])[..|d|] == d;
    Tally.DistinctHas(init, e);
    assert multiset(init + [e]) == multiset(init) + multiset{e};
  }

  /** The ratios count/total over the distinct labels sum to the counts' sum over total. */
  lemma {:induction false} RatiosAddUp<T>(s: seq<T>, m: map<T, real>, keys: seq<T>)
    requires |s| > 0
    requires forall k :: 0 <= k < |keys| ==> keys[k] in m
    requires forall k :: 0 <= k < |keys| ==> m[keys[k]] == Tally.Occ(s, keys[k]) as real / |s| as real
    ensures SumValues(m, keys) == SumCounts(s, keys) as real / |s| as real
  {
    if keys != [] {
      var init, last := keys[..|keys| - 1], keys[|keys| - 1];
      RatiosAddUp(s, m, init);
      assert SumValues(m, keys) == SumValues(m, init) + m[last];
      assert SumCounts(s, keys) as real == SumCounts(s, init) as real + Tally.Occ(s, last) as real;
      DivAdd(SumCounts(s, init) as real, Tally.Occ(s, last) as real, |s| as real);
    }
  }

  /**
   * get_emotion_statistics: each distinct label's share of the list. The
   * shares, summed in the dict's order, make 1 for a non-empty list; an empty
   * list gives an empty dict.
   */
  method GetEmotionStatistics<T(==)>(emotions: seq<T>) returns (stats: map<T, real>)
    ensures forall x :: x in stats <==> x in emotions
    ensures forall x :: x in stats ==>
      stats[x] == Tally.Occ(emotions, x) as real / |emotions| as real
    ensures emotions == [] ==> stats == map[]
    ensures forall k :: 0 <= k < |Tally.Distinct(emotions)| ==> Tally.Distinct(emotions)[k] in stats
    ensures emotions != [] ==> SumValues(stats, Tally.Distinct(emotions)) == 1.0
  {
    Tally.DistinctSpec(emotions);
    var keys, counts := Tally.CountLabels(emotions);
    var total := |emotions|;
    stats := map x | x in counts :: counts[x] as real / total as real;
    if emotions != [] {
      SharesSumToOne(emotions, stats);
    }
  }

  /** Shares count/total of every distinct label add up to 1. */
  lemma SharesSumToOne<T>(s: seq<T>, stats: map<T, real>)
    requires |s| > 0
    requires forall x :: x in stats <==> x in s
    requires forall x :: x in stats ==> stats[x] == Tally.Occ(s, x) as real / |s| as real
    ensures forall k :: 0 <= k < |Tally.Distinct(s)| ==> Tally.Distinct(s)[k] in stats
    ensures SumValues(stats, Tally.Distinct(s)) == 1.0
  {
    var d := Tally.Distinct(s);
    Tally.DistinctSpec(s);
    CountsAddUp(s);
    RatiosAddUp(s, stats, d);
    var n := |s| as real;
    assert SumCounts(s, d) as real == n;
    SelfDiv(n);
  }

  /**
   * get_dominant_emotion: the first most frequent label; `None` for an empty
   * list, where `max` raises.
   */
  method GetDominantEmotion<T(==)>(emotions: seq<T>) returns (r: Tally.Option<T>)
    ensures emotions == [] <==> r == Tally.None
    ensures r.Some? ==> Tally.IsFirstMode(emotions, r.value)
  {
    r := Tally.MostFrequent(emotions);
    if r.Some? {
      Tally.ModeIsFirstMode(emotions);
    }
  }

  // ---------------------------------------------------------------------------
  // Segmentation of extract_features
  // ---------------------------------------------------------------------------

  /** A slice `audio[start:end]` of the signal. */
  datatype Span = Span(start: nat, end: nat)

  /** Python's `int(a / b)` for `b > 0`: division truncated toward zero. */
  function TruncDiv(a: int, b: int): int
    requires b > 0
  {
    if a >= 0 then a / b else -((-a) / b)
  }

  /** The first `n` full one-window spans, one every `hop` samples. */
  function FullSpans(n: nat, hop: nat, window: nat): (r: seq<Span>)
    ensures |r| == n
  {
    seq(n, i requires 0 <= i < n => Span(i * hop, i * hop + window))
  }

  /** A window started at a multiple of the hop that is at most `a / h` lies within `a`. */
  lemma StartFits(i: int, a: int, h: int)
    requires h > 0 && a >= 0 && 0 <= i <= a / h
    ensures i * h <= a
  {
    assert i * h <= (a / h) * h;
  }

  /** One pass of the segment loop over a signal holding a full window. */
  lemma FullSpanStep(spans: seq<Span>, i: nat, audioLength: nat, window: nat, hop: nat)
    requires hop > 0 && audioLength >= window && hop <= window
    requires i < (audioLength - window) / hop + 1
    requires spans == FullSpans(i, hop, window)
    ensures i * hop + window <= audioLength
    ensures spans + [Span(i * hop, i * hop + window)] == FullSpans(i + 1, hop, window)
  {
    StartFits(i, audioLength - window, hop);
  }

  /** Every full span before the count the source computes ends within the signal. */
  lemma FullSpansFit(spans: seq<Span>, audioLength: nat, window: nat, hop: nat)
    requires hop > 0 && audioLength >= window
    requires spans == FullSpans((audioLength - window) / hop + 1, hop, window)
    ensures forall i :: 0 <= i < |spans| ==> spans[i].end <= audioLength
  {
    var q := (audioLength - window) / hop;
    forall i | 0 <= i < |spans|
      ensures spans[i].end <= audioLength
    {
      assert i * hop <= q * hop;
    }
  }

  /**
   * The segments extract_features computes features for: windows of one
   * second (`sample_rate` samples) every half second. With at least one full
   * window, the windows that fit, all full; otherwise the whole signal, kept
   * only if it is at least half a window long. `None` where the source
   * divides by a zero hop (a rate of 0 or 1).
   */
  method SegmentSpans(audioLength: nat, sampleRate: int) returns (r: Tally.Option<seq<Span>>)
    requires sampleRate >= 0
    ensures r.None? <==> sampleRate / 2 == 0
    ensures r.Some? && audioLength >= sampleRate ==>
      var hop := sampleRate / 2;
      |r.value| == (audioLength - sampleRate) / hop + 1
      && forall i :: 0 <= i < |r.value| ==>
           r.value[i] == Span(i * hop, i * hop + sampleRate) && r.value[i].end <= audioLength
    ensures r.Some? && audioLength < sampleRate ==>
      r.value == if audioLength >= sampleRate / 2 then [Span(0, audioLength)] else []
  {
    var windowSize := sampleRate;
    var hopLength := windowSize / 2;
    if hopLength == 0 {
      return Tally.None;
    }
    var n := TruncDiv(audioLength - windowSize, hopLength) + 1;
    var numSegments := if n > 1 then n else 1;
    var spans := CutSegments(audioLength, windowSize, hopLength, numSegments);
    if audioLength >= windowSize {
      FullSpansFit(spans, audioLength, windowSize, hopLength);
    }
    r := Tally.Some(spans);
  }

  /** The segment loop of extract_features, for the segment count it computed. */
  method CutSegments(audioLength: nat, windowSize: nat, hopLength: nat, numSegments: nat)
    returns (spans: seq<Span>)
    requires 0 < hopLength <= windowSize
    requires audioLength >= windowSize ==> numSegments == (audioLength - windowSize) / hopLength + 1
    requires audioLength < windowSize ==> numSegments == 1
    ensures audioLength >= windowSize ==> spans == FullSpans(numSegments, hopLength, windowSize)
    ensures audioLength < windowSize ==>
      spans == if audioLength >= windowSize / 2 then [Span(0, audioLength)] else []
  {
    spans := [];
    for i := 0 to numSegments
      invariant audioLength >= windowSize ==> spans == FullSpans(i, hopLength, windowSize)
      invariant audioLength < windowSize ==>
        spans == if i == 1 && audioLength >= windowSize / 2 then [Span(0, audioLength)] else []
    {
      var start := i * hopLength;
      if audioLength >= windowSize {
        FullSpanStep(spans, i, audioLength, windowSize, hopLength);
      } else {
        assert i == 0 && start == 0;
      }
      var end := if start + windowSize < audioLength then start + windowSize else audioLength;
      if end - start < windowSize / 2 {
        continue;
      }
      spans := spans + [Span(start, end)];
    }
  }

  // ---------------------------------------------------------------------------
  // The rule-based classifier (map_features_to_emotions)
  // ---------------------------------------------------------------------------

  /** The features extract_features computes for one segment. */
  datatype Features = Features(
    energy: real,             // mean RMS
    zeroCrossingRate: real,
    centroid: real,           // spectral centroid, Hz
    rolloff: real,            // spectral roll-off, Hz
    bandwidth: real,          // spectral bandwidth, Hz
    flatness: real,           // spectral flatness
    mfccMean: seq<real>,      // per-coefficient MFCC means
    mfccStd: seq<real>)       // per-coefficient MFCC deviations (read, never used)

  /** The three scores of one segment, in the order of the source's dict. */
  datatype Scores = Scores(negative: real, joy: real, neutral: real)

  /** The whole-call means and standard deviations the z-scores use. */
  datatype Baseline = Baseline(
    meanEnergy: real, stdEnergy: real,
    meanZcr: real, stdZcr: real,
    meanCentroid: real, stdCentroid: real)

  predicate ValidBaseline(b: Baseline)
  {
    b.stdEnergy >= 0.0 && b.stdZcr >= 0.0 && b.stdCentroid >= 0.0
  }

  /** The sum of squared deviations from `m`. */
  function SquaredDeviations(xs: seq<real>, m: real): (r: real)
    ensures r >= 0.0
  {
    if xs == [] then 0.0
    else
      var d := xs[|xs| - 1] - m;
      SquareNonNegative(d);
      SquaredDeviations(xs[..|xs| - 1], m) + d * d
  }

  /** `np.var`, the population variance. */
  function Variance(xs: seq<real>): (r: real)
    requires |xs| > 0
    ensures r >= 0.0
  {
    SquaredDeviations(xs, Mean(xs)) / |xs| as real
  }

  /** A value NumPy may compute as NaN; `None` is NaN. */
  type MaybeNaN = Tally.Option<real>

  /** `x > t`, false for NaN. */
  predicate Above(x: MaybeNaN, t: real)
  {
    x.Some? && x.value > t
  }

  /** `x < t`, false for NaN. */
  predicate Below(x: MaybeNaN, t: real)
  {
    x.Some? && x.value < t
  }

  /** `np.var(mfcc_mean)`: NaN for an empty vector. */
  function EnergyVariance(mfccMean: seq<real>): MaybeNaN
  {
    if mfccMean == [] then Tally.None else Tally.Some(Variance(mfccMean))
  }

  function AbsDiffs(xs: seq<real>): (r: seq<real>)
    requires |xs| >= 1
    ensures |r| == |xs| - 1
  {
    seq(|xs| - 1, i requires 0 <= i < |xs| - 1 =>
      if xs[i + 1] >= xs[i] then xs[i + 1] - xs[i] else xs[i] - xs[i + 1])
  }

  /** `np.mean(np.abs(np.diff(mfcc_mean)))`: NaN for fewer than two coefficients. */
  function PitchStability(mfccMean: seq<real>): MaybeNaN
  {
    if |mfccMean| < 2 then Tally.None else Tally.Some(Mean(AbsDiffs(mfccMean)))
  }

  /** `(x - mean) / (std + 1e-6)`. */
  function ZScore(x: real, mean: real, std: real): real
    requires std >= 0.0
  {
    (x - mean) / (std + 0.000001)
  }

  /** The weighted threshold hits of one segment, before hysteresis and gate. */
  function RawScores(f: Features, b: Baseline): (r: Scores)
    requires ValidBaseline(b)
    ensures 0.0 <= r.negative <= 7.6
    ensures 0.0 <= r.joy <= 5.4
    ensures 0.0 <= r.neutral <= 5.6
  {
    var normEnergy := ZScore(f.energy, b.meanEnergy, b.stdEnergy);
    var normZcr := ZScore(f.zeroCrossingRate, b.meanZcr, b.stdZcr);
    var normCentroid := ZScore(f.centroid, b.meanCentroid, b.stdCentroid);
    var energyVariance := EnergyVariance(f.mfccMean);
    var pitchStability := PitchStability(f.mfccMean);
    Scores(
      (if normEnergy > 1.0 then 1.5 else 0.0)
      + (if normZcr > 0.8 then 1.5 else 0.0)
      + (if f.bandwidth > 4000.0 then 1.0 else 0.0)
      + (if Above(energyVariance, 0.9) then 1.0 else 0.0)
      + (if Above(pitchStability, 0.7) then 1.0 else 0.0)
      + (if f.flatness > 0.7 then 0.8 else 0.0)
      + (if f.rolloff > 6000.0 then 0.8 else 0.0),
      (if 0.2 < normEnergy < 0.8 then 1.2 else 0.0)
      + (if normCentroid > 0.3 then 1.2 else 0.0)
      + (if f.rolloff > 4000.0 then 1.0 else 0.0)
      + (if Below(pitchStability, 0.3) then 1.0 else 0.0)
      + (if f.flatness < 0.3 then 1.0 else 0.0),
      (if Abs(normEnergy) < 0.3 then 1.2 else 0.0)
      + (if Abs(normZcr) < 0.3 then 1.2 else 0.0)
      + (if Abs(normCentroid) < 0.3 then 1.2 else 0.0)
      + (if Below(pitchStability, 0.2) then 1.0 else 0.0)
      + (if f.flatness > 0.4 then 1.0 else 0.0))
  }

  /** The +0.3 bonus a category gets for being the previous segment's label. */
  function Bonus(previous: Tally.Option<Emotion>, e: Emotion): real
  {
    if previous == Tally.Some(e) then 0.3 else 0.0
  }

  /**
   * The scores compared: bonus first, then the gate, which zeroes the
   * negative score whenever the RAW negative score is below 5.
   */
  function FinalScores(raw: Scores, previous: Tally.Option<Emotion>): Scores
  {
    Scores(
      if raw.negative < 5.0 then 0.0 else raw.negative + Bonus(previous, Negative),
      raw.joy + Bonus(previous, Joy),
      raw.neutral + Bonus(previous, Neutral))
  }

  /** The label of one segment: the first maximum in the order negative, joy, neutral. */
  function Decide(raw: Scores, previous: Tally.Option<Emotion>): Emotion
  {
    var s := FinalScores(raw, previous);
    [Negative, Joy, Neutral][Tally.ArgMax([s.negative, s.joy, s.neutral])]
  }

  /** The labels of consecutive segments, each decided with its predecessor's bonus. */
  function Classify(raws: seq<Scores>): (r: seq<Emotion>)
    ensures |r| == |raws|
  {
    if raws == [] then []
    else
      var r := Classify(raws[..|raws| - 1]);
      r + [Decide(raws[|raws| - 1], if r == [] then Tally.None else Tally.Some(r[|r| - 1]))]
  }

  /** The whole-call baseline, with `sqrt` the square root `np.std` takes. */
  function BaselineOf(features: seq<Features>, sqrt: real -> real): (b: Baseline)
    requires |features| > 0
    requires forall v :: 0.0 <= v ==> 0.0 <= sqrt(v)
    ensures ValidBaseline(b)
  {
    var energies := seq(|features|, i requires 0 <= i < |features| => features[i].energy);
    var zcrs := seq(|features|, i requires 0 <= i < |features| => features[i].zeroCrossingRate);
    var centroids := seq(|features|, i requires 0 <= i < |features| => features[i].centroid);
    Baseline(
      Mean(energies), sqrt(Variance(energies)),
      Mean(zcrs), sqrt(Variance(zcrs)),
      Mean(centroids), sqrt(Variance(centroids)))
  }

  /** The raw scores of every segment against the whole-call baseline. */
  function AllRawScores(features: seq<Features>, sqrt: real -> real): (r: seq<Scores>)
    requires forall v :: 0.0 <= v ==> 0.0 <= sqrt(v)
    ensures |r| == |features|
  {
    if features == [] then []
    else
      var b := BaselineOf(features, sqrt);
      seq(|features|, i requires 0 <= i < |features| => RawScores(features[i], b))
  }

  /**
   * map_features_to_emotions: one label per feature record. The loop keeps
   * the labels emitted so far and gives the previous one the bonus.
   */
  method MapFeaturesToEmotions(features: seq<Features>, sqrt: real -> real)
    returns (emotions: seq<Emotion>)
    requires forall v :: 0.0 <= v ==> 0.0 <= sqrt(v)
    ensures emotions == Classify(AllRawScores(features, sqrt))
  {
    emotions := [];
    if features == [] {
      // the loop below would not run; the means of empty lists are not needed
      return;
    }
    var baseline := BaselineOf(features, sqrt);
    ghost var raws := AllRawScores(features, sqrt);
    for i := 0 to |features|
      invariant emotions == Classify(raws[..i])
    {
      var raw := RawScores(features[i], baseline);
      var previous := if i > 0 then Tally.Some(emotions[i - 1]) else Tally.None;
      var emotion := DecideSegment(raw, previous);
      ClassifySnoc(raws, i);
      emotions := emotions + [emotion];
    }
    assert raws[..|features|] == raws;
  }

  /**
   * The end of one pass of the classifier loop: the bonus for the previous
   * label, the gate on the raw negative score, and `max` over the dict.
   */
  method DecideSegment(raw: Scores, previous: Tally.Option<Emotion>) returns (emotion: Emotion)
    ensures emotion == Decide(raw, previous)
  {
    var negativeScore, joyScore, neutralScore := raw.negative, raw.joy, raw.neutral;
    if previous.Some? {
      match previous.value
      case Negative => negativeScore := negativeScore + 0.3;
      case Joy => joyScore := joyScore + 0.3;
      case Neutral => neutralScore := neutralScore + 0.3;
    }
    if raw.negative < 5.0 {
      negativeScore := 0.0;
    }
    emotion := [Negative, Joy, Neutral][Tally.ArgMax([negativeScore, joyScore, neutralScore])];
    assert FinalScores(raw, previous) == Scores(negativeScore, joyScore, neutralScore);
  }

  lemma ClassifySnoc(raws: seq<Scores>, i: nat)
    requires i < |raws|
    ensures Classify(raws[..i + 1]) == Classify(raws[..i])
      + [Decide(raws[i], if i == 0 then Tally.None else Tally.Some(Classify(raws[..i])[i - 1]))]
  {
    assert raws[..i + 1][..i] == raws[..i];
  }

  /**
   * The label decided is the first maximum of the final scores in the order
   * negative, joy, neutral: each category wins exactly in its case.
   */
  lemma DecideIsFirstMax(raw: Scores, previous: Tally.Option<Emotion>)
    ensures var s := FinalScores(raw, previous);
      && (Decide(raw, previous) == Negative <==> s.negative >= s.joy && s.negative >= s.neutral)
      && (Decide(raw, previous) == Joy <==> s.joy > s.negative && s.joy >= s.neutral)
      && (Decide(raw, previous) == Neutral <==> s.neutral > s.negative && s.neutral > s.joy)
  {
    var s := FinalScores(raw, previous);
    var xs := [s.negative, s.joy, s.neutral];
    var k := Tally.ArgMax(xs);
    assert xs[0] == s.negative && xs[1] == s.joy && xs[2] == s.neutral;
  }

  /**
   * Below a raw negative score of 5 the negative score compared is exactly 0,
   * bonus included; such a segment is still labelled negative exactly when
   * the joy and neutral scores, bonus included, are both 0.
   */
  lemma GatedSegment(raw: Scores, previous: Tally.Option<Emotion>)
    requires raw.negative < 5.0 && raw.joy >= 0.0 && raw.neutral >= 0.0
    ensures FinalScores(raw, previous).negative == 0.0
    ensures Decide(raw, previous) == Negative <==>
      FinalScores(raw, previous).joy == 0.0 && FinalScores(raw, previous).neutral == 0.0
  {
    DecideIsFirstMax(raw, previous);
  }

  /** Hysteresis: a label the segment would get on its own survives its own bonus. */
  lemma BonusKeepsLabel(raw: Scores, e: Emotion)
    requires Decide(raw, Tally.None) == e
    ensures Decide(raw, Tally.Some(e)) == e
  {
    DecideIsFirstMax(raw, Tally.None);
    DecideIsFirstMax(raw, Tally.Some(e));
  }

  /** The first segment gets no bonus; segment `i > 0` gets its predecessor's. */
  lemma {:induction false} ClassifyStep(raws: seq<Scores>, i: nat)
    requires i < |raws|
    ensures Classify(raws)[i] ==
      Decide(raws[i], if i == 0 then Tally.None else Tally.Some(Classify(raws)[i - 1]))
  {
    var init := raws[..|raws| - 1];
    if i < |raws| - 1 {
      ClassifyStep(init, i);
      assert init[i] == raws[i];
    }
  }

  // ---------------------------------------------------------------------------
  // Smoothing (smooth_emotions)
  // ---------------------------------------------------------------------------

  /** The window `emotions[max(0, i - w//2) : min(n, i + w//2 + 1)]` around `i`. */
  function Window<T>(s: seq<T>, w: nat, i: nat): (r: seq<T>)
    requires i < |s|
    ensures |r| > 0
  {
    var lo := if i - w / 2 > 0 then i - w / 2 else 0;
    var hi := if i + w / 2 + 1 < |s| then i + w / 2 + 1 else |s|;
    s[lo..hi]
  }

  /**
   * Python's resolution of a slice bound `k` on a list of length `n`: a
   * negative bound counts back from the end, then both are clamped to [0, n].
   */
  function SliceBound(n: nat, k: int): (r: nat)
    ensures r <= n
  {
    if k < 0 then (if n + k > 0 then n + k else 0)
    else if k < n then k else n
  }

  /** The window slice at `i` on a list of length `n` is empty, bounds resolved as Python does. */
  predicate EmptyWindowAt(n: nat, w: int, i: nat)
  {
    var start := if i - w / 2 > 0 then i - w / 2 else 0;
    var end := if i + w / 2 + 1 < n then i + w / 2 + 1 else n;
    SliceBound(n, start) >= SliceBound(n, end)
  }

  /**
   * A negative window on a non-empty list leaves at least one window empty:
   * at `i = -(w//2) - 1` the end bound is 0, and when that index is out of
   * range the start bound at `i = 0` already lies at or past the end of the
   * list. Other windows may still be non-empty, since a negative end wraps.
   */
  lemma NegativeWindowEmpty(n: nat, w: int)
    requires w < 0 && n > 0
    ensures exists i :: 0 <= i < n && EmptyWindowAt(n, w, i)
  {
    var k := -(w / 2) - 1;
    assert w / 2 <= -1;
    if k < n {
      assert k + w / 2 + 1 == 0;
      assert EmptyWindowAt(n, w, k);
    } else {
      assert 0 - w / 2 >= n;
      assert EmptyWindowAt(n, w, 0);
    }
  }

  /** With `w = -3` on five labels the window at 0 is `emotions[2:-1]`, two labels long. */
  lemma WrappedWindowNotEmpty()
    ensures !EmptyWindowAt(5, -3, 0)
    ensures SliceBound(5, -1) - SliceBound(5, 2) == 2
  {
  }

  /**
   * smooth_emotions: a list no longer than the window comes back unchanged;
   * otherwise each position gets the first most frequent label of its window.
   * A negative window leaves some window empty (`NegativeWindowEmpty`), so
   * `max` raises (`None`) on a non-empty list; an empty list gives an empty one.
   */
  method SmoothEmotions<T(==)>(emotions: seq<T>, windowSize: int) returns (r: Tally.Option<seq<T>>)
    ensures r.None? <==> windowSize < 0 && emotions != []
    ensures r.Some? ==> |r.value| == |emotions|
    ensures |emotions| <= windowSize ==> r == Tally.Some(emotions)
    ensures windowSize < 0 && emotions == [] ==> r == Tally.Some([])
    ensures 0 <= windowSize < |emotions| ==>
      r.Some? && forall i :: 0 <= i < |emotions| ==> Tally.IsFirstMode(Window(emotions, windowSize, i), r.value[i])
  {
    if |emotions| <= windowSize {
      return Tally.Some(emotions);
    }
    if windowSize < 0 {
      if emotions == [] {
        return Tally.Some([]);
      }
      NegativeWindowEmpty(|emotions|, windowSize);
      return Tally.None;
    }
    var smoothed := WindowModes(emotions, windowSize);
    forall i | 0 <= i < |emotions|
      ensures Tally.IsFirstMode(Window(emotions, windowSize, i), smoothed[i])
    {
      Tally.ModeIsFirstMode(Window(emotions, windowSize, i));
    }
    r := Tally.Some(smoothed);
  }

  /** The smoothing loop: each position's window handed to the dict-and-max count. */
  method WindowModes<T(==)>(emotions: seq<T>, windowSize: nat) returns (smoothed: seq<T>)
    ensures |smoothed| == |emotions|
    ensures forall i :: 0 <= i < |emotions| ==> smoothed[i] == Tally.Mode(Window(emotions, windowSize, i))
  {
    smoothed := [];
    for i := 0 to |emotions|
      invariant |smoothed| == i
      invariant forall k :: 0 <= k < i ==> smoothed[k] == Tally.Mode(Window(emotions, windowSize, k))
    {
      var window := Window(emotions, windowSize, i);
      var mostCommon := Tally.MostFrequent(window);
      smoothed := smoothed + [mostCommon.value];
    }
  }

  /** A label held by a strict majority of a window is what smoothing puts there. */
  lemma SmoothingKeepsMajority<T>(emotions: seq<T>, windowSize: nat, i: nat, x: T, y: T)
    requires i < |emotions|
    requires 2 * Tally.Occ(Window(emotions, windowSize, i), x) > |Window(emotions, windowSize, i)|
    requires Tally.IsFirstMode(Window(emotions, windowSize, i), y)
    ensures y == x
  {
    var w := Window(emotions, windowSize, i);
    Tally.MajorityIsMode(w, x);
    Tally.ModeIsFirstMode(w);
    Tally.FirstModeUnique(w, y, x);
  }

  /**
   * The documented example, window 3: the first position's tie goes to the
   * neutral label that comes first, the last position's to the negative one.
   */
  lemma SmoothingExample(smoothed: seq<Emotion>)
    requires |smoothed| == 5
    requires forall i :: 0 <= i < 5 ==>
      Tally.IsFirstMode(Window([Neutral, Negative, Negative, Negative, Neutral], 3, i), smoothed[i])
    ensures smoothed == [Neutral, Negative, Negative, Negative, Negative]
  {
    var expected := [Neutral, Negative, Negative, Negative, Negative];
    forall i | 0 <= i < 5
      ensures smoothed[i] == expected[i]
    {
      ExamplePosition(i, smoothed[i]);
    }
  }

  /** One position of the documented example. */
  lemma ExamplePosition(i: nat, y: Emotion)
    requires i < 5
    requires Tally.IsFirstMode(Window([Neutral, Negative, Negative, Negative, Neutral], 3, i), y)
    ensures y == [Neutral, Negative, Negative, Negative, Negative][i]
  {
    var s := [Neutral, Negative, Negative, Negative, Neutral];
    if i == 0 {
      ExampleEdges();
      FirstModeOfPair(Neutral, Negative, y);
    } else if i == 4 {
      ExampleEdges();
      FirstModeOfPair(Negative, Neutral, y);
    } else {
      ExampleMajority(i);
      SmoothingKeepsMajority(s, 3, i, Negative, y);
    }
  }

  /** The two edge windows of the documented example hold two different labels. */
  lemma ExampleEdges()
    ensures Window([Neutral, Negative, Negative, Negative, Neutral], 3, 0) == [Neutral, Negative]
    ensures Window([Neutral, Negative, Negative, Negative, Neutral], 3, 4) == [Negative, Neutral]
  {
  }

  /** The three middle windows of the documented example are mostly negative. */
  lemma ExampleMajority(i: nat)
    requires 1 <= i <= 3
    ensures var w := Window([Neutral, Negative, Negative, Negative, Neutral], 3, i);
      2 * Tally.Occ(w, Negative) > |w|
  {
    var s := [Neutral, Negative, Negative, Negative, Neutral];
    if i == 1 {
      assert Window(s, 3, 1) == [Neutral, Negative, Negative];
      assert multiset([Neutral, Negative, Negative])[Negative] == 2;
    } else if i == 2 {
      assert Window(s, 3, 2) == [Negative, Negative, Negative];
      assert multiset([Negative, Negative, Negative])[Negative] == 3;
    } else {
      assert Window(s, 3, 3) == [Negative, Negative, Neutral];
      assert multiset([Negative, Negative, Neutral])[Negative] == 2;
    }
  }

  /** In a window of two different labels the first one wins the tie. */
  lemma FirstModeOfPair<T>(a: T, b: T, y: T)
    requires a != b
    requires Tally.IsFirstMode([a, b], y)
    ensures y == a
  {
    var s := [a, b];
    assert multiset(s)[a] == 1 && multiset(s)[b] == 1;
    assert Tally.Occ(s, s[0]) == Tally.Occ(s, y);
  }
}

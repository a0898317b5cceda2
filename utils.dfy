/**
 * The conversation-quality scorer (utils.py): runs of labels, the most
 * frequent label, the 0-10 call-quality score and the three lists of key
 * moments, all computed from the operator's and the customer's emotion
 * timelines. The DataFrame of the source is modelled by its three aligned
 * columns: the time axis `times` ('Время'), the operator labels `op`
 * ('Эмоция оператора') and the customer labels `cu` ('Эмоция клиента').
 */
module Utils {
  import opened Labels
  import opened Arith
  import Tally

  // ---------------------------------------------------------------------------
  // Runs of target labels (count_emotion_sequences)
  // ---------------------------------------------------------------------------

  /** Length of the run of target labels that ends just before position `i`. */
  function Streak<T(==)>(s: seq<T>, targets: seq<T>, i: nat): (n: nat)
    requires i <= |s|
    ensures n <= i
    ensures n > 0 ==> s[i - 1] in targets
  {
    if i == 0 || s[i - 1] !in targets then 0 else Streak(s, targets, i - 1) + 1
  }

  /**
   * Position `e` closes a maximal run of target labels (the list ends at `e`
   * or holds a non-target there) and that run is at least `minLength` long.
   */
  predicate ClosesLongRun<T(==)>(s: seq<T>, targets: seq<T>, minLength: int, e: nat)
    requires e <= |s|
  {
    (e == |s| || s[e] !in targets) && Streak(s, targets, e) >= minLength
  }

  /** Number of positions before `e` that close a long run. */
  function LongRunsBefore<T(==)>(s: seq<T>, targets: seq<T>, minLength: int, e: nat): nat
    requires e <= |s| + 1
  {
    if e == 0 then 0
    else
      LongRunsBefore(s, targets, minLength, e - 1)
      + (if ClosesLongRun(s, targets, minLength, e - 1) then 1 else 0)
  }

  /** The number of maximal runs of target labels at least `minLength` long. */
  function LongRuns<T(==)>(s: seq<T>, targets: seq<T>, minLength: int): nat
  {
    LongRunsBefore(s, targets, minLength, |s| + 1)
  }

  /** count_emotion_sequences: the streak counter of the source. */
  method CountEmotionSequences<T(==)>(emotions: seq<T>, targets: seq<T>, minLength: int)
    returns (count: nat)
    ensures count == LongRuns(emotions, targets, minLength)
  {
    count := 0;
    var streak: nat := 0;
    for i := 0 to |emotions|
      invariant count == LongRunsBefore(emotions, targets, minLength, i)
      invariant streak == Streak(emotions, targets, i)
    {
      if emotions[i] in targets {
        streak := streak + 1;
      } else {
        if streak >= minLength {
          count := count + 1;
        }
        streak := 0;
      }
    }
    // a run that reaches the end of the list
    if streak >= minLength {
      count := count + 1;
    }
  }

  /**
   * The runs counted before `e`, each at least `minLength` long, and the run
   * still open at `e` are disjoint stretches of `s[..e]`.
   */
  lemma {:induction false} LongRunsBeforeBound<T>(s: seq<T>, targets: seq<T>, minLength: int, e: nat)
    requires minLength >= 1 && e <= |s|
    ensures LongRunsBefore(s, targets, minLength, e) * minLength + Streak(s, targets, e) <= e
  {
    if e > 0 {
      LongRunsBeforeBound(s, targets, minLength, e - 1);
      var c := LongRunsBefore(s, targets, minLength, e - 1);
      if ClosesLongRun(s, targets, minLength, e - 1) {
        assert (c + 1) * minLength == c * minLength + minLength;
      }
    }
  }

  /**
   * With `minLength >= 1` the counted runs are disjoint, so there are at most
   * `|s| / minLength` of them; in particular an empty list has none.
   */
  lemma LongRunsBound<T>(s: seq<T>, targets: seq<T>, minLength: int)
    requires minLength >= 1
    ensures LongRuns(s, targets, minLength) * minLength <= |s|
    ensures s == [] ==> LongRuns(s, targets, minLength) == 0
  {
    LongRunsBeforeBound(s, targets, minLength, |s|);
    var c := LongRunsBefore(s, targets, minLength, |s|);
    if ClosesLongRun(s, targets, minLength, |s|) {
      assert (c + 1) * minLength == c * minLength + minLength;
    }
  }

  /** The two documented examples, with `min_length = 2`. */
  lemma LongRunsExamples()
    ensures LongRuns([Negative, Negative, Neutral], [Negative], 2) == 1
    ensures LongRuns([Negative, Neutral, Negative], [Negative], 2) == 0
  {
    var a := [Negative, Negative, Neutral];
    assert Streak(a, [Negative], 2) == 2;
    assert Streak(a, [Negative], 3) == 0;
    assert LongRunsBefore(a, [Negative], 2, 2) == 0;
    assert LongRunsBefore(a, [Negative], 2, 3) == 1;
    var b := [Negative, Neutral, Negative];
    assert Streak(b, [Negative], 1) == 1;
    assert Streak(b, [Negative], 2) == 0;
    assert Streak(b, [Negative], 3) == 1;
    assert LongRunsBefore(b, [Negative], 2, 3) == 0;
  }

  // ---------------------------------------------------------------------------
  // The most frequent label (get_predominant_emotion)
  // ---------------------------------------------------------------------------

  /**
   * get_predominant_emotion: the first most frequent label; `None` for an
   * empty list, where `max` raises.
   */
  method PredominantEmotion<T(==)>(emotions: seq<T>) returns (r: Tally.Option<T>)
    ensures emotions == [] <==> r == Tally.None
    ensures r.Some? ==> Tally.IsFirstMode(emotions, r.value)
  {
    r := Tally.MostFrequent(emotions);
    if r.Some? {
      Tally.ModeIsFirstMode(emotions);
    }
  }

  // ---------------------------------------------------------------------------
  // The call-quality score (calculate_call_quality)
  // ---------------------------------------------------------------------------

  /** Number of positions below `n` where both parties share a calm label. */
  function CalmMatchesBefore(op: seq<Emotion>, cu: seq<Emotion>, n: nat): nat
    requires n <= |op| == |cu|
  {
    if n == 0 then 0
    else CalmMatchesBefore(op, cu, n - 1) + (if op[n - 1] == cu[n - 1] && Calm(op[n - 1]) then 1 else 0)
  }

  /**
   * Number of positions `i` below `n`, `i >= 1`, where the operator is
   * negative right after the customer was: the operator "mirrors" the customer.
   */
  function MirrorsBefore(op: seq<Emotion>, cu: seq<Emotion>, n: nat): nat
    requires n <= |op| == |cu|
  {
    if n <= 1 then 0
    else MirrorsBefore(op, cu, n - 1) + (if cu[n - 2] == Negative && op[n - 1] == Negative then 1 else 0)
  }

  /** Fraction of positions with a shared calm label; 0 for empty timelines. */
  function PositiveMatchRate(op: seq<Emotion>, cu: seq<Emotion>): real
    requires |op| == |cu|
  {
    if |op| > 0 then CalmMatchesBefore(op, cu, |op|) as real / |op| as real else 0.0
  }

  /** Number of calm labels in `s`. */
  function CalmCount(s: seq<Emotion>): nat
  {
    Tally.Occ(s, Neutral) + Tally.Occ(s, Joy)
  }

  /**
   * The first `n // 3` customer labels and the last ones from `n + (-n) // 3`
   * on; Dafny's `/` by a positive divisor is Python's floor division.
   */
  function StartWindow(cu: seq<Emotion>): seq<Emotion>
  {
    cu[..|cu| / 3]
  }

  function EndWindow(cu: seq<Emotion>): seq<Emotion>
  {
    cu[|cu| + (-|cu|) / 3..]
  }

  /**
   * The recovery bonus: 2.0 for a call of more than 10 segments whose customer
   * is negative in more than 30% of the first third and calm in more than 70%
   * of the last third.
   */
  function RecoveryBonus(cu: seq<Emotion>): real
  {
    if |cu| > 10 then
      var start, end := StartWindow(cu), EndWindow(cu);
      if Tally.Occ(start, Negative) as real / |start| as real > 0.3
         && CalmCount(end) as real / |end| as real > 0.7
      then 2.0 else 0.0
    else 0.0
  }

  /** The score before clamping: 5.0 and the seven adjustments, in order. */
  function RawScore(op: seq<Emotion>, cu: seq<Emotion>): real
    requires |op| == |cu|
  {
    5.0
    - Min(2.0, LongRuns(op, [Negative], 2) as real * 0.3)
    - Min(1.0, LongRuns(cu, [Negative], 2) as real * 0.1)
    + Min(1.0, LongRuns(op, [Joy], 2) as real * 0.2)
    + Min(2.0, LongRuns(cu, [Joy], 2) as real * 0.4)
    + Min(2.0, PositiveMatchRate(op, cu) * 3.0)
    - Min(1.0, MirrorsBefore(op, cu, |op|) as real * 0.3)
    + RecoveryBonus(cu)
  }

  /** The call-quality score: the raw score clamped to [0, 10]. */
  function QualityScore(op: seq<Emotion>, cu: seq<Emotion>): real
    requires |op| == |cu|
  {
    Max(0.0, Min(10.0, RawScore(op, cu)))
  }

  /** The `positive_match` loop: positions where both parties share a calm label. */
  method CountCalmMatches(op: seq<Emotion>, cu: seq<Emotion>) returns (count: nat)
    requires |op| == |cu|
    ensures count == CalmMatchesBefore(op, cu, |op|)
  {
    count := 0;
    for i := 0 to |op|
      invariant count == CalmMatchesBefore(op, cu, i)
    {
      if op[i] == cu[i] && Calm(op[i]) {
        count := count + 1;
      }
    }
  }

  /** The `negative_mirror` loop over `range(1, n)`. */
  method CountMirrors(op: seq<Emotion>, cu: seq<Emotion>) returns (count: nat)
    requires |op| == |cu|
    ensures count == MirrorsBefore(op, cu, |op|)
  {
    var n := |op|;
    count := 0;
    var i := 1;
    while i < n
      invariant 1 <= i <= if n == 0 then 1 else n
      invariant count == MirrorsBefore(op, cu, if i <= n then i else n)
    {
      if cu[i - 1] == Negative && op[i] == Negative {
        count := count + 1;
      }
      i := i + 1;
    }
  }

  /** calculate_call_quality: `score` adjusted step by step. */
  method CalculateCallQuality(op: seq<Emotion>, cu: seq<Emotion>) returns (score: real)
    requires |op| == |cu|
    ensures score == QualityScore(op, cu)
  {
    var n := |op|;
    score := 5.0;

    var operatorNegative := CountEmotionSequences(op, [Negative], 2);
    var customerNegative := CountEmotionSequences(cu, [Negative], 2);
    score := score - Min(2.0, operatorNegative as real * 0.3);
    score := score - Min(1.0, customerNegative as real * 0.1);

    var operatorPositive := CountEmotionSequences(op, [Joy], 2);
    var customerPositive := CountEmotionSequences(cu, [Joy], 2);
    score := score + Min(1.0, operatorPositive as real * 0.2);
    score := score + Min(2.0, customerPositive as real * 0.4);

    var positiveMatch := CountCalmMatches(op, cu);
    var positiveMatchRate := if n > 0 then positiveMatch as real / n as real else 0.0;
    assert positiveMatchRate == PositiveMatchRate(op, cu);
    score := score + Min(2.0, positiveMatchRate * 3.0);

    var negativeMirror := CountMirrors(op, cu);
    score := score - Min(1.0, negativeMirror as real * 0.3);
    ghost var beforeBonus := score;
    assert beforeBonus + RecoveryBonus(cu) == RawScore(op, cu);

    if n > 10 {
      var start, end := cu[..n / 3], cu[n + (-n) / 3..];
      var startCustomerNegative := Tally.Occ(start, Negative) as real / |start| as real;
      var endCustomerPositive := CalmCount(end) as real / |end| as real;
      if startCustomerNegative > 0.3 && endCustomerPositive > 0.7 {
        score := score + 2.0;
      }
    }
    assert score == RawScore(op, cu);

    score := Max(0.0, Min(10.0, score));
  }

  /**
   * The penalties add up to at most 4 (2 + 1 + 1) and the bonuses to at most 7
   * (1 + 2 + 2 + 2), so the raw score lies in [1, 12]: the lower clamp never
   * applies, the score always lies in [0, 10], and in fact in [1, 10].
   */
  lemma ScoreBounds(op: seq<Emotion>, cu: seq<Emotion>)
    requires |op| == |cu|
    ensures 1.0 <= RawScore(op, cu) <= 12.0
    ensures QualityScore(op, cu) == Min(10.0, RawScore(op, cu))
    ensures 1.0 <= QualityScore(op, cu) <= 10.0
  {
    var rate := PositiveMatchRate(op, cu);
    assert rate >= 0.0;
  }

  /** Empty timelines have no runs, no matches and no mirrors: the score is 5.0. */
  lemma EmptyCallScore()
    ensures QualityScore([], []) == 5.0
  {
    LongRunsBound([], [Negative], 2);
    LongRunsBound([], [Joy], 2);
  }

  /**
   * For more than 10 segments the two windows of the recovery check are
   * non-empty and disjoint: the first `n // 3` and the last `ceil(n / 3)`.
   */
  lemma RecoveryWindows(cu: seq<Emotion>)
    requires |cu| > 10
    ensures |StartWindow(cu)| == |cu| / 3 > 0
    ensures |EndWindow(cu)| == (|cu| + 2) / 3 > 0
    ensures |StartWindow(cu)| + |EndWindow(cu)| <= |cu|
  {
  }

  /** A bonus of exactly 2.0, and only when the call has more than 10 segments. */
  lemma RecoveryBonusValues(cu: seq<Emotion>)
    ensures RecoveryBonus(cu) == 0.0 || RecoveryBonus(cu) == 2.0
    ensures RecoveryBonus(cu) == 2.0 ==> |cu| > 10
  {
  }

  // ---------------------------------------------------------------------------
  // Key moments (extract_key_moments)
  // ---------------------------------------------------------------------------

  /** The three kinds of key moment, in the order the source lists them. */
  datatype Moment =
    | CustomerTurnsNegative  // 'негатив_клиента'
    | OperatorFailsToAdapt   // 'плохие_ответы'
    | OperatorCalms          // 'хорошие_ответы'

  /** Position `i` is a key moment of kind `kind`: a fixed-lag pattern. */
  predicate IsMoment(kind: Moment, op: seq<Emotion>, cu: seq<Emotion>, i: nat)
    requires i < |op| == |cu|
  {
    match kind
    case CustomerTurnsNegative => i >= 1 && cu[i] == Negative && cu[i - 1] != Negative
    case OperatorFailsToAdapt => i >= 1 && cu[i - 1] == Negative && !Calm(op[i])
    case OperatorCalms => i >= 2 && cu[i - 2] == Negative && Calm(op[i - 1]) && Calm(cu[i])
  }

  /** The positions below `n` that are key moments of kind `kind`, in order. */
  function MomentsBefore(kind: Moment, op: seq<Emotion>, cu: seq<Emotion>, n: nat): (r: seq<nat>)
    requires n <= |op| == |cu|
    ensures forall k :: 0 <= k < |r| ==> r[k] < n
  {
    if n == 0 then []
    else MomentsBefore(kind, op, cu, n - 1) + (if IsMoment(kind, op, cu, n - 1) then [n - 1] else [])
  }

  /** The time stamps at the given positions. */
  function TimesAt(times: seq<real>, positions: seq<nat>): (r: seq<real>)
    requires forall k :: 0 <= k < |positions| ==> positions[k] < |times|
    ensures |r| == |positions|
  {
    seq(|positions|, k requires 0 <= k < |positions| => times[positions[k]])
  }

  /** A position is listed exactly when it is a key moment, and in increasing order. */
  lemma {:induction false} MomentsBeforeSpec(kind: Moment, op: seq<Emotion>, cu: seq<Emotion>, n: nat)
    requires n <= |op| == |cu|
    ensures forall i :: 0 <= i < n ==> (i in MomentsBefore(kind, op, cu, n) <==> IsMoment(kind, op, cu, i))
    ensures forall i :: i in MomentsBefore(kind, op, cu, n) ==> i < n
    ensures forall j, k :: 0 <= j < k < |MomentsBefore(kind, op, cu, n)| ==>
              MomentsBefore(kind, op, cu, n)[j] < MomentsBefore(kind, op, cu, n)[k]
  {
    if n > 0 {
      MomentsBeforeSpec(kind, op, cu, n - 1);
    }
  }

  /** The first segment is never a key moment, the first two never a calming one. */
  lemma EarlyPositionsNeverListed(kind: Moment, op: seq<Emotion>, cu: seq<Emotion>)
    requires |op| == |cu|
    ensures 0 !in MomentsBefore(kind, op, cu, |op|)
    ensures 1 !in MomentsBefore(OperatorCalms, op, cu, |op|)
  {
    MomentsBeforeSpec(kind, op, cu, |op|);
    MomentsBeforeSpec(OperatorCalms, op, cu, |op|);
  }

  /**
   * One loop of extract_key_moments: `range(2, len(df))` for the calming
   * pattern, `range(1, len(df))` for the other two.
   */
  method CollectMoments(kind: Moment, times: seq<real>, op: seq<Emotion>, cu: seq<Emotion>)
    returns (points: seq<real>)
    requires |times| == |op| == |cu|
    ensures points == TimesAt(times, MomentsBefore(kind, op, cu, |op|))
  {
    var n := |op|;
    var from := if kind == OperatorCalms then 2 else 1;
    points := [];
    if n <= from {
      EarlyMomentsEmpty(kind, op, cu, n);
      return;
    }
    EarlyMomentsEmpty(kind, op, cu, from);
    for i := from to n
      invariant points == TimesAt(times, MomentsBefore(kind, op, cu, i))
    {
      var hit := match kind
        case CustomerTurnsNegative => cu[i] == Negative && cu[i - 1] != Negative
        case OperatorFailsToAdapt => cu[i - 1] == Negative && !(op[i] == Neutral || op[i] == Joy)
        case OperatorCalms => cu[i - 2] == Negative && (op[i - 1] == Neutral || op[i - 1] == Joy)
                              && (cu[i] == Neutral || cu[i] == Joy);
      assert hit == IsMoment(kind, op, cu, i);
      if hit {
        TimesAtSnoc(times, MomentsBefore(kind, op, cu, i), i);
        points := points + [times[i]];
      }
    }
  }

  /** Listing one more position appends its time stamp. */
  lemma TimesAtSnoc(times: seq<real>, positions: seq<nat>, i: nat)
    requires forall k :: 0 <= k < |positions| ==> positions[k] < |times|
    requires i < |times|
    ensures TimesAt(times, positions + [i]) == TimesAt(times, positions) + [times[i]]
  {
  }

  /** Below `from` there is nothing to list, so a loop may start there. */
  lemma EarlyMomentsEmpty(kind: Moment, op: seq<Emotion>, cu: seq<Emotion>, m: nat)
    requires m <= |op| == |cu|
    requires m <= (if kind == OperatorCalms then 2 else 1)
    ensures MomentsBefore(kind, op, cu, m) == []
  {
  }

  /**
   * extract_key_moments: the time stamps of the customer turning negative, of
   * the operator failing to adapt, and of the operator calming the customer.
   */
  method ExtractKeyMoments(times: seq<real>, op: seq<Emotion>, cu: seq<Emotion>)
    returns (negativePoints: seq<real>, badResponsePoints: seq<real>, goodResponses: seq<real>)
    requires |times| == |op| == |cu|
    ensures negativePoints == TimesAt(times, MomentsBefore(CustomerTurnsNegative, op, cu, |op|))
    ensures badResponsePoints == TimesAt(times, MomentsBefore(OperatorFailsToAdapt, op, cu, |op|))
    ensures goodResponses == TimesAt(times, MomentsBefore(OperatorCalms, op, cu, |op|))
  {
    negativePoints := CollectMoments(CustomerTurnsNegative, times, op, cu);
    badResponsePoints := CollectMoments(OperatorFailsToAdapt, times, op, cu);
    goodResponses := CollectMoments(OperatorCalms, times, op, cu);
  }

  /**
   * The end-to-end example: the customer is negative at index 3 and neutral
   * elsewhere, the operator is joyful at index 4 and neutral elsewhere; the
   * de-escalation list holds index 5's time stamp, once.
   */
  lemma DeEscalationExample(times: seq<real>)
    requires |times| == 6
    ensures TimesAt(times, MomentsBefore(OperatorCalms,
              [Neutral, Neutral, Neutral, Neutral, Joy, Neutral],
              [Neutral, Neutral, Neutral, Negative, Neutral, Neutral], 6)) == [times[5]]
  {
    var op := [Neutral, Neutral, Neutral, Neutral, Joy, Neutral];
    var cu := [Neutral, Neutral, Neutral, Negative, Neutral, Neutral];
    assert MomentsBefore(OperatorCalms, op, cu, 5) == [];
  }
}

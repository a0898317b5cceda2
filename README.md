# CallCenterIntelligence: the analysis core in Dafny

CallCenterIntelligence analyses recorded customer-service calls. It splits a
call into the operator's and the customer's voices, transcribes it, labels
each second of each voice with one of three emotions (`негативные` negative,
`нейтрально` neutral, `радость` joy), smooths the labels, and scores the
conversation. This project models the deterministic part of that pipeline
and proves what each step promises:

- `utils.py`, module `Utils` (`utils.dfy`): runs of target emotions, the most
  frequent emotion, the 0–10 call-quality score and the three lists of key
  moments. The DataFrame is modelled as three aligned columns: the time axis,
  the operator's labels and the customer's labels.
- `emotion_analysis.py`, module `EmotionAnalysis` (`emotion_analysis.dfy`):
  - the mapping of recogniser scores onto the three categories, with its
    neutral fallback;
  - label statistics and the dominant label;
  - the one-second segmentation of `extract_features`;
  - the rule-based classifier `map_features_to_emotions`, with its +0.3
    hysteresis bonus and its gate on the negative score;
  - the majority-vote smoothing `smooth_emotions`.
- `audio_processing.py`, module `AudioProcessing` (`audio_processing.dfy`):
  - peak normalisation;
  - the defensive cutoff clamping and the fallbacks of the band-pass filter;
  - the soft operator/customer masks of the mono speaker split, built in place
    in an array by the source's two loops;
  - the stereo/mono dispatch.
- `transcription.py`, module `Transcription` (`transcription.dfy`): the
  sentence split that alternates sentences between operator and customer,
  the `speaker: text` rendering of a transcript, and the file-extension
  guard.

Shared modules:

- `Labels` (`labels.dfy`): the three emotion categories.
- `Tally` (`tally.dfy`): the dict-counting loop the source uses everywhere,
  and Python's `max(d.items(), key=...)`, which keeps the first maximal item
  and so breaks ties toward the label that occurs first.
- `Text` (`text.dfy`): `str.split`, `join`, `strip`, `lower` and `endswith`.
- `Arith` (`arith.dfy`): `min`, `max`, `abs`, `np.sum`, `np.mean`, `np.min`
  and `np.max` over exact reals, with the small facts the proofs use.

Python exceptions (`max` of an empty list, `np.max` of an empty array,
division by zero) become `Tally.Option` results. The code's behaviour is the
reference throughout. For example, `Text.Split` keeps empty pieces as
`str.split` does, `Text.Strip` removes exactly what `str.isspace` accepts,
and the floor division `-len(df)//3` is modelled as written.

## Model

| member | source | states |
|---|---|---|
| Utils.Streak | utils.py:20-26 | the open streak before position `i` is at most `i` long and is non-empty only right after a target label |
| Utils.CountEmotionSequences | utils.py:17-32 | the streak loop returns the number of maximal runs of target labels at least `min_length` long, a run reaching the end of the list included |
| Utils.LongRunsBeforeBound | utils.py:20-26 | the runs counted so far, each at least `min_length` long, and the open streak are disjoint stretches of the prefix scanned |
| Utils.LongRunsBound | utils.py:17-32 | for `min_length >= 1`, count × `min_length` ≤ length of the list, and an empty list has no runs |
| Utils.LongRunsExamples | utils.py:17-32 | with `min_length = 2`: `[neg, neg, neu]` has one run and `[neg, neu, neg]` none |
| Utils.PredominantEmotion | utils.py:44-50 | no result exactly for an empty list (where `max` raises); otherwise a most frequent label, ties going to the one that occurs first |
| Utils.CountCalmMatches | utils.py:89-93 | the `positive_match` loop counts the positions where both parties share a neutral or joyful label |
| Utils.CountMirrors | utils.py:99-103 | the `negative_mirror` loop counts the positions `i >= 1` where the operator is negative right after the customer was |
| Utils.CalculateCallQuality | utils.py:63-125 | the score is 5.0 adjusted in the source's order (the four capped run terms, the capped match bonus, the capped mirror penalty and the recovery bonus), then clamped to [0, 10] |
| Utils.ScoreBounds | utils.py:66-123 | penalties total at most 4 (2 + 1 + 1) and bonuses at most 7 (1 + 2 + 2 + 2), so the score before clamping lies in [1, 12], the lower clamp never applies and the score lies in [1, 10] |
| Utils.EmptyCallScore | utils.py:89-96 | empty timelines have no runs, no matches and no mirrors and score exactly 5.0 |
| Utils.RecoveryWindows | utils.py:109-111 | for more than 10 rows the start window is the first `n // 3` rows and the end window the last ⌈n/3⌉ rows (floor division of `-n`); both are non-empty and they do not overlap |
| Utils.RecoveryBonusValues | utils.py:109-120 | the recovery bonus is 0 or exactly 2.0, and 2.0 only for more than 10 rows |
| Utils.MomentsBeforeSpec | utils.py:139-164 | a position is listed exactly when it matches the moment's fixed-lag pattern, and positions are listed in strictly increasing order |
| Utils.EarlyPositionsNeverListed | utils.py:141-158 | index 0 is never a key moment, and index 1 is never a calming moment |
| Utils.CollectMoments | utils.py:139-162 | each of the three loops returns the time stamps of exactly the matching positions, in index order |
| Utils.ExtractKeyMoments | utils.py:137-166 | the three lists: the customer turning negative, the operator not adapting after a negative customer, and the operator calming the customer |
| Utils.DeEscalationExample | utils.py:157-162 | a customer negative at index 3 and an operator joyful at index 4 give one calming moment, at index 5's time stamp |
| Tally.DistinctSpec | utils.py:44-48 | the keys of the filled dict are exactly the labels of the list, each once |
| Tally.DistinctSnoc | utils.py:45-48 | scanning one more label appends it as a key unless it already is one |
| Tally.CountLabels | utils.py:44-48 | the loop leaves the keys in order of first occurrence, each mapped to its number of occurrences |
| Tally.ArgMax | emotion_analysis.py:85 | `max` over item values picks an item no smaller than any other and strictly larger than every one before it |
| Tally.MostFrequent | utils.py:50 | `max` over the filled dict gives no result exactly for an empty list, and otherwise the label `Mode` defines |
| Tally.ModeIsFirstMode | utils.py:50 | the label `max` picks has the maximal count, and no label with the same count occurs earlier |
| Tally.FirstModeUnique | utils.py:50 | at most one label is the first most frequent one |
| Tally.MajorityIsMode | emotion_analysis.py:342-349 | a label held by more than half of a list is the one `max` picks |
| EmotionAnalysis.MapEmotions | emotion_analysis.py:70-90 | an empty dict gives `['нейтрально']`; otherwise exactly one label, the category of a highest-scoring key, the first such key winning ties, with unknown keys mapped to neutral |
| EmotionAnalysis.AnalyzeEmotions | emotion_analysis.py:36-58 | a recognition gives its mapped labels; without a recogniser or on failure the result is `len(audio) // sample_rate` neutral labels, none for a negative rate, and an error for a zero rate |
| EmotionAnalysis.CountsAddUp | emotion_analysis.py:102-107 | the counts over the distinct labels add up to the length of the list |
| EmotionAnalysis.GetEmotionStatistics | emotion_analysis.py:102-110 | the keys are exactly the labels present, each mapped to count/total; the shares sum to 1 over the keys for a non-empty list, and an empty list gives `{}` |
| EmotionAnalysis.SharesSumToOne | emotion_analysis.py:109-110 | shares count/total over the distinct labels of a non-empty list sum to 1 |
| EmotionAnalysis.GetDominantEmotion | emotion_analysis.py:122-129 | no result exactly for an empty list; otherwise a most frequent label, first occurrence winning ties |
| EmotionAnalysis.SegmentSpans | emotion_analysis.py:143-157 | window = rate, hop = rate // 2; an error exactly for a zero hop (a rate of 0 or 1). With a full window, the `(len - window) // hop + 1` spans `[i·hop, i·hop + window)` all fit. Otherwise `[0, len)` is kept exactly when `len >= window // 2` |
| EmotionAnalysis.CutSegments | emotion_analysis.py:150-157 | the segment loop produces full windows when the signal holds one, and otherwise the single short span or nothing |
| EmotionAnalysis.FullSpansFit | emotion_analysis.py:147-152 | every full span before the computed segment count ends within the signal |
| EmotionAnalysis.Variance | emotion_analysis.py:251 | `np.var` of a non-empty vector is never negative |
| EmotionAnalysis.RawScores | emotion_analysis.py:254-299 | the weighted threshold hits give a negative score in [0, 7.6], a joy score in [0, 5.4] and a neutral score in [0, 5.6] |
| EmotionAnalysis.BaselineOf | emotion_analysis.py:222-232 | the whole-call standard deviations are non-negative, so every z-score denominator `std + 1e-6` is positive |
| EmotionAnalysis.Classify | emotion_analysis.py:234-319 | one label per segment |
| EmotionAnalysis.MapFeaturesToEmotions | emotion_analysis.py:219-319 | the loop emits, for each feature record, the label decided from its raw scores with the previous emitted label's bonus |
| EmotionAnalysis.DecideSegment | emotion_analysis.py:308-316 | bonus, then gate, then `max` give the label `Decide` defines |
| EmotionAnalysis.DecideIsFirstMax | emotion_analysis.py:302-316 | each label wins exactly when it is the first maximum of the final scores in the order negative, joy, neutral |
| EmotionAnalysis.GatedSegment | emotion_analysis.py:308-316 | below a raw negative score of 5 the compared negative score is exactly 0, bonus included; such a segment is labelled negative exactly when the joy and neutral scores, bonus included, are both 0 |
| EmotionAnalysis.BonusKeepsLabel | emotion_analysis.py:308-310 | a label a segment would get without a bonus survives when it is also the previous label |
| EmotionAnalysis.ClassifyStep | emotion_analysis.py:309-317 | the first segment gets no bonus; segment `i > 0` gets the bonus of the label emitted for segment `i - 1` |
| EmotionAnalysis.Window | emotion_analysis.py:337-339 | the clipped window around a position is never empty |
| EmotionAnalysis.SmoothEmotions | emotion_analysis.py:332-352 | a list no longer than the window comes back unchanged; for a non-negative window the length is kept and each position gets the first most frequent label of its clipped window; a negative window gives an error (`max` of an empty dict) for a non-empty list and `[]` for an empty one |
| EmotionAnalysis.NegativeWindowEmpty | emotion_analysis.py:336-339 | for a negative window on a non-empty list some position's slice is empty once its bounds are resolved as Python does (a negative end counts back from the end): the position `-(w//2) - 1`, whose end is 0, or position 0 when that one is out of range |
| EmotionAnalysis.WrappedWindowNotEmpty | emotion_analysis.py:337-339 | not every window of a negative size is empty: with `w = -3` on five labels the slice at 0 is `emotions[2:-1]`, two labels long |
| EmotionAnalysis.WindowModes | emotion_analysis.py:335-352 | the smoothing loop gives each position the label `max` picks from its window's count dict |
| EmotionAnalysis.SmoothingKeepsMajority | emotion_analysis.py:341-350 | a label held by a strict majority of a window is what smoothing puts at that position |
| EmotionAnalysis.SmoothingExample | emotion_analysis.py:332-352 | with window 3, `[neu, neg, neg, neg, neu]` smooths to `[neu, neg, neg, neg, neg]` |
| EmotionAnalysis.FirstModeOfPair | emotion_analysis.py:349 | in a window of two different labels the first wins the tie |
| AudioProcessing.Peak | audio_processing.py:190 | `np.max(np.abs(audio))` bounds every sample's magnitude and is attained |
| AudioProcessing.Normalize | audio_processing.py:190-192 | an error exactly for an empty signal; the length is kept; a silent signal comes back unchanged; otherwise every sample lies in [-1, 1] |
| AudioProcessing.ScaledWithinOne | audio_processing.py:190-191 | dividing by a positive peak brings every sample into [-1, 1] |
| AudioProcessing.SilentIffZeroPeak | audio_processing.py:190-192 | the peak is 0 exactly when every sample is 0 |
| AudioProcessing.NormalizedPeakIsOne | audio_processing.py:190-191 | a non-silent signal comes out with peak exactly 1 |
| AudioProcessing.NormalizeIdempotent | audio_processing.py:190-192 | normalising twice is normalising once |
| AudioProcessing.ClampCutoffs | audio_processing.py:146-150 | `lowcut >= 20` Hz and `highcut >= lowcut + 30` Hz; cutoffs already inside their ranges are kept |
| AudioProcessing.ClampedBand | audio_processing.py:153-158 | an error exactly for a zero rate; otherwise `low` is in [0.001, 0.249], `high >= low + 0.001` and `high <= 0.25` |
| AudioProcessing.Recentre | audio_processing.py:161-164 | the width is at least 0.01; a narrower band is replaced by the band of width exactly 0.01 with the same midpoint; a wide enough band is kept |
| AudioProcessing.NormalizedBand | audio_processing.py:143-164 | the band handed to `butter` has width at least 0.01 and `0 < high < 1` |
| AudioProcessing.Bandpass | audio_processing.py:142-178 | the input comes back unchanged when the rate is 0 or the band cannot be designed; any other result lies in [-1, 1] |
| AudioProcessing.HighCutoffBound | audio_processing.py:153-164 | from a 200 Hz rate up, the upper normalised cutoff is at most 0.249 |
| AudioProcessing.LowRateBand | audio_processing.py:143-164 | at 100 Hz every pair of cutoffs becomes the band [0.2445, 0.2545], above 0.249 |
| AudioProcessing.NarrowLowBandUnfiltered | audio_processing.py:161-178 | at 16 kHz a 20–50 Hz request is re-centred to a `low` below 0, so `butter` fails and the data comes back unfiltered |
| AudioProcessing.FillFrames | audio_processing.py:80-91 | the first mask loop leaves every sample at the level of the last frame written over it, 0 if none |
| AudioProcessing.FadeEdges | audio_processing.py:94-111 | the cross-fade loop turns the start of every frame after the first into a linear ramp from the sample before it to the frame's first sample |
| AudioProcessing.BuildMask | audio_processing.py:73-111 | the two loops over a zeroed array produce the mask `Mask` defines |
| AudioProcessing.PreMaskIsLastFrame | audio_processing.py:80-91 | before cross-fading, a covered sample holds the level of the highest-index frame containing it |
| AudioProcessing.PreMaskUncovered | audio_processing.py:73-91 | a sample no frame covers keeps 0 |
| AudioProcessing.RampsDisjoint | audio_processing.py:94-97 | a fade shorter than the hop makes every sample lie in at most one ramp |
| AudioProcessing.RampEndpoints | audio_processing.py:100-104 | the two values each ramp reads are still the levels of frames `r - 1` and `r` |
| AudioProcessing.CrossFade | audio_processing.py:94-111 | in the finished mask, the ramp at frame `r` runs linearly from frame `r - 1`'s level to frame `r`'s |
| AudioProcessing.LinspaceBetween | audio_processing.py:100-104 | every ramp value lies between bounds that both ends respect |
| AudioProcessing.LinspaceComplement | audio_processing.py:100-111 | the customer's ramp is 1 minus the operator's ramp when their ends are complementary |
| AudioProcessing.MasksComplement | audio_processing.py:73-111 | on every covered sample the two masks add up to 1 and each lies in [0.2, 0.8], cross-fades included |
| AudioProcessing.MaskZeroPastFrames | audio_processing.py:73-111 | samples past the last frame's end keep 0 in the mask |
| AudioProcessing.FrameEnergies | audio_processing.py:66-67 | one energy per frame |
| AudioProcessing.FractionMonotone | audio_processing.py:70 | min-max normalisation keeps the order of energies, is 0 at the minimum and non-negative |
| AudioProcessing.LevelsComplementary | audio_processing.py:84-91 | each frame gives 0.8/0.2 or 0.2/0.8: complementary levels within [0.2, 0.8] |
| AudioProcessing.QuietestFrameIsCustomer | audio_processing.py:70-91 | the quietest frame is never above the threshold and goes to the customer |
| AudioProcessing.RescaledNonNegative | audio_processing.py:70-77 | normalised energies, and so the threshold's mean, are never negative |
| AudioProcessing.LoudnessMonotone | audio_processing.py:70-84 | a frame at least as energetic as one above the threshold is above it too |
| AudioProcessing.EqualEnergiesAllCustomer | audio_processing.py:70-91 | when all energies are equal, 0/0 makes every comparison false and every frame goes to the customer |
| AudioProcessing.Downmix | audio_processing.py:55-56 | averaging the channels keeps the number of samples |
| AudioProcessing.FrameParameters | audio_processing.py:62-63 | where the hop is positive, the 5 ms fade is shorter than the 10 ms hop, which is no longer than the 25 ms frame |
| AudioProcessing.FrameCount | audio_processing.py:66 | the frames `librosa.util.frame` cuts fit in the signal |
| AudioProcessing.MonoSplit | audio_processing.py:53-126 | both results are as long as the down-mixed signal and every sample lies in [-1, 1]; an empty signal gives two empty results; when the hop is zero or the signal is shorter than one frame, both results are the normalised signal |
| AudioProcessing.SeparateSpeakersFromMono | audio_processing.py:53-126 | the in-place mask construction gives the split `MonoSplit` defines |
| AudioProcessing.SplitMasks | audio_processing.py:73-111 | the split's masks add up to 1 and lie in [0.2, 0.8] on covered samples, and are both 0 past the last frame |
| AudioProcessing.SeparateChannels | audio_processing.py:24-31 | a two-channel array gives its channels verbatim; any other shape goes to the mono split; the rate is passed through |
| Text.Split | transcription.py:307 | `str.split` always gives at least one piece, and no piece holds the separator |
| Text.JoinSplit | transcription.py:307 | joining the pieces of a split with the separator gives back the text |
| Text.SplitJoin | transcription.py:307 | splitting the join of separator-free pieces gives back the pieces |
| Text.StripSpec | transcription.py:307 | `strip()` leaves the slice between the leading and the trailing whitespace |
| Text.StripIdempotent | transcription.py:307 | stripping twice strips nothing more |
| Text.StripEmptyIff | transcription.py:307 | a piece strips to nothing exactly when it is all whitespace |
| Text.LowerIdempotent | transcription.py:195 | lower-casing twice changes nothing more, and no upper-case ASCII letter survives it |
| Transcription.KeptUnpadded | transcription.py:307 | each kept piece is non-empty and stripped, and no more pieces are kept than there were |
| Transcription.KeptDotFree | transcription.py:307 | stripping and dropping pieces adds no full stop |
| Transcription.KeptAppend | transcription.py:307 | pieces are kept or dropped one by one, independently of their neighbours |
| Transcription.Sentences | transcription.py:307 | every sentence is non-empty, stripped and free of full stops |
| Transcription.SentencesOfJoined | transcription.py:307 | clean sentences joined by full stops, with or without a final one, split back into exactly those sentences |
| Transcription.AlternateTurns | transcription.py:310-327 | the inner loop gives each sentence to the side of its position within the segment |
| Transcription.AlternateShape | transcription.py:310-327 | of `n` sentences the operator gets the ⌈n/2⌉ at even positions and the customer the ⌊n/2⌋ at odd ones, in order, each with its speaker name and a full stop appended |
| Transcription.SegmentSplit | transcription.py:307-327 | sentence `j` of a segment is entry `j / 2` of the operator's turns when `j` is even and of the customer's when it is odd, with the segment's start and end |
| Transcription.SeparateSpeakers | transcription.py:295-330 | the two lists are what each side receives, segment after segment; an empty list gives `([], [])`, and non-dicts and dicts without text give nothing |
| Transcription.SideSnoc | transcription.py:302-327 | one more segment appends only its own entries to each side |
| Transcription.SideAppend | transcription.py:302-327 | segments are split independently, so the alternation restarts with the operator at every segment |
| Transcription.SideEntries | transcription.py:315-327 | every entry a side receives is a dict with that side's speaker and a text ending in a full stop |
| Transcription.SegmentEntries | transcription.py:315-327 | the entries of one segment all belong to the side they are given to |
| Transcription.FormatTranscript | transcription.py:342-355 | an empty list gives the placeholder `Транскрибация недоступна`; otherwise the lines of the entries with both keys, each followed by a newline |
| Transcription.RenderedIsJoin | transcription.py:346-352 | the accumulated text is the lines joined by newlines, with a newline after the last |
| Transcription.TranscriptLines | transcription.py:346-355 | when no speaker or text holds a newline, the transcript splits into exactly one line per rendered entry and a final empty piece |
| Transcription.NothingRenders | transcription.py:346-355 | a non-empty list in which no entry renders gives `""`, not the placeholder |
| Transcription.AllRender | transcription.py:347-352 | when every entry renders, there is one line per entry, in order |
| Transcription.SplitTurnsRender | transcription.py:315-352 | every entry the splitter produces renders as its speaker's name, `": "` and its sentence |
| Transcription.SupportedIffLastFour | transcription.py:195-197 | a path passes exactly when its last four characters, lower-cased, are one of `.mp3`, `.wav`, `.ogg`, `.m4a` |
| Transcription.FormatCaseInsensitive | transcription.py:195 | a path and its lower-cased form get the same verdict |
| Transcription.FormatAcceptsUpperCase | transcription.py:195-197 | `a.WAV` is accepted |
| Transcription.FormatRejectsText | transcription.py:195-197 | `a.txt` is rejected with the unsupported-format message |
| Transcription.FormatRejectsShort | transcription.py:195-197 | `mp3` without its dot is rejected |

## Left out

- Decoding audio files (`librosa.load`, the pydub fallback `process_with_pydub`), `resample_audio`, `analyze_and_enhance_audio` and `get_audio_quality_report` are file I/O and foreign library calls. `SeparateChannels` starts from the decoded array and its rate.
- The librosa feature computations of `extract_features` (RMS, zero-crossing rate, spectral centroid, roll-off, bandwidth and flatness, MFCCs) are foreign numerics. Their values are inputs (`EmotionAnalysis.Features`); the segmentation around them is modelled. `mfcc_std` is read into a local by the classifier (emotion_analysis.py:243) but never used in a score; it is kept as the unused field `mfccStd` of `Features`.
- The `VoiceRecognizer` call and the temporary WAV file in `analyze_emotions` are foreign calls. What the recogniser returns, or its failure, is an input (`EmotionAnalysis.Recognition`).
- `np.std` needs a square root. The square root is a parameter `sqrt` that is required to map non-negative numbers to non-negative numbers; nothing else is assumed about it.
- The Butterworth design (`butter`) and the filtering (`lfilter`) are foreign numerics. `butter` is modelled as failing outside `0 < low < high < 1`, and the filter itself is a parameter of `AudioProcessing.Bandpass`.
- AudioProcessing.Bandpass: the contract states the fallbacks and the [-1, 1] bound of a result that differs from the input; on the success path it does not restate the value (the filter output divided by its peak).
- EmotionAnalysis.SegmentSpans: negative sample rates are not modelled; they give a negative window and hop, and Python's negative slice indices, which the span model does not cover.
- Floating-point rounding and NaN propagation are not modelled. Arithmetic is over exact reals. The frame, hop and fade lengths `int(sr*0.025)`, `int(sr*0.010)` and `int(sr*0.005)` are modelled as `sr/40`, `sr/100` and `sr/200`. The NaN cases that matter are modelled explicitly: the 0/0 when all frame energies are equal, and `np.var`/`np.mean` of too-short MFCC vectors in the classifier.
- `emotion_match_rate` (utils.py:86) is computed and never used, so it is not modelled.
- Labels are the three categories of `Labels.Emotion`, the only strings the classifiers produce. Other strings in the DataFrame columns are not modelled. The counting and smoothing members are generic and work for any label type.
- `AudioProcessing.WellFormed` requires a rectangular array with at least one channel. Empty channel lists and ragged arrays are not modelled.
- Text.Lower lower-cases ASCII letters only. This is exact for the extension guard, because no non-ASCII character lower-cases to a character of `.mp3`, `.wav`, `.ogg` or `.m4a`. It is not Python's full Unicode `str.lower`.
- `Transcriber.transcribe_audio` apart from its extension guard is not modelled: existence and size checks, enhancement, conversion, the HTTP request to the recognition service and temp-file cleanup are I/O. So are `_convert_to_wav`, `_normalize_audio` and `_remove_noise`.
- The `if not sentence: continue` in `separate_speakers` can never fire, because the comprehension has already dropped blank pieces. The model has no such branch.
- Segment values in `Transcription.Segment` are typed: `text` and `speaker` are strings, `start` and `end` are numbers. Dicts whose values have other types are not modelled.
- Logging and printing are left out.
- The Streamlit app (`app.py`), the chart rendering (`visualization.py`), audio enhancement (`audio_enhancement.py`), the video emotion loop (`main.py`, `emotion_analyzer.py`) and the console script `test_audio_quality.py` are not part of this model.

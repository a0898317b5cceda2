/**
 * The transcript post-processing of `Transcriber`: splitting recognised
 * segments into sentences that alternate between the operator and the
 * customer, rendering segments as "speaker: text" lines, and the
 * file-extension guard in front of recognition.
 */
module Transcription {
  import opened Text
  import Tally

  /**
   * A transcript entry as the recogniser or the splitter returns it: a dict
   * whose keys may be missing, or a value that is not a dict at all.
   */
  datatype Segment =
    | NotDict
    | Dict(text: Tally.Option<string>, start: Tally.Option<real>, end: Tally.Option<real>,
           speaker: Tally.Option<string>)

  const OperatorName: string := "Оператор"
  const CustomerName: string := "Клиент"
  const Unavailable: string := "Транскрибация недоступна"
  const UnsupportedFormat: string := "Неподдерживаемый формат файла"
  const Extensions: seq<string> := [".mp3", ".wav", ".ogg", ".m4a"]

  // ---------------------------------------------------------------------------
  // separate_speakers
  // ---------------------------------------------------------------------------

  /** A non-empty string without surrounding whitespace: what `strip()` leaves of a non-blank one. */
  predicate Unpadded(s: string)
  {
    s != [] && !IsSpace(s[0]) && !IsSpace(s[|s| - 1])
  }

  /** A sentence as the splitter emits it: non-empty, stripped, without a full stop. */
  predicate Clean(s: string)
  {
    Unpadded(s) && '.' !in s
  }

  /** The non-blank pieces, stripped, in order. */
  function KeptPieces(pieces: seq<string>): seq<string>
  {
    if pieces == [] then []
    else
      var s := Strip(pieces[0]);
      (if s != [] then [s] else []) + KeptPieces(pieces[1..])
  }

  /** At most one kept piece per piece, none blank or padded. */
  lemma {:induction false} KeptUnpadded(pieces: seq<string>)
    ensures |KeptPieces(pieces)| <= |pieces|
    ensures forall k :: 0 <= k < |KeptPieces(pieces)| ==> Unpadded(KeptPieces(pieces)[k])
  {
    if pieces != [] {
      KeptUnpadded(pieces[1..]);
      var s := Strip(pieces[0]);
      var head: seq<string> := if s != [] then [s] else [];
      var r, rest := KeptPieces(pieces), KeptPieces(pieces[1..]);
      assert r == head + rest;
      if s != [] {
        StripSpec(pieces[0]);
        assert Unpadded(r[0]);
      }
      forall k | |head| <= k < |r| ensures Unpadded(r[k]) {
        assert r[k] == rest[k - |head|];
      }
    }
  }

  /** Stripping and dropping pieces adds no full stop. */
  lemma {:induction false} KeptDotFree(pieces: seq<string>)
    requires forall k :: 0 <= k < |pieces| ==> '.' !in pieces[k]
    ensures forall k :: 0 <= k < |KeptPieces(pieces)| ==> '.' !in KeptPieces(pieces)[k]
  {
    if pieces != [] {
      assert forall k :: 0 <= k < |pieces[1..]| ==> '.' !in pieces[1..][k];
      KeptDotFree(pieces[1..]);
      StripWithin(pieces[0]);
      var s := Strip(pieces[0]);
      var head: seq<string> := if s != [] then [s] else [];
      var r, rest := KeptPieces(pieces), KeptPieces(pieces[1..]);
      assert r == head + rest;
      forall k | 0 <= k < |r| ensures '.' !in r[k] {
        if k >= |head| { assert r[k] == rest[k - |head|]; }
      }
    }
  }

  /**
   * The sentences of a segment's text: the pieces between full stops,
   * stripped, blank ones dropped. None is empty, none has surrounding
   * whitespace, none holds a full stop.
   */
  function Sentences(text: string): (r: seq<string>)
    ensures forall k :: 0 <= k < |r| ==> Clean(r[k])
  {
    KeptUnpadded(Split(text, '.'));
    KeptDotFree(Split(text, '.'));
    KeptPieces(Split(text, '.'))
  }

  /**
   * Text made of clean sentences joined by full stops, with or without a
   * final full stop, splits back into exactly those sentences.
   */
  lemma SentencesOfJoined(sentences: seq<string>, finalStop: bool)
    requires forall k :: 0 <= k < |sentences| ==> Clean(sentences[k])
    ensures Sentences(Join(sentences + (if finalStop then [[]] else []), '.')) == sentences
  {
    var tail: seq<string> := if finalStop then [[]] else [];
    var pieces := sentences + tail;
    if pieces == [] {
      assert Split([], '.') == [[]];
      KeptEmpty();
    } else {
      assert forall k :: 0 <= k < |pieces| ==> '.' !in pieces[k];
      SplitJoin(pieces, '.');
      KeptWithStop(sentences, finalStop);
    }
  }

  /** Clean sentences followed by an optional empty piece are kept as they are. */
  lemma KeptWithStop(sentences: seq<string>, finalStop: bool)
    requires forall k :: 0 <= k < |sentences| ==> Clean(sentences[k])
    ensures KeptPieces(sentences + (if finalStop then [[]] else [])) == sentences
  {
    var tail: seq<string> := if finalStop then [[]] else [];
    KeptAppend(sentences, tail);
    KeptClean(sentences);
    KeptEmpty();
    assert KeptPieces(tail) == [];
  }

  /** An empty piece is dropped. */
  lemma KeptEmpty()
    ensures KeptPieces([[]]) == []
  {
    StripUnpadded([]);
  }

  /** Pieces are kept or dropped one by one. */
  lemma {:induction false} KeptAppend(xs: seq<string>, ys: seq<string>)
    ensures KeptPieces(xs + ys) == KeptPieces(xs) + KeptPieces(ys)
  {
    if xs == [] {
      assert xs + ys == ys;
    } else {
      assert (xs + ys)[1..] == xs[1..] + ys;
      KeptAppend(xs[1..], ys);
    }
  }

  /** Clean sentences are all kept, unchanged. */
  lemma {:induction false} KeptClean(sentences: seq<string>)
    requires forall k :: 0 <= k < |sentences| ==> Clean(sentences[k])
    ensures KeptPieces(sentences) == sentences
  {
    if sentences != [] {
      KeptClean(sentences[1..]);
      StripUnpadded(sentences[0]);
      assert [sentences[0]] + sentences[1..] == sentences;
    }
  }

  /** `segment.get("start", 0)` and `segment.get("end", 0)`. */
  function StartOf(segment: Segment): real
    requires segment.Dict?
  {
    if segment.start.Some? then segment.start.value else 0.0
  }

  function EndOf(segment: Segment): real
    requires segment.Dict?
  {
    if segment.end.Some? then segment.end.value else 0.0
  }

  /** The new entry for one sentence of `segment`, given to `speaker`. */
  function Turn(segment: Segment, sentence: string, speaker: string): Segment
    requires segment.Dict?
  {
    Dict(Tally.Some(sentence + "."), Tally.Some(StartOf(segment)), Tally.Some(EndOf(segment)),
         Tally.Some(speaker))
  }

  /** The two sides of the call. */
  datatype Party = Operator | Customer

  /** The speaker name the splitter writes for a side. */
  function SpeakerOf(party: Party): string
  {
    match party
    case Operator => OperatorName
    case Customer => CustomerName
  }

  /** Whose a sentence position is: even positions are the operator's, odd ones the customer's. */
  function PartyAt(j: nat): Party
  {
    if j % 2 == 0 then Operator else Customer
  }

  /** The first position a side gets: 0 for the operator, 1 for the customer. */
  function Offset(party: Party): nat
  {
    if party == Operator then 0 else 1
  }

  /** The entries made from those of `sentences` at the positions of `party`, in order. */
  function Alternate(segment: Segment, sentences: seq<string>, party: Party): seq<Segment>
    requires segment.Dict?
  {
    if sentences == [] then []
    else
      var last := |sentences| - 1;
      Alternate(segment, sentences[..last], party)
        + (if PartyAt(last) == party then [Turn(segment, sentences[last], SpeakerOf(party))] else [])
  }

  /** The entries one input segment gives to one side; non-dicts and dicts without text give none. */
  function SegmentTurns(segment: Segment, party: Party): seq<Segment>
  {
    if segment.Dict? && segment.text.Some? then Alternate(segment, Sentences(segment.text.value), party)
    else []
  }

  /** The concatenation of a list of lists. */
  function Flatten<T>(groups: seq<seq<T>>): seq<T>
  {
    if groups == [] then [] else Flatten(groups[..|groups| - 1]) + groups[|groups| - 1]
  }

  lemma {:induction false} FlattenAppend<T>(a: seq<seq<T>>, b: seq<seq<T>>)
    ensures Flatten(a + b) == Flatten(a) + Flatten(b)
  {
    if b == [] {
      assert a + b == a;
    } else {
      var last := |b| - 1;
      var ab := a + b;
      assert ab[..|ab| - 1] == a + b[..last];
      FlattenAppend(a, b[..last]);
    }
  }

  /** What each segment gives to one side. */
  function Groups(segments: seq<Segment>, party: Party): (r: seq<seq<Segment>>)
    ensures |r| == |segments|
  {
    seq(|segments|, k requires 0 <= k < |segments| => SegmentTurns(segments[k], party))
  }

  /** Everything one side receives from a list of segments. */
  function Side(segments: seq<Segment>, party: Party): seq<Segment>
  {
    Flatten(Groups(segments, party))
  }

  /** One more segment adds its own entries at the end of each side. */
  lemma SideSnoc(segments: seq<Segment>, segment: Segment, party: Party)
    ensures Side(segments + [segment], party) == Side(segments, party) + SegmentTurns(segment, party)
  {
    var groups := Groups(segments + [segment], party);
    assert groups[..|segments|] == Groups(segments, party);
  }

  /**
   * separate_speakers: for every dict segment with text, its sentences go in
   * turn to the operator and the customer, starting again with the operator
   * at each segment.
   */
  method SeparateSpeakers(segments: seq<Segment>) returns (operator: seq<Segment>, customer: seq<Segment>)
    ensures operator == Side(segments, Operator) && customer == Side(segments, Customer)
  {
    if segments == [] {
      return [], [];
    }
    operator, customer := [], [];
    for s := 0 to |segments|
      invariant operator == Side(segments[..s], Operator) && customer == Side(segments[..s], Customer)
    {
      var segment := segments[s];
      assert segments[..s + 1] == segments[..s] + [segment];
      SideSnoc(segments[..s], segment, Operator);
      SideSnoc(segments[..s], segment, Customer);
      if !segment.Dict? || segment.text.None? {
        continue;
      }
      var ops, cus := AlternateTurns(segment, Sentences(segment.text.value));
      operator, customer := operator + ops, customer + cus;
    }
    assert segments[..|segments|] == segments;
  }

  /** The inner loop of separate_speakers: each sentence of one segment goes to its position's side. */
  method AlternateTurns(segment: Segment, sentences: seq<string>) returns (operator: seq<Segment>, customer: seq<Segment>)
    requires segment.Dict?
    ensures operator == Alternate(segment, sentences, Operator)
    ensures customer == Alternate(segment, sentences, Customer)
  {
    operator, customer := [], [];
    for i := 0 to |sentences|
      invariant operator == Alternate(segment, sentences[..i], Operator)
      invariant customer == Alternate(segment, sentences[..i], Customer)
    {
      assert sentences[..i + 1][..i] == sentences[..i];
      if i % 2 == 0 {
        operator := operator + [Turn(segment, sentences[i], OperatorName)];
      } else {
        customer := customer + [Turn(segment, sentences[i], CustomerName)];
      }
    }
    assert sentences[..|sentences|] == sentences;
  }

  /**
   * Of `n` sentences the operator's side gets the ⌈n/2⌉ at even positions
   * and the customer's the ⌊n/2⌋ at odd ones, each in order.
   */
  lemma {:induction false} AlternateShape(segment: Segment, sentences: seq<string>, party: Party)
    requires segment.Dict?
    ensures |Alternate(segment, sentences, party)| == (|sentences| + 1 - Offset(party)) / 2
    ensures forall k :: 0 <= k < |Alternate(segment, sentences, party)| ==>
      Alternate(segment, sentences, party)[k]
        == Turn(segment, sentences[2 * k + Offset(party)], SpeakerOf(party))
  {
    if sentences != [] {
      AlternateShape(segment, sentences[..|sentences| - 1], party);
    }
  }

  /**
   * Every sentence of a segment lands on exactly one side: sentence `j` is
   * entry `j / 2` of the operator's turns when `j` is even and of the
   * customer's when it is odd.
   */
  lemma SegmentSplit(segment: Segment, j: nat)
    requires segment.Dict? && segment.text.Some? && j < |Sentences(segment.text.value)|
    ensures var sentences := Sentences(segment.text.value);
      |SegmentTurns(segment, Operator)| == (|sentences| + 1) / 2
      && |SegmentTurns(segment, Customer)| == |sentences| / 2
      && SegmentTurns(segment, PartyAt(j))[j / 2] == Turn(segment, sentences[j], SpeakerOf(PartyAt(j)))
  {
    var sentences := Sentences(segment.text.value);
    AlternateShape(segment, sentences, Operator);
    AlternateShape(segment, sentences, Customer);
    var party, k := PartyAt(j), j / 2;
    assert 2 * k + Offset(party) == j;
    var turns := Alternate(segment, sentences, party);
    assert k < |turns|;
    assert turns[k] == Turn(segment, sentences[2 * k + Offset(party)], SpeakerOf(party));
  }

  /**
   * Segments are split independently: the sides of a concatenation are the
   * concatenations of the sides, so the operator/customer alternation
   * restarts at every segment.
   */
  lemma SideAppend(a: seq<Segment>, b: seq<Segment>, party: Party)
    ensures Side(a + b, party) == Side(a, party) + Side(b, party)
  {
    var ga, gb, gab := Groups(a, party), Groups(b, party), Groups(a + b, party);
    forall k | 0 <= k < |gab| ensures gab[k] == (ga + gb)[k] {
      if k < |a| {
        assert (a + b)[k] == a[k];
      } else {
        assert (a + b)[k] == b[k - |a|];
      }
    }
    assert gab == ga + gb;
    FlattenAppend(ga, gb);
  }

  /** An entry of `party`'s side: a dict with that side's speaker and a text ending in a full stop. */
  predicate IsEntry(e: Segment, party: Party)
  {
    e.Dict? && e.speaker == Tally.Some(SpeakerOf(party))
    && e.text.Some? && |e.text.value| >= 2 && e.text.value[|e.text.value| - 1] == '.'
  }

  /** Every element of `es` is an entry of `party`'s side. */
  predicate AllEntries(es: seq<Segment>, party: Party)
  {
    forall k :: 0 <= k < |es| ==> IsEntry(es[k], party)
  }

  /** Every entry a side receives has that side's speaker and a text ending in a full stop. */
  lemma {:induction false} SideEntries(segments: seq<Segment>, party: Party)
    ensures AllEntries(Side(segments, party), party)
  {
    if segments != [] {
      var prefix, last := segments[..|segments| - 1], segments[|segments| - 1];
      assert segments == prefix + [last];
      SideSnoc(prefix, last, party);
      SideEntries(prefix, party);
      SegmentEntries(last, party);
      var a, b := Side(prefix, party), SegmentTurns(last, party);
      forall k | 0 <= k < |a + b| ensures IsEntry((a + b)[k], party) {
        if k < |a| { assert (a + b)[k] == a[k]; } else { assert (a + b)[k] == b[k - |a|]; }
      }
    }
  }

  /** The entries of one segment all belong to the side they are given to. */
  lemma SegmentEntries(segment: Segment, party: Party)
    ensures AllEntries(SegmentTurns(segment, party), party)
  {
    if segment.Dict? && segment.text.Some? {
      AlternateShape(segment, Sentences(segment.text.value), party);
    }
  }

  // ---------------------------------------------------------------------------
  // format_transcript
  // ---------------------------------------------------------------------------

  /** A segment that renders: a dict with both a speaker and a text. */
  predicate Renders(segment: Segment)
  {
    segment.Dict? && segment.speaker.Some? && segment.text.Some?
  }

  /** The line of a rendering segment, without its newline. */
  function LineOf(segment: Segment): string
    requires Renders(segment)
  {
    segment.speaker.value + ": " + segment.text.value
  }

  /** The lines of the rendering segments, in order; the others are skipped. */
  function Lines(segments: seq<Segment>): seq<string>
  {
    if segments == [] then []
    else
      var last := segments[|segments| - 1];
      Lines(segments[..|segments| - 1]) + (if Renders(last) then [LineOf(last)] else [])
  }

  /** The text accumulated over `segments`: each rendering segment's line and a newline. */
  function Rendered(segments: seq<Segment>): string
  {
    if segments == [] then ""
    else
      var last := segments[|segments| - 1];
      Rendered(segments[..|segments| - 1]) + (if Renders(last) then LineOf(last) + "\n" else "")
  }

  /**
   * format_transcript: the placeholder for an empty list, otherwise the
   * lines of the rendering segments, each ended by a newline.
   */
  method FormatTranscript(segments: seq<Segment>) returns (text: string)
    ensures segments == [] ==> text == Unavailable
    ensures segments != [] ==> text == Join(Lines(segments) + [""], '\n')
  {
    if segments == [] {
      return Unavailable;
    }
    text := "";
    for s := 0 to |segments|
      invariant text == Rendered(segments[..s])
    {
      assert segments[..s + 1][..s] == segments[..s];
      var segment := segments[s];
      if !segment.Dict? || segment.speaker.None? || segment.text.None? {
        continue;
      }
      text := text + segment.speaker.value + ": " + segment.text.value + "\n";
    }
    assert segments[..|segments|] == segments;
    RenderedIsJoin(segments);
  }

  /** The accumulated text is the lines joined by newlines, with a newline after the last. */
  lemma {:induction false} RenderedIsJoin(segments: seq<Segment>)
    ensures Rendered(segments) == Join(Lines(segments) + [""], '\n')
  {
    if segments != [] {
      var prefix := segments[..|segments| - 1];
      var last := segments[|segments| - 1];
      RenderedIsJoin(prefix);
      var ls := Lines(prefix);
      if Renders(last) {
        var l := LineOf(last);
        assert Lines(segments) == ls + [l];
        JoinSnoc(ls + [l], "", '\n');
        if ls != [] {
          JoinSnoc(ls, l, '\n');
          JoinSnoc(ls, "", '\n');
        } else {
          assert Join([l], '\n') == l;
          assert Join([""], '\n') == "";
        }
      } else {
        assert Lines(segments) == ls;
      }
    }
  }

  /**
   * When no speaker or text holds a newline, the transcript splits at its
   * newlines into exactly one line per rendering segment, in order, and a
   * final empty piece.
   */
  lemma TranscriptLines(segments: seq<Segment>)
    requires forall k :: 0 <= k < |segments| && Renders(segments[k]) ==>
      '\n' !in segments[k].speaker.value && '\n' !in segments[k].text.value
    ensures Split(Join(Lines(segments) + [""], '\n'), '\n') == Lines(segments) + [""]
  {
    LinesFree(segments);
    SplitJoin(Lines(segments) + [""], '\n');
  }

  lemma {:induction false} LinesFree(segments: seq<Segment>)
    requires forall k :: 0 <= k < |segments| && Renders(segments[k]) ==>
      '\n' !in segments[k].speaker.value && '\n' !in segments[k].text.value
    ensures forall k :: 0 <= k < |Lines(segments)| ==> '\n' !in Lines(segments)[k]
  {
    if segments != [] {
      LinesFree(segments[..|segments| - 1]);
    }
  }

  /** A non-empty list in which nothing renders gives the empty text, not the placeholder. */
  lemma {:induction false} NothingRenders(segments: seq<Segment>)
    requires forall k :: 0 <= k < |segments| ==> !Renders(segments[k])
    ensures Lines(segments) == []
    ensures Join(Lines(segments) + [""], '\n') == ""
  {
    if segments != [] {
      NothingRenders(segments[..|segments| - 1]);
    }
  }

  /** Every entry the splitter produces renders, as its speaker's name, ": " and its sentence. */
  lemma SplitTurnsRender(segments: seq<Segment>, party: Party)
    ensures |Lines(Side(segments, party))| == |Side(segments, party)|
    ensures forall k :: 0 <= k < |Side(segments, party)| ==>
      Side(segments, party)[k].Dict? && Side(segments, party)[k].text.Some?
      && Lines(Side(segments, party))[k] == SpeakerOf(party) + ": " + Side(segments, party)[k].text.value
  {
    SideEntries(segments, party);
    AllRender(Side(segments, party));
  }

  lemma {:induction false} AllRender(segments: seq<Segment>)
    requires forall k :: 0 <= k < |segments| ==> Renders(segments[k])
    ensures |Lines(segments)| == |segments|
    ensures forall k :: 0 <= k < |segments| ==> Lines(segments)[k] == LineOf(segments[k])
  {
    if segments != [] {
      AllRender(segments[..|segments| - 1]);
    }
  }

  // ---------------------------------------------------------------------------
  // transcribe_audio: the extension guard
  // ---------------------------------------------------------------------------

  /** The path, lower-cased, ends with one of the accepted extensions. */
  predicate Supported(path: string)
  {
    exists k :: 0 <= k < |Extensions| && EndsWith(Lower(path), Extensions[k])
  }

  /** The guard's verdict: no error for a supported path, the format error otherwise. */
  function FormatError(path: string): Tally.Option<string>
  {
    if Supported(path) then Tally.None else Tally.Some(UnsupportedFormat)
  }

  /**
   * A path passes exactly when it has at least four characters and its last
   * four, lower-cased, are one of the extensions.
   */
  lemma SupportedIffLastFour(path: string)
    ensures FormatError(path) == Tally.None <==>
      |path| >= 4 && Lower(path[|path| - 4..]) in Extensions
  {
    assert forall k :: 0 <= k < |Extensions| ==> |Extensions[k]| == 4;
    if |path| >= 4 {
      var tail := Lower(path[|path| - 4..]);
      assert Lower(path)[|path| - 4..] == tail;
      if tail in Extensions {
        var k :| 0 <= k < |Extensions| && Extensions[k] == tail;
        assert EndsWith(Lower(path), Extensions[k]);
      }
    }
  }

  /** The guard ignores case: a path and its lower-cased form get the same verdict. */
  lemma FormatCaseInsensitive(path: string)
    ensures FormatError(Lower(path)) == FormatError(path)
  {
    LowerIdempotent(path);
  }

  /** An upper-case supported extension is accepted. */
  lemma FormatAcceptsUpperCase()
    ensures FormatError("a.WAV") == Tally.None
  {
    SupportedIffLastFour("a.WAV");
    assert "a.WAV"[1..] == ".WAV";
    assert Lower(".WAV") == ".wav";
  }

  /** An unsupported extension is rejected with the format message. */
  lemma FormatRejectsText()
    ensures FormatError("a.txt") == Tally.Some(UnsupportedFormat)
  {
    SupportedIffLastFour("a.txt");
    assert "a.txt"[1..] == ".txt";
    assert Lower(".txt") == ".txt";
  }

  /** A bare extension without its dot is rejected: it is shorter than every suffix. */
  lemma FormatRejectsShort()
    ensures FormatError("mp3") == Tally.Some(UnsupportedFormat)
  {
    SupportedIffLastFour("mp3");
  }
}

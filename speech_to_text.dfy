/**
 * The backend's output side: the conversion of merged sentences into
 * `DiarizationSegment`s, the sentiment label, and the rendering of each
 * sentence as one transcript line.
 */
module SpeechToText {
  import opened Wrappers
  import opened PyStrings
  import opened PyannoteUtils

  /** A `DiarizationSegment` that passed validation. */
  datatype DiarizationSegment = DiarizationSegment(start: real, end: real, speaker: string, text: string)

  /**
   * The field constraints of `DiarizationSegment`: `start >= 0`, `end > 0`,
   * and a speaker and a text of at least one character. No order between
   * `start` and `end` is demanded.
   */
  predicate ValidDiarizationSegment(d: DiarizationSegment) {
    d.start >= 0.0 && d.end > 0.0 && |d.speaker| >= 1 && |d.text| >= 1
  }

  /** The `speaker` argument: the label, or `None` when the crop had no speaker. */
  function SpeakerField(spk: Option<string>): string {
    if spk.Some? then spk.value else ""
  }

  /** A speaker that `DiarizationSegment` accepts: present and at least one character long. */
  predicate Labelled(spk: Option<string>) {
    spk.Some? && spk.value != []
  }

  /**
   * The comprehension at the end of `load_and_transcribe`: one
   * `DiarizationSegment` per merged `(seg, spk, text)`, in order; a sentence
   * that fails validation makes the whole call raise (`None`). A `None`
   * speaker fails like an empty one.
   */
  function ToDiarizationSegments(finalResult: seq<Fragment>): (r: Option<seq<DiarizationSegment>>)
    ensures r.Some? <==> forall i :: 0 <= i < |finalResult| ==>
      finalResult[i].seg.start >= 0.0 && finalResult[i].seg.end > 0.0 &&
      Labelled(finalResult[i].spk) && finalResult[i].text != []
    ensures r.Some? ==> |r.value| == |finalResult| && forall i :: 0 <= i < |finalResult| ==>
      r.value[i] == DiarizationSegment(finalResult[i].seg.start, finalResult[i].seg.end, finalResult[i].spk.value, finalResult[i].text)
  {
    var segments := seq(|finalResult|, i requires 0 <= i < |finalResult| =>
      DiarizationSegment(finalResult[i].seg.start, finalResult[i].seg.end, SpeakerField(finalResult[i].spk), finalResult[i].text));
    assert forall i :: 0 <= i < |segments| ==> (ValidDiarizationSegment(segments[i]) <==>
      finalResult[i].seg.start >= 0.0 && finalResult[i].seg.end > 0.0 && Labelled(finalResult[i].spk) && finalResult[i].text != []);
    if forall i :: 0 <= i < |segments| ==> ValidDiarizationSegment(segments[i]) then Some(segments) else None
  }

  /**
   * `load_and_transcribe` after the external models: `asrSegments` is the
   * Whisper result's `segments` list and `dominantSpeaker` the diarization
   * query.
   */
  method LoadAndTranscribe(asrSegments: seq<RawSegment>, dominantSpeaker: Segment -> Option<string>)
    returns (r: Option<seq<DiarizationSegment>>)
    ensures (exists i :: 0 <= i < |asrSegments| && !AcceptedAsWritten(asrSegments[i])) ==> r.None?
    ensures (forall i :: 0 <= i < |asrSegments| ==> AcceptedAsWritten(asrSegments[i])) ==>
      r == ToDiarizationSegments(Turns(Attributed(GetTextWithTimestamp(asrSegments).value, dominantSpeaker)))
  {
    var finalResult := DiarizeText(asrSegments, dominantSpeaker);
    if finalResult.None? {
      return None;
    }
    return ToDiarizationSegments(finalResult.value);
  }

  /** What a validated, attributed fragment guarantees. */
  predicate SoundFragment(f: Fragment) {
    f.seg.start >= 0.0 && f.seg.end > 0.0 && !IsBlank(f.text) && Labelled(f.spk)
  }

  /** A sentence merged from sound fragments passes the `DiarizationSegment` constraints. */
  lemma SoundTurn(frags: seq<Fragment>, k: nat)
    requires forall f :: f in frags ==> SoundFragment(f)
    requires k < |Turns(frags)|
    ensures var t := Turns(frags)[k];
      t.seg.start >= 0.0 && t.seg.end > 0.0 && Labelled(t.spk) && t.text != []
  {
    var g := Groups(frags)[k];
    GroupMembers(frags, k, 0);
    GroupMembers(frags, k, |g| - 1);
    assert Turns(frags)[k] == MergeData(g);
    assert SoundFragment(g[0]) && SoundFragment(g[|g| - 1]);
    assert g[0].text != [];
  }

  /**
   * A fragment without a usable speaker makes the sentence that holds it
   * unusable: that sentence is led by a fragment without a speaker, or all
   * of it has the same unusable speaker.
   */
  lemma UnlabelledTurn(frags: seq<Fragment>, i: nat) returns (k: nat)
    requires i < |frags| && !Labelled(frags[i].spk)
    ensures k < |Turns(frags)| && !Labelled(Turns(frags)[k].spk)
  {
    GroupsPartition(frags);
    var g := Groups(frags);
    var j;
    k, j := FlattenIndex(g, i);
    assert SpeakerOk(g[k]);
    assert Turns(frags)[k] == MergeData(g[k]);
  }

  /**
   * Once the ASR segments validate, the conversion succeeds exactly when
   * the diarization query names a non-empty speaker for every segment: a
   * segment without one leaves a merged sentence without one, and
   * `DiarizationSegment` rejects it.
   */
  lemma ConversionSucceeds(asrSegments: seq<RawSegment>, dominantSpeaker: Segment -> Option<string>)
    requires forall i :: 0 <= i < |asrSegments| ==> AcceptedAsWritten(asrSegments[i])
    ensures ToDiarizationSegments(Turns(Attributed(GetTextWithTimestamp(asrSegments).value, dominantSpeaker))).Some?
      <==> forall i :: 0 <= i < |asrSegments| ==> Labelled(dominantSpeaker(Segment(asrSegments[i].start, asrSegments[i].end)))
  {
    var timed := GetTextWithTimestamp(asrSegments).value;
    var frags := Attributed(timed, dominantSpeaker);
    var turns := Turns(frags);
    if forall i :: 0 <= i < |asrSegments| ==> Labelled(dominantSpeaker(Segment(asrSegments[i].start, asrSegments[i].end))) {
      forall f | f in frags
        ensures SoundFragment(f)
      {
        var i :| 0 <= i < |frags| && frags[i] == f;
        assert Labelled(dominantSpeaker(timed[i].seg));
      }
      forall k | 0 <= k < |turns|
        ensures turns[k].seg.start >= 0.0 && turns[k].seg.end > 0.0 && Labelled(turns[k].spk) && turns[k].text != []
      {
        SoundTurn(frags, k);
      }
    } else {
      var i :| 0 <= i < |asrSegments| && !Labelled(dominantSpeaker(Segment(asrSegments[i].start, asrSegments[i].end)));
      assert frags[i].spk == dominantSpeaker(Segment(asrSegments[i].start, asrSegments[i].end));
      var k := UnlabelledTurn(frags, i);
    }
  }

  // ------------------------------------------------------------ sentiment

  predicate IsSentimentLabel(s: string) {
    s == "positive" || s == "neutral" || s == "negative"
  }

  /** `get_sentiment`, given the TextBlob polarity of the text. */
  function GetSentiment(polarity: real): (sentiment: string)
    ensures IsSentimentLabel(sentiment)
    ensures sentiment == "positive" <==> polarity > 0.0
    ensures sentiment == "negative" <==> polarity < 0.0
    ensures sentiment == "neutral" <==> polarity == 0.0
  {
    if polarity > 0.0 then "positive" else if polarity < 0.0 then "negative" else "neutral"
  }

  // ------------------------------------------------------------ rendering

  /** The literal that separates a line's text from its sentiment label. */
  const SentimentTag: string := " SENTIMENT:"

  /** The first f-string of `save_in_txt`: times (through the `:.2f` format), speaker and text. */
  function LineBody(segment: DiarizationSegment, fixed2: real -> string): string {
    fixed2(segment.start) + " " + fixed2(segment.end) + " " + segment.speaker + " " + segment.text
  }

  /** One line of `save_in_txt`; `polarity` stands for TextBlob's sentiment polarity. */
  function RenderLine(segment: DiarizationSegment, fixed2: real -> string, polarity: string -> real): string {
    LineBody(segment, fixed2) + SentimentTag + GetSentiment(polarity(segment.text))
  }

  /** `save_in_txt`: one rendered line per segment, in order. */
  method SaveInTxt(result: seq<DiarizationSegment>, fixed2: real -> string, polarity: string -> real)
    returns (scriptLines: seq<string>)
    ensures |scriptLines| == |result|
    ensures forall i :: 0 <= i < |result| ==> scriptLines[i] == RenderLine(result[i], fixed2, polarity)
  {
    scriptLines := [];
    for i := 0 to |result|
      invariant |scriptLines| == i
      invariant forall j :: 0 <= j < i ==> scriptLines[j] == RenderLine(result[j], fixed2, polarity)
    {
      var segment := result[i];
      var line := fixed2(segment.start) + " " + fixed2(segment.end) + " " + segment.speaker + " " + segment.text;
      var sentiment := GetSentiment(polarity(segment.text));
      line := line + SentimentTag + sentiment;
      scriptLines := scriptLines + [line];
    }
  }

  /**
   * Every line ends with the sentiment tag and one of the three labels: split
   * at its last " SENTIMENT:", a line gives back its body and a valid label,
   * whatever the text contains.
   */
  lemma LineEndsWithSentiment(segment: DiarizationSegment, fixed2: real -> string, polarity: string -> real)
    ensures var halves := RSplitOnce(RenderLine(segment, fixed2, polarity), SentimentTag);
      |halves| == 2 && halves[0] == LineBody(segment, fixed2) && IsSentimentLabel(halves[1])
  {
    var tag := GetSentiment(polarity(segment.text));
    RSplitBeforeTail(LineBody(segment, fixed2), SentimentTag, tag);
  }
}

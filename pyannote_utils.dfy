/**
 * From ASR segments to speaker-attributed sentences: the validation of the
 * ASR segments, the attachment of one diarization speaker to each segment, and
 * the state machine that merges the speaker-tagged fragments into sentences.
 */
module PyannoteUtils {
  import opened Wrappers
  import opened PyStrings

  /** A pyannote `Segment`: an interval of the recording, in seconds. */
  datatype Segment = Segment(start: real, end: real)

  /** One entry of the ASR result's `segments` list, before validation. */
  datatype RawSegment = RawSegment(start: real, end: real, text: string)

  /** A `(Segment, text)` pair. */
  datatype TimedText = TimedText(seg: Segment, text: string)

  /**
   * A `(Segment, speaker, text)` triple; a merged sentence has the same shape.
   * The speaker is `None` when the diarization crop of the segment holds no
   * speaker at all, which is what `argmax()` then returns.
   */
  datatype Fragment = Fragment(seg: Segment, spk: Option<string>, text: string)

  // ------------------------------------------------- TranscriptionSegment

  /**
   * `validate_timestamps` applied to one timestamp, given the values of
   * `start` and `end` that `values.data` holds at that moment (`None` when
   * the field is absent).
   */
  function TimestampValidator(value: real, start: Option<real>, end: Option<real>): bool {
    value >= 0.0 && !(start.Some? && end.Some? && end.value <= start.value)
  }

  /** `validate_text`: the text must not be empty or whitespace only. */
  function TextValidator(text: string): bool {
    !IsBlank(text)
  }

  /**
   * Whether pydantic accepts a `TranscriptionSegment`, as the validators are
   * written. Fields are validated in declaration order and `values.data` holds
   * only the fields validated before the current one: while `start` is
   * validated it is empty, and while `end` is validated it holds `start` but not
   * `end`, so the order check never fires.
   */
  function AcceptedAsWritten(raw: RawSegment): (ok: bool)
    ensures ok <==> raw.start >= 0.0 && raw.end > 0.0 && !IsBlank(raw.text)
  {
    && raw.start >= 0.0 && TimestampValidator(raw.start, None, None)
    && raw.end > 0.0 && TimestampValidator(raw.end, Some(raw.start), None)
    && |raw.text| >= 1 && TextValidator(raw.text)
  }

  /** An interval that ends before it starts passes the validators as written. */
  lemma AsWrittenAcceptsReversedInterval()
    ensures AcceptedAsWritten(RawSegment(2.0, 1.0, "hi"))
  {
    assert "hi"[0] == 'h';
  }

  /**
   * Whether a `TranscriptionSegment` is accepted once the order check sees the
   * `end` value being validated, as its error message ("End time must be
   * greater than start time") intends. The pipeline below follows the code
   * and validates with `AcceptedAsWritten`.
   */
  function Accepted(raw: RawSegment): (ok: bool)
    ensures ok <==> 0.0 <= raw.start < raw.end && !IsBlank(raw.text)
    ensures ok ==> AcceptedAsWritten(raw)
  {
    && raw.start >= 0.0 && TimestampValidator(raw.start, None, None)
    && raw.end > 0.0 && TimestampValidator(raw.end, Some(raw.start), Some(raw.end))
    && |raw.text| >= 1 && TextValidator(raw.text)
  }

  /** With the order check in force, the reversed interval is rejected. */
  lemma CorrectedRejectsReversedInterval()
    ensures !Accepted(RawSegment(2.0, 1.0, "hi"))
  {
  }

  /**
   * `get_text_with_timestamp`: validate the whole `segments` list (one bad
   * segment makes the `TranscriptionResult` raise) and pair each interval
   * with its text.
   */
  function GetTextWithTimestamp(raws: seq<RawSegment>): (r: Option<seq<TimedText>>)
    ensures r.Some? <==> forall i :: 0 <= i < |raws| ==> AcceptedAsWritten(raws[i])
    ensures r.Some? ==> |r.value| == |raws|
    ensures r.Some? ==> forall i :: 0 <= i < |raws| ==>
      r.value[i].seg == Segment(raws[i].start, raws[i].end) && r.value[i].text == raws[i].text
    ensures r.Some? ==> forall i :: 0 <= i < |raws| ==>
      r.value[i].seg.start >= 0.0 && r.value[i].seg.end > 0.0 && !IsBlank(r.value[i].text)
  {
    if forall i :: 0 <= i < |raws| ==> AcceptedAsWritten(raws[i]) then
      Some(seq(|raws|, i requires 0 <= i < |raws| => TimedText(Segment(raws[i].start, raws[i].end), raws[i].text)))
    else
      None
  }

  // -------------------------------------------------- speaker attachment

  /** Each timed text with the speaker the diarization query names for its interval. */
  function Attributed(timestampTexts: seq<TimedText>, dominantSpeaker: Segment -> Option<string>): seq<Fragment> {
    seq(|timestampTexts|, i requires 0 <= i < |timestampTexts| =>
      Fragment(timestampTexts[i].seg, dominantSpeaker(timestampTexts[i].seg), timestampTexts[i].text))
  }

  /**
   * `add_speaker_info_to_text`; `dominantSpeaker` stands for
   * `ann.crop(seg).argmax()`, `None` for a crop without speakers. No segment
   * is skipped, not even one without a speaker.
   */
  method AddSpeakerInfoToText(timestampTexts: seq<TimedText>, dominantSpeaker: Segment -> Option<string>)
    returns (spkText: seq<Fragment>)
    ensures |spkText| == |timestampTexts|
    ensures forall i :: 0 <= i < |spkText| ==>
      spkText[i].seg == timestampTexts[i].seg && spkText[i].text == timestampTexts[i].text &&
      spkText[i].spk == dominantSpeaker(timestampTexts[i].seg)
  {
    spkText := [];
    for i := 0 to |timestampTexts|
      invariant |spkText| == i
      invariant forall j :: 0 <= j < i ==>
        spkText[j] == Fragment(timestampTexts[j].seg, dominantSpeaker(timestampTexts[j].seg), timestampTexts[j].text)
    {
      var seg, text := timestampTexts[i].seg, timestampTexts[i].text;
      var spk := dominantSpeaker(seg);
      spkText := spkText + [Fragment(seg, spk, text)];
    }
  }

  // ------------------------------------------------------------ merging

  /** `PUNC_SENT_END` */
  const PuncSentEnd: seq<char> := ['.', '?', '!']

  /** The text's last character is one of `PUNC_SENT_END`. */
  predicate EndsSentence(text: string) {
    |text| > 0 && text[|text| - 1] in PuncSentEnd
  }

  /** `"".join(...)` over the fragments' texts. */
  function JoinTexts(frags: seq<Fragment>): string {
    if frags == [] then "" else frags[0].text + JoinTexts(frags[1..])
  }

  lemma {:induction false} JoinTextsAppend(a: seq<Fragment>, b: seq<Fragment>)
    ensures JoinTexts(a + b) == JoinTexts(a) + JoinTexts(b)
  {
    if a == [] {
      assert a + b == b;
    } else {
      assert (a + b)[0] == a[0];
      assert (a + b)[1..] == a[1..] + b;
      JoinTextsAppend(a[1..], b);
    }
  }

  /**
   * `merge_data`: one sentence spanning a non-empty run of fragments. The
   * source indexes `text_data[0]`, so it is only ever called on a non-empty list.
   */
  function MergeData(textData: seq<Fragment>): (turn: Fragment)
    requires |textData| > 0
    ensures turn.seg.start == textData[0].seg.start
    ensures turn.seg.end == textData[|textData| - 1].seg.end
    ensures turn.spk == textData[0].spk
    ensures turn.text == JoinTexts(textData)
  {
    Fragment(Segment(textData[0].seg.start, textData[|textData| - 1].seg.end), textData[0].spk, JoinTexts(textData))
  }

  /**
   * The runs of fragments that `merge_sentence` flushes, starting from the
   * accumulator `pending` (`text_data`) and the previous speaker `preSpk`
   * (`pre_spk`: `None` before the first fragment, and after a fragment that
   * has no speaker), the final flush included.
   */
  function Run(frags: seq<Fragment>, pending: seq<Fragment>, preSpk: Option<string>): (groups: seq<seq<Fragment>>)
    ensures forall k :: 0 <= k < |groups| ==> |groups[k]| > 0
    decreases |frags|
  {
    if frags == [] then
      if |pending| > 0 then [pending] else []
    else
      var f := frags[0];
      if f.spk != preSpk && preSpk.Some? && |pending| > 0 then
        [pending] + Run(frags[1..], [f], f.spk)
      else if EndsSentence(f.text) then
        [pending + [f]] + Run(frags[1..], [], f.spk)
      else
        Run(frags[1..], pending + [f], f.spk)
  }

  /** The runs of fragments that become sentences. */
  function Groups(frags: seq<Fragment>): seq<seq<Fragment>> {
    Run(frags, [], None)
  }

  function MergeAll(groups: seq<seq<Fragment>>): (turns: seq<Fragment>)
    requires forall k :: 0 <= k < |groups| ==> |groups[k]| > 0
    ensures |turns| == |groups|
  {
    seq(|groups|, k requires 0 <= k < |groups| => MergeData(groups[k]))
  }

  /** The sentences `merge_sentence` returns for `frags`. */
  function Turns(frags: seq<Fragment>): seq<Fragment> {
    MergeAll(Groups(frags))
  }

  /**
   * `merge_sentence`: flush the accumulator when the speaker changes while
   * fragments are pending, or after a fragment that ends a sentence, and once
   * more at the end.
   */
  method MergeSentence(spkText: seq<Fragment>) returns (mergedSpkText: seq<Fragment>)
    ensures mergedSpkText == Turns(spkText)
  {
    mergedSpkText := [];
    var preSpk: Option<string> := None;
    var textData: seq<Fragment> := [];
    ghost var done: seq<seq<Fragment>> := [];
    for i := 0 to |spkText|
      invariant Groups(spkText) == done + Run(spkText[i..], textData, preSpk)
      invariant forall k :: 0 <= k < |done| ==> |done[k]| > 0
      invariant mergedSpkText == MergeAll(done)
    {
      var f := spkText[i];
      RunStep(spkText, i, textData, preSpk);
      ghost var rest := spkText[i + 1..];
      if f.spk != preSpk && preSpk != None && |textData| > 0 {
        ghost var later := Run(rest, [f], f.spk);
        assert done + ([textData] + later) == (done + [textData]) + later;
        MergeAllSnoc(done, textData);
        mergedSpkText := mergedSpkText + [MergeData(textData)];
        done := done + [textData];
        textData := [f];
        preSpk := f.spk;
      } else if EndsSentence(f.text) {
        ghost var later := Run(rest, [], f.spk);
        assert done + ([textData + [f]] + later) == (done + [textData + [f]]) + later;
        textData := textData + [f];
        MergeAllSnoc(done, textData);
        mergedSpkText := mergedSpkText + [MergeData(textData)];
        done := done + [textData];
        textData := [];
        preSpk := f.spk;
      } else {
        textData := textData + [f];
        preSpk := f.spk;
      }
    }
    if |textData| > 0 {
      MergeAllSnoc(done, textData);
      mergedSpkText := mergedSpkText + [MergeData(textData)];
      done := done + [textData];
    }
  }

  /** One iteration of `merge_sentence`, read off `Run`. */
  lemma RunStep(spkText: seq<Fragment>, i: nat, pending: seq<Fragment>, preSpk: Option<string>)
    requires i < |spkText|
    ensures var f, rest := spkText[i], spkText[i + 1..];
      Run(spkText[i..], pending, preSpk) ==
        if f.spk != preSpk && preSpk.Some? && |pending| > 0 then [pending] + Run(rest, [f], f.spk)
        else if EndsSentence(f.text) then [pending + [f]] + Run(rest, [], f.spk)
        else Run(rest, pending + [f], f.spk)
  {
    assert spkText[i..][0] == spkText[i] && spkText[i..][1..] == spkText[i + 1..];
  }

  /** Flushing one more run appends its merged sentence. */
  lemma MergeAllSnoc(done: seq<seq<Fragment>>, g: seq<Fragment>)
    requires forall k :: 0 <= k < |done| ==> |done[k]| > 0
    requires |g| > 0
    ensures MergeAll(done + [g]) == MergeAll(done) + [MergeData(g)]
  {
    var l, r := MergeAll(done + [g]), MergeAll(done) + [MergeData(g)];
    assert |l| == |r|;
    forall k | 0 <= k < |l|
      ensures l[k] == r[k]
    {
      if k < |done| {
        assert (done + [g])[k] == done[k];
      } else {
        assert (done + [g])[k] == g;
      }
    }
  }

  /**
   * `diarize_text`: validate, attach speakers, merge. `None` stands for the
   * validation error `get_text_with_timestamp` raises.
   */
  method DiarizeText(raws: seq<RawSegment>, dominantSpeaker: Segment -> Option<string>) returns (r: Option<seq<Fragment>>)
    ensures r.Some? <==> forall i :: 0 <= i < |raws| ==> AcceptedAsWritten(raws[i])
    ensures r.Some? ==> r.value == Turns(Attributed(GetTextWithTimestamp(raws).value, dominantSpeaker))
  {
    var timestampTexts := GetTextWithTimestamp(raws);
    if timestampTexts.None? {
      return None;
    }
    var spkText := AddSpeakerInfoToText(timestampTexts.value, dominantSpeaker);
    assert spkText == Attributed(timestampTexts.value, dominantSpeaker);
    var merged := MergeSentence(spkText);
    return Some(merged);
  }

  // --------------------------------------------- what the merger promises

  function Flatten(groups: seq<seq<Fragment>>): seq<Fragment> {
    if groups == [] then [] else groups[0] + Flatten(groups[1..])
  }

  /** Every fragment of `g` has the speaker `spk`. */
  predicate AllSpoken(g: seq<Fragment>, spk: Option<string>) {
    forall j :: 0 <= j < |g| ==> g[j].spk == spk
  }

  /**
   * A run belongs entirely to its first fragment's speaker, unless that first
   * fragment has no speaker: `pre_spk` is then `None`, the speaker-change cut
   * cannot fire, and the run takes in whatever follows.
   */
  predicate SpeakerOk(g: seq<Fragment>)
    requires |g| > 0
  {
    g[0].spk == None || AllSpoken(g, g[0].spk)
  }

  /** The accumulator's invariant: `pre_spk` is its last fragment's speaker, and it is `SpeakerOk`. */
  predicate PendingOk(pending: seq<Fragment>, preSpk: Option<string>) {
    pending != [] ==> preSpk == pending[|pending| - 1].spk && SpeakerOk(pending)
  }

  lemma FlattenCons(g: seq<Fragment>, rest: seq<seq<Fragment>>)
    ensures Flatten([g] + rest) == g + Flatten(rest)
  {
    assert ([g] + rest)[1..] == rest;
  }

  /** Re-bracketing `pending`, the head and the tail of `frags`. */
  lemma PendingHeadTail(pending: seq<Fragment>, frags: seq<Fragment>)
    requires frags != []
    ensures pending + ([frags[0]] + frags[1..]) == pending + frags
    ensures (pending + [frags[0]]) + ([] + frags[1..]) == pending + frags
  {
    assert [frags[0]] + frags[1..] == frags;
  }

  /** The runs of `Run` lay out the pending fragments and then the input, in order. */
  lemma {:induction false} RunFlatten(frags: seq<Fragment>, pending: seq<Fragment>, preSpk: Option<string>)
    ensures Flatten(Run(frags, pending, preSpk)) == pending + frags
    decreases |frags|
  {
    if frags == [] {
      if |pending| > 0 {
        FlattenCons(pending, []);
      }
    } else {
      var f, rest := frags[0], frags[1..];
      PendingHeadTail(pending, frags);
      if f.spk != preSpk && preSpk.Some? && |pending| > 0 {
        var later := Run(rest, [f], f.spk);
        assert Run(frags, pending, preSpk) == [pending] + later;
        RunFlatten(rest, [f], f.spk);
        FlattenCons(pending, later);
      } else if EndsSentence(f.text) {
        var later := Run(rest, [], f.spk);
        assert Run(frags, pending, preSpk) == [pending + [f]] + later;
        RunFlatten(rest, [], f.spk);
        FlattenCons(pending + [f], later);
      } else {
        assert Run(frags, pending, preSpk) == Run(rest, pending + [f], f.spk);
        RunFlatten(rest, pending + [f], f.spk);
        assert (pending + [f]) + rest == pending + ([f] + rest);
      }
    }
  }

  /** Every run is `SpeakerOk`. */
  predicate SpeakersOk(g: seq<seq<Fragment>>)
    requires forall k :: 0 <= k < |g| ==> |g[k]| > 0
  {
    forall k :: 0 <= k < |g| ==> SpeakerOk(g[k])
  }

  lemma SpeakersOkCons(g0: seq<Fragment>, r: seq<seq<Fragment>>)
    requires |g0| > 0 && forall k :: 0 <= k < |r| ==> |r[k]| > 0
    requires SpeakerOk(g0) && SpeakersOk(r)
    ensures SpeakersOk([g0] + r)
  {
    var g: seq<seq<Fragment>> := [g0] + r;
    forall k | 0 <= k < |g|
      ensures SpeakerOk(g[k])
    {
      if k > 0 {
        assert g[k] == r[k - 1];
      }
    }
  }

  /** Appending a fragment to the accumulator keeps its invariant when no cut is due. */
  lemma PendingSnoc(pending: seq<Fragment>, preSpk: Option<string>, f: Fragment)
    requires PendingOk(pending, preSpk)
    requires !(f.spk != preSpk && preSpk.Some? && |pending| > 0)
    ensures PendingOk(pending + [f], f.spk)
  {
    var p := pending + [f];
    assert p[0] == (if pending == [] then f else pending[0]);
    if pending != [] && pending[0].spk != None {
      assert forall j :: 0 <= j < |p| ==> p[j] == (if j < |pending| then pending[j] else f);
    }
  }

  /** Each run of `Run` belongs to its first fragment's speaker, or opens without one. */
  lemma {:induction false} RunSpeakers(frags: seq<Fragment>, pending: seq<Fragment>, preSpk: Option<string>)
    requires PendingOk(pending, preSpk)
    ensures SpeakersOk(Run(frags, pending, preSpk))
    decreases |frags|
  {
    if frags != [] {
      var f, rest := frags[0], frags[1..];
      if f.spk != preSpk && preSpk.Some? && |pending| > 0 {
        RunSpeakers(rest, [f], f.spk);
        SpeakersOkCons(pending, Run(rest, [f], f.spk));
      } else if EndsSentence(f.text) {
        PendingSnoc(pending, preSpk, f);
        RunSpeakers(rest, [], f.spk);
        SpeakersOkCons(pending + [f], Run(rest, [], f.spk));
      } else {
        PendingSnoc(pending, preSpk, f);
        RunSpeakers(rest, pending + [f], f.spk);
      }
    }
  }

  /** `Run` emits at most one run per input fragment, plus one for a non-empty accumulator. */
  lemma {:induction false} RunCount(frags: seq<Fragment>, pending: seq<Fragment>, preSpk: Option<string>)
    ensures |Run(frags, pending, preSpk)| <= |frags| + (if pending == [] then 0 else 1)
    decreases |frags|
  {
    if frags != [] {
      var f, rest := frags[0], frags[1..];
      if f.spk != preSpk && preSpk.Some? && |pending| > 0 {
        RunCount(rest, [f], f.spk);
      } else if EndsSentence(f.text) {
        RunCount(rest, [], f.spk);
      } else {
        RunCount(rest, pending + [f], f.spk);
      }
    }
  }

  /** Inside a run, a sentence-ending fragment is either the run's first or its last. */
  lemma {:induction false} RunInterior(frags: seq<Fragment>, pending: seq<Fragment>, preSpk: Option<string>)
    requires forall j :: 1 <= j < |pending| ==> !EndsSentence(pending[j].text)
    ensures forall k, j :: 0 <= k < |Run(frags, pending, preSpk)| && 0 < j < |Run(frags, pending, preSpk)[k]| - 1 ==>
      !EndsSentence(Run(frags, pending, preSpk)[k][j].text)
    decreases |frags|
  {
    if frags != [] {
      var f, rest := frags[0], frags[1..];
      if f.spk != preSpk && preSpk.Some? && |pending| > 0 {
        RunInterior(rest, [f], f.spk);
      } else if EndsSentence(f.text) {
        RunInterior(rest, [], f.spk);
      } else {
        RunInterior(rest, pending + [f], f.spk);
      }
    }
  }

  /**
   * A run of two or more fragments that opens with a sentence end was opened
   * by a speaker change: its first fragment's speaker differs from the
   * previous run's last one.
   */
  predicate OpenersJustified(g: seq<seq<Fragment>>)
    requires forall k :: 0 <= k < |g| ==> |g[k]| > 0
  {
    forall k :: 0 < k < |g| && |g[k]| > 1 && EndsSentence(g[k][0].text) ==>
      g[k][0].spk != g[k - 1][|g[k - 1]| - 1].spk
  }

  lemma OpenersJustifiedCons(g0: seq<Fragment>, r: seq<seq<Fragment>>)
    requires |g0| > 0 && forall k :: 0 <= k < |r| ==> |r[k]| > 0
    requires OpenersJustified(r)
    requires r != [] && |r[0]| > 1 && EndsSentence(r[0][0].text) ==> r[0][0].spk != g0[|g0| - 1].spk
    ensures OpenersJustified([g0] + r)
  {
    var g: seq<seq<Fragment>> := [g0] + r;
    forall k | 0 < k < |g| && |g[k]| > 1 && EndsSentence(g[k][0].text)
      ensures g[k][0].spk != g[k - 1][|g[k - 1]| - 1].spk
    {
      assert g[k] == r[k - 1];
      if k > 1 {
        assert g[k - 1] == r[k - 2];
      }
    }
  }

  /**
   * Every run after the first that opens with a sentence end follows a
   * speaker change, and the first run can only do so when it continues a
   * non-empty accumulator.
   */
  lemma {:induction false} RunOpeners(frags: seq<Fragment>, pending: seq<Fragment>, preSpk: Option<string>)
    requires PendingOk(pending, preSpk)
    ensures OpenersJustified(Run(frags, pending, preSpk))
    ensures var r := Run(frags, pending, preSpk);
      r != [] && |r[0]| > 1 && EndsSentence(r[0][0].text) ==> pending != [] && r[0][0] == pending[0]
    decreases |frags|
  {
    if frags != [] {
      var f, rest := frags[0], frags[1..];
      if f.spk != preSpk && preSpk.Some? && |pending| > 0 {
        RunOpeners(rest, [f], f.spk);
        OpenersJustifiedCons(pending, Run(rest, [f], f.spk));
      } else if EndsSentence(f.text) {
        RunOpeners(rest, [], f.spk);
        OpenersJustifiedCons(pending + [f], Run(rest, [], f.spk));
      } else {
        PendingSnoc(pending, preSpk, f);
        RunOpeners(rest, pending + [f], f.spk);
      }
    }
  }

  lemma FirstOfFlatten(groups: seq<seq<Fragment>>, s: seq<Fragment>)
    requires groups != [] && |groups[0]| > 0 && Flatten(groups) == s
    ensures s != [] && groups[0][0] == s[0]
  {
  }

  /** Sentences end at a speaker change or a sentence end. */
  predicate CutsJustified(g: seq<seq<Fragment>>)
    requires forall k :: 0 <= k < |g| ==> |g[k]| > 0
  {
    forall k :: 0 <= k < |g| - 1 ==>
      EndsSentence(g[k][|g[k]| - 1].text) || g[k + 1][0].spk != g[k][|g[k]| - 1].spk
  }

  lemma CutsJustifiedCons(g0: seq<Fragment>, r: seq<seq<Fragment>>)
    requires |g0| > 0 && forall k :: 0 <= k < |r| ==> |r[k]| > 0
    requires CutsJustified(r)
    requires r != [] ==> EndsSentence(g0[|g0| - 1].text) || r[0][0].spk != g0[|g0| - 1].spk
    ensures CutsJustified([g0] + r)
  {
    var g: seq<seq<Fragment>> := [g0] + r;
    forall k | 0 <= k < |g| - 1
      ensures EndsSentence(g[k][|g[k]| - 1].text) || g[k + 1][0].spk != g[k][|g[k]| - 1].spk
    {
      if k > 0 {
        assert g[k] == r[k - 1] && g[k + 1] == r[k];
      }
    }
  }

  /**
   * `Run` cuts between two runs only where the speaker changes or where the
   * earlier run ends with a sentence-ending fragment.
   */
  lemma {:induction false} RunBoundaries(frags: seq<Fragment>, pending: seq<Fragment>, preSpk: Option<string>)
    requires PendingOk(pending, preSpk)
    ensures CutsJustified(Run(frags, pending, preSpk))
    decreases |frags|
  {
    if frags != [] {
      var f, rest := frags[0], frags[1..];
      if f.spk != preSpk && preSpk.Some? && |pending| > 0 {
        var r := Run(rest, [f], f.spk);
        RunBoundaries(rest, [f], f.spk);
        RunFlatten(rest, [f], f.spk);
        if r != [] {
          FirstOfFlatten(r, [f] + rest);
        }
        CutsJustifiedCons(pending, r);
      } else if EndsSentence(f.text) {
        RunBoundaries(rest, [], f.spk);
        assert (pending + [f])[|pending + [f]| - 1] == f;
        CutsJustifiedCons(pending + [f], Run(rest, [], f.spk));
      } else {
        PendingSnoc(pending, preSpk, f);
        RunBoundaries(rest, pending + [f], f.spk);
      }
    }
  }

  /**
   * The sentences partition the fragments: the runs are non-empty and laid
   * end to end they give back the input exactly. Each run belongs to its
   * first fragment's speaker unless that fragment has none.
   */
  lemma GroupsPartition(frags: seq<Fragment>)
    ensures Flatten(Groups(frags)) == frags
    ensures forall k :: 0 <= k < |Groups(frags)| ==> |Groups(frags)[k]| > 0
    ensures SpeakersOk(Groups(frags))
  {
    assert [] + frags == frags;
    RunFlatten(frags, [], None);
    RunSpeakers(frags, [], None);
  }

  /** There are never more sentences than fragments, and none without fragments. */
  lemma TurnsCount(frags: seq<Fragment>)
    ensures |Turns(frags)| <= |frags|
    ensures frags == [] <==> Turns(frags) == []
  {
    RunCount(frags, [], None);
    RunFlatten(frags, [], None);
  }

  /**
   * Where a sentence-ending fragment sits in its sentence: never strictly
   * inside, and first of two or more only when a speaker change opened the
   * sentence. Otherwise it is last, so the accumulator is empty after it.
   */
  lemma GroupsInterior(frags: seq<Fragment>)
    ensures forall k, j :: 0 <= k < |Groups(frags)| && 0 < j < |Groups(frags)[k]| - 1 ==>
      !EndsSentence(Groups(frags)[k][j].text)
    ensures forall k :: 0 <= k < |Groups(frags)| && |Groups(frags)[k]| > 1 && EndsSentence(Groups(frags)[k][0].text) ==>
      k > 0 && Groups(frags)[k][0].spk != Groups(frags)[k - 1][|Groups(frags)[k - 1]| - 1].spk
  {
    RunInterior(frags, [], None);
    RunOpeners(frags, [], None);
  }

  /** Consecutive sentences are separated by a speaker change or a sentence end. */
  lemma GroupsBoundaries(frags: seq<Fragment>)
    ensures CutsJustified(Groups(frags))
  {
    RunBoundaries(frags, [], None);
  }

  lemma {:induction false} MergeAllTexts(groups: seq<seq<Fragment>>)
    requires forall k :: 0 <= k < |groups| ==> |groups[k]| > 0
    ensures JoinTexts(MergeAll(groups)) == JoinTexts(Flatten(groups))
  {
    if groups != [] {
      assert MergeAll(groups)[1..] == MergeAll(groups[1..]);
      MergeAllTexts(groups[1..]);
      JoinTextsAppend(groups[0], Flatten(groups[1..]));
    }
  }

  /** Merging neither drops, duplicates nor reorders text: the sentences spell out the fragments. */
  lemma TurnsPreserveText(frags: seq<Fragment>)
    ensures JoinTexts(Turns(frags)) == JoinTexts(frags)
  {
    RunFlatten(frags, [], None);
    assert [] + frags == frags;
    MergeAllTexts(Groups(frags));
  }

  lemma {:induction false} InFlatten(groups: seq<seq<Fragment>>, k: nat, j: nat)
    requires k < |groups| && j < |groups[k]|
    ensures groups[k][j] in Flatten(groups)
  {
    if k > 0 {
      InFlatten(groups[1..], k - 1, j);
    }
  }

  /** The run and the position in it of the `i`-th fragment laid out by `Flatten`. */
  lemma {:induction false} FlattenIndex(groups: seq<seq<Fragment>>, i: nat) returns (k: nat, j: nat)
    requires i < |Flatten(groups)|
    ensures k < |groups| && j < |groups[k]| && groups[k][j] == Flatten(groups)[i]
  {
    FlattenCons(groups[0], groups[1..]);
    assert [groups[0]] + groups[1..] == groups;
    if i < |groups[0]| {
      k, j := 0, i;
    } else {
      var k', j' := FlattenIndex(groups[1..], i - |groups[0]|);
      k, j := k' + 1, j';
    }
  }

  /** Every fragment of every sentence run is one of the input fragments. */
  lemma GroupMembers(frags: seq<Fragment>, k: nat, j: nat)
    requires k < |Groups(frags)| && j < |Groups(frags)[k]|
    ensures Groups(frags)[k][j] in frags
  {
    GroupsPartition(frags);
    InFlatten(Groups(frags), k, j);
  }

  /**
   * When every fragment has a speaker, every sentence has one speaker
   * throughout, and a sentence holding a fragment without a speaker is led by
   * one that has none.
   */
  lemma GroupSpeakers(frags: seq<Fragment>)
    ensures (forall i :: 0 <= i < |frags| ==> frags[i].spk.Some?) ==>
      forall k :: 0 <= k < |Groups(frags)| ==> AllSpoken(Groups(frags)[k], Groups(frags)[k][0].spk)
    ensures forall k, j :: 0 <= k < |Groups(frags)| && 0 <= j < |Groups(frags)[k]| && Groups(frags)[k][j].spk == None ==>
      Groups(frags)[k][0].spk == None
  {
    GroupsPartition(frags);
    var g: seq<seq<Fragment>> := Groups(frags);
    if forall i :: 0 <= i < |frags| ==> frags[i].spk.Some? {
      forall k | 0 <= k < |g|
        ensures AllSpoken(g[k], g[k][0].spk)
      {
        GroupMembers(frags, k, 0);
      }
    }
  }

  /** Each sentence spans its run: first start, last end, the run's speaker and joined text. */
  lemma TurnsSpanGroups(frags: seq<Fragment>)
    ensures |Turns(frags)| == |Groups(frags)|
    ensures forall k :: 0 <= k < |Turns(frags)| ==>
      var g := Groups(frags)[k];
      Turns(frags)[k] == Fragment(Segment(g[0].seg.start, g[|g| - 1].seg.end), g[0].spk, JoinTexts(g))
  {
  }

  // ----------------------------------------------------------- scenarios

  /** "Hello" then "there." from one speaker: one sentence spanning both, flushed by the full stop. */
  lemma HelloThereIsOneTurn(a: Segment, b: Segment)
    ensures Turns([Fragment(a, Some("SPEAKER_01"), "Hello"), Fragment(b, Some("SPEAKER_01"), "there.")])
      == [Fragment(Segment(a.start, b.end), Some("SPEAKER_01"), "Hellothere.")]
  {
    var f1, f2 := Fragment(a, Some("SPEAKER_01"), "Hello"), Fragment(b, Some("SPEAKER_01"), "there.");
    assert !EndsSentence(f1.text) && EndsSentence(f2.text);
    assert [f1, f2][1..] == [f2];
    assert [f2][1..] == [];
    assert Run([], [], Some("SPEAKER_01")) == [];
    assert [f1] + [f2] == [f1, f2];
    assert Run([f2], [f1], Some("SPEAKER_01")) == [[f1, f2]];
    assert [] + [f1] == [f1];
    assert Groups([f1, f2]) == [[f1, f2]];
    assert JoinTexts([f2]) == "there.";
    assert JoinTexts([f1, f2]) == "Hello" + "there." == "Hellothere.";
    assert Turns([f1, f2]) == [MergeData([f1, f2])];
  }

  /** Speakers A, A, B without sentence ends: the speaker change cuts after the second fragment. */
  lemma SpeakerChangeCutsTurn(f1: Fragment, f2: Fragment, f3: Fragment)
    requires f1.spk == f2.spk && f1.spk.Some? && f3.spk != f1.spk
    requires !EndsSentence(f1.text) && !EndsSentence(f2.text)
    ensures Groups([f1, f2, f3]) == [[f1, f2], [f3]]
  {
    assert [f1, f2, f3][1..] == [f2, f3];
    assert [f2, f3][1..] == [f3];
    assert [f3][1..] == [];
    assert [] + [f1] == [f1] && [f1] + [f2] == [f1, f2];
    assert Run([f3], [f1, f2], f2.spk) == [[f1, f2], [f3]];
    assert Run([f2, f3], [f1], f1.spk) == Run([f3], [f1, f2], f2.spk);
  }

  /** After a sentence end the same speaker opens a new sentence: consecutive sentences can share a speaker. */
  lemma SameSpeakerConsecutiveTurns(a: Segment, b: Segment)
    ensures var t := Turns([Fragment(a, Some("A"), "Yes."), Fragment(b, Some("A"), "Sure")]);
      |t| == 2 && t[0].spk == t[1].spk == Some("A")
  {
    var f1, f2 := Fragment(a, Some("A"), "Yes."), Fragment(b, Some("A"), "Sure");
    assert EndsSentence(f1.text) && !EndsSentence(f2.text);
    assert [f1, f2][1..] == [f2];
    assert [f2][1..] == [];
    assert Run([], [], Some("A")) == [];
    assert [] + [f2] == [f2];
    assert Run([f2], [], Some("A")) == [[f2]];
    assert [] + [f1] == [f1];
    assert Groups([f1, f2]) == [[f1], [f2]];
    var t := Turns([f1, f2]);
    assert t == MergeAll([[f1], [f2]]);
    assert t[0] == MergeData([f1]) && t[1] == MergeData([f2]);
  }

  /** A fragment that opens a sentence on a speaker change is not flushed by its own full stop. */
  lemma SpeakerChangeSkipsSentenceEnd(a: Segment, b: Segment, c: Segment)
    ensures Groups([Fragment(a, Some("A"), "Hi"), Fragment(b, Some("B"), "Yes."), Fragment(c, Some("B"), "Go")])
      == [[Fragment(a, Some("A"), "Hi")], [Fragment(b, Some("B"), "Yes."), Fragment(c, Some("B"), "Go")]]
  {
    var f1, f2, f3 := Fragment(a, Some("A"), "Hi"), Fragment(b, Some("B"), "Yes."), Fragment(c, Some("B"), "Go");
    assert !EndsSentence(f1.text) && EndsSentence(f2.text) && !EndsSentence(f3.text);
    assert [f1, f2, f3][1..] == [f2, f3];
    assert [f2, f3][1..] == [f3];
    assert [f3][1..] == [];
    assert [] + [f1] == [f1];
    assert [f2] + [f3] == [f2, f3];
    assert Run([f3], [f2], Some("B")) == [[f2, f3]];
    assert Run([f2, f3], [f1], Some("A")) == [[f1]] + Run([f3], [f2], Some("B"));
    assert Groups([f1, f2, f3]) == Run([f2, f3], [f1], Some("A"));
  }

  /**
   * A fragment without a speaker leaves `pre_spk` at `None`, so the next
   * speaker's fragment joins its sentence instead of cutting it.
   */
  lemma UnlabelledAbsorbsNextSpeaker(a: Segment, b: Segment)
    ensures Groups([Fragment(a, None, "Um"), Fragment(b, Some("A"), "Yes")])
      == [[Fragment(a, None, "Um"), Fragment(b, Some("A"), "Yes")]]
  {
    var f1, f2 := Fragment(a, None, "Um"), Fragment(b, Some("A"), "Yes");
    assert !EndsSentence(f1.text) && !EndsSentence(f2.text);
    assert [f1, f2][1..] == [f2];
    assert [f2][1..] == [];
    assert [] + [f1] == [f1] && [f1] + [f2] == [f1, f2];
    assert Run([f2], [f1], None) == Run([], [f1, f2], Some("A"));
  }
}

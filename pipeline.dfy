/**
 * Where the two halves meet: the backend writes the lines of `save_in_txt`
 * to a text file, one per line, and the dashboard parses that file with
 * `text_to_json`. Parsing gives back every segment's speaker, text and
 * sentiment label, provided the rendered times contain no whitespace, the
 * speaker contains no space and neither speaker nor text contains a newline.
 */
module Pipeline {
  import opened Wrappers
  import opened PyStrings
  import opened SpeechToText
  import opened ValidatorsDetectors
  import opened TextToJson

  /** The transcript file: every line followed by a newline. */
  function WriteLines(lines: seq<string>): (file: string)
    ensures lines != [] ==> file == Join(lines, "\n") + "\n"
  {
    if lines == [] then ""
    else if |lines| == 1 then lines[0] + "\n"
    else lines[0] + "\n" + WriteLines(lines[1..])
  }

  /** The number `float` reads back from a rendered time; `0.0` stands in where it cannot. */
  function ReadTime(parseFloat: string -> Option<real>, rendered: string): real {
    match parseFloat(rendered)
    case Some(t) => t
    case None => 0.0
  }

  /** The record `text_to_json` should read back from a rendered segment. */
  function Expected(segment: DiarizationSegment, fixed2: real -> string, polarity: string -> real, parseFloat: string -> Option<real>): ParsedLine {
    ParsedLine(
      ReadTime(parseFloat, fixed2(segment.start)), ReadTime(parseFloat, fixed2(segment.end)),
      segment.speaker, segment.text, GetSentiment(polarity(segment.text)))
  }

  /** What the round trip needs of a segment and of the number format. */
  predicate Renderable(segment: DiarizationSegment, fixed2: real -> string, parseFloat: string -> Option<real>) {
    && fixed2(segment.start) != [] && !IsSpace(fixed2(segment.start)[0])
    && ' ' !in fixed2(segment.start) && '\n' !in fixed2(segment.start)
    && ' ' !in fixed2(segment.end) && '\n' !in fixed2(segment.end)
    && parseFloat(fixed2(segment.start)).Some? && parseFloat(fixed2(segment.end)).Some?
    && ' ' !in segment.speaker && '\n' !in segment.speaker && '\n' !in segment.text
  }

  lemma SplitTwo(c: string, d: string)
    requires ' ' !in c
    ensures SplitMax(c + [' '] + d, ' ', 1) == [c, d]
  {
    assert SplitMax(d, ' ', 0) == [d];
    SplitMaxStep(c, ' ', d, 0);
  }

  lemma SplitThree(b: string, c: string, d: string)
    requires ' ' !in b && ' ' !in c
    ensures SplitMax(b + [' '] + (c + [' '] + d), ' ', 2) == [b, c, d]
  {
    SplitTwo(c, d);
    SplitMaxStep(b, ' ', c + [' '] + d, 1);
  }

  /** `split(" ", 3)` of four fields joined by single spaces, the first three without a space. */
  lemma SplitFour(a: string, b: string, c: string, d: string)
    requires ' ' !in a && ' ' !in b && ' ' !in c
    ensures SplitMax(a + [' '] + (b + [' '] + (c + [' '] + d)), ' ', 3) == [a, b, c, d]
  {
    SplitThree(b, c, d);
    SplitMaxStep(a, ' ', b + [' '] + (c + [' '] + d), 2);
  }

  /** `ParseLine` of a line whose four fields and whose label split are known. */
  lemma ParseFromParts(line: string, parseFloat: string -> Option<real>, rest: string, text: string, tail: string)
    requires |Fields(line)| == 4 && Fields(line)[3] == rest
    requires parseFloat(Fields(line)[0]).Some? && parseFloat(Fields(line)[1]).Some?
    requires RSplitOnce(rest, SentimentDelimiter) == [text, tail]
    ensures ParseLine(line, parseFloat)
      == Some(ParsedLine(parseFloat(Fields(line)[0]).value, parseFloat(Fields(line)[1]).value, Fields(line)[2], text, Strip(tail)))
  {
  }

  lemma ParseFromFields(line: string, parseFloat: string -> Option<real>, a: string, b: string, c: string, text: string, sentiment: string)
    requires Fields(line) == [a, b, c, text + SentimentDelimiter + sentiment]
    requires parseFloat(a).Some? && parseFloat(b).Some?
    requires RSplitOnce(text + SentimentDelimiter + sentiment, SentimentDelimiter) == [text, sentiment]
    requires Strip(sentiment) == sentiment
    ensures ParseLine(line, parseFloat) == Some(ParsedLine(parseFloat(a).value, parseFloat(b).value, c, text, sentiment))
  {
    ParseFromParts(line, parseFloat, text + SentimentDelimiter + sentiment, text, sentiment);
  }

  /** A label without spaces is what `rsplit` finds after the last tag, and `strip` keeps it. */
  lemma LabelSplit(text: string, sentiment: string)
    requires ' ' !in sentiment
    requires sentiment != [] && !IsSpace(sentiment[0]) && !IsSpace(sentiment[|sentiment| - 1])
    ensures RSplitOnce(text + SentimentDelimiter + sentiment, SentimentDelimiter) == [text, sentiment]
    ensures Strip(sentiment) == sentiment
  {
    RSplitBeforeTail(text, SentimentDelimiter, sentiment);
    StripUnchanged(sentiment);
  }

  /** A line in the rendered shape parses back to its parts, whatever the text holds. */
  lemma ParseRendered(line: string, parseFloat: string -> Option<real>, a: string, b: string, c: string, text: string, sentiment: string)
    requires ' ' !in a && ' ' !in b && ' ' !in c && ' ' !in sentiment
    requires sentiment != [] && !IsSpace(sentiment[0]) && !IsSpace(sentiment[|sentiment| - 1])
    requires parseFloat(a).Some? && parseFloat(b).Some?
    requires line == a + [' '] + (b + [' '] + (c + [' '] + (text + SentimentDelimiter + sentiment)))
    ensures ParseLine(line, parseFloat) == Some(ParsedLine(parseFloat(a).value, parseFloat(b).value, c, text, sentiment))
  {
    var rest := text + SentimentDelimiter + sentiment;
    LabelSplit(text, sentiment);
    SplitFour(a, b, c, rest);
    ParseFromFields(line, parseFloat, a, b, c, text, sentiment);
  }

  /** A rendered line parses back to its segment's times, speaker, text and label. */
  lemma RenderedLineParses(segment: DiarizationSegment, fixed2: real -> string, polarity: string -> real, parseFloat: string -> Option<real>)
    requires Renderable(segment, fixed2, parseFloat)
    ensures ParseLine(RenderLine(segment, fixed2, polarity), parseFloat) == Some(Expected(segment, fixed2, polarity, parseFloat))
  {
    var sentiment := GetSentiment(polarity(segment.text));
    var f1, f2 := fixed2(segment.start), fixed2(segment.end);
    assert RenderLine(segment, fixed2, polarity)
      == f1 + [' '] + (f2 + [' '] + (segment.speaker + [' '] + (segment.text + SentimentDelimiter + sentiment)));
    ParseRendered(RenderLine(segment, fixed2, polarity), parseFloat, f1, f2, segment.speaker, segment.text, sentiment);
  }

  /** A rendered line begins and ends with a non-whitespace character and holds no newline. */
  lemma RenderedLineShape(segment: DiarizationSegment, fixed2: real -> string, polarity: string -> real, parseFloat: string -> Option<real>)
    requires Renderable(segment, fixed2, parseFloat)
    ensures var line := RenderLine(segment, fixed2, polarity);
      line != [] && !IsSpace(line[0]) && !IsSpace(line[|line| - 1]) && '\n' !in line
  {
    var line := RenderLine(segment, fixed2, polarity);
    var f1 := fixed2(segment.start);
    var sentiment := GetSentiment(polarity(segment.text));
    var body := LineBody(segment, fixed2);
    assert line == body + SentimentTag + sentiment;
    assert body == f1 + (" " + fixed2(segment.end) + " " + segment.speaker + " " + segment.text);
    assert line[0] == f1[0];
    assert line[|line| - 1] == sentiment[|sentiment| - 1];
    assert '\n' !in SentimentTag;
  }

  /** Stripping a newline-terminated text that begins and ends with non-whitespace drops only the newline. */
  lemma StripTrailingNewline(s: string)
    requires s != [] && !IsSpace(s[0]) && !IsSpace(s[|s| - 1])
    ensures Strip(s + "\n") == s
  {
    var t := s + "\n";
    assert LStrip(t) == t;
    assert t[..|t| - 1] == s;
    assert RStrip(t) == RStrip(s);
    StripUnchanged(s);
  }

  /** The file of a non-empty transcript splits back into its lines. */
  lemma {:induction false} JoinEnds(lines: seq<string>)
    requires |lines| >= 1 && forall i :: 0 <= i < |lines| ==> lines[i] != []
    ensures var s := Join(lines, "\n");
      s != [] && s[0] == lines[0][0] && s[|s| - 1] == lines[|lines| - 1][|lines[|lines| - 1]| - 1]
  {
    if |lines| > 1 {
      JoinEnds(lines[1..]);
    }
  }

  /** Reading the file back with `strip().split("\n")` gives the lines that were written. */
  lemma FileLines(lines: seq<string>)
    requires |lines| >= 1
    requires forall i :: 0 <= i < |lines| ==>
      lines[i] != [] && !IsSpace(lines[i][0]) && !IsSpace(lines[i][|lines[i]| - 1]) && '\n' !in lines[i]
    ensures Lines(WriteLines(lines)) == lines
  {
    JoinEnds(lines);
    StripTrailingNewline(Join(lines, "\n"));
    SplitJoin(lines, '\n');
  }

  /** Lines that each parse make a transcript that parses to those records. */
  lemma ParseAllOf(lines: seq<string>, parse: string -> Option<ParsedLine>, expected: seq<ParsedLine>)
    requires |lines| == |expected|
    requires forall i :: 0 <= i < |lines| ==> parse(lines[i]) == Some(expected[i])
    ensures ParseAll(lines, parse) == Some(expected)
  {
    ParseAllMeaning(lines, parse);
    var r := ParseAll(lines, parse);
    assert r.Some?;
    assert forall i :: 0 <= i < |lines| ==> r.value[i] == expected[i];
    assert r.value == expected;
  }

  /** Every line of `save_in_txt` has the shape the file round trip needs. */
  lemma ScriptLinesShaped(result: seq<DiarizationSegment>, scriptLines: seq<string>, fixed2: real -> string, polarity: string -> real, parseFloat: string -> Option<real>)
    requires forall i :: 0 <= i < |result| ==> Renderable(result[i], fixed2, parseFloat)
    requires |scriptLines| == |result|
    requires forall i :: 0 <= i < |result| ==> scriptLines[i] == RenderLine(result[i], fixed2, polarity)
    ensures forall i :: 0 <= i < |scriptLines| ==>
      scriptLines[i] != [] && !IsSpace(scriptLines[i][0]) && !IsSpace(scriptLines[i][|scriptLines[i]| - 1]) && '\n' !in scriptLines[i]
  {
    forall i | 0 <= i < |scriptLines|
      ensures scriptLines[i] != [] && !IsSpace(scriptLines[i][0]) && !IsSpace(scriptLines[i][|scriptLines[i]| - 1]) && '\n' !in scriptLines[i]
    {
      RenderedLineShape(result[i], fixed2, polarity, parseFloat);
    }
  }

  /** Every line of `save_in_txt` parses back to its segment. */
  lemma ScriptLinesParse(result: seq<DiarizationSegment>, scriptLines: seq<string>, fixed2: real -> string, polarity: string -> real, parseFloat: string -> Option<real>)
    requires forall i :: 0 <= i < |result| ==> Renderable(result[i], fixed2, parseFloat)
    requires |scriptLines| == |result|
    requires forall i :: 0 <= i < |result| ==> scriptLines[i] == RenderLine(result[i], fixed2, polarity)
    ensures forall i :: 0 <= i < |result| ==>
      LineParser(parseFloat)(scriptLines[i]) == Some(Expected(result[i], fixed2, polarity, parseFloat))
  {
    forall i | 0 <= i < |result|
      ensures LineParser(parseFloat)(scriptLines[i]) == Some(Expected(result[i], fixed2, polarity, parseFloat))
    {
      RenderedLineParses(result[i], fixed2, polarity, parseFloat);
    }
  }

  /**
   * The file `save_in_txt` output is written to, read back by `text_to_json`,
   * parses without error into one record per segment, in order, each with
   * the segment's times as the number format renders them, its speaker, its
   * text and its sentiment label.
   */
  lemma FileRoundTrip(result: seq<DiarizationSegment>, scriptLines: seq<string>, fixed2: real -> string, polarity: string -> real, parseFloat: string -> Option<real>)
    requires |result| >= 1
    requires forall i :: 0 <= i < |result| ==> Renderable(result[i], fixed2, parseFloat)
    requires |scriptLines| == |result|
    requires forall i :: 0 <= i < |result| ==> scriptLines[i] == RenderLine(result[i], fixed2, polarity)
    ensures var parsed := ParseAll(Lines(WriteLines(scriptLines)), LineParser(parseFloat));
      && parsed.Some?
      && |parsed.value| == |result|
      && forall i :: 0 <= i < |result| ==> parsed.value[i] == Expected(result[i], fixed2, polarity, parseFloat)
  {
    ScriptLinesShaped(result, scriptLines, fixed2, polarity, parseFloat);
    ScriptLinesParse(result, scriptLines, fixed2, polarity, parseFloat);
    var expected := seq(|result|, i requires 0 <= i < |result| => Expected(result[i], fixed2, polarity, parseFloat));
    FileParses(scriptLines, LineParser(parseFloat), expected);
  }

  /** A file of well-shaped lines, each of which parses, parses line by line. */
  lemma FileParses(lines: seq<string>, parse: string -> Option<ParsedLine>, expected: seq<ParsedLine>)
    requires |lines| >= 1 && |lines| == |expected|
    requires forall i :: 0 <= i < |lines| ==>
      lines[i] != [] && !IsSpace(lines[i][0]) && !IsSpace(lines[i][|lines[i]| - 1]) && '\n' !in lines[i]
    requires forall i :: 0 <= i < |lines| ==> parse(lines[i]) == Some(expected[i])
    ensures ParseAll(Lines(WriteLines(lines)), parse) == Some(expected)
  {
    FileLines(lines);
    ParseAllOf(lines, parse, expected);
  }

  /**
   * The records built from the parsed segments keep each segment's speaker,
   * text and label, and since every label is one of the three keys the net
   * tally counts every segment.
   */
  lemma RecordsOfSegments(parsed: seq<ParsedLine>, result: seq<DiarizationSegment>, fixed2: real -> string, polarity: string -> real, parseFloat: string -> Option<real>, cfg: WordsConfig, m: Matchers)
    requires |parsed| == |result|
    requires forall i :: 0 <= i < |result| ==> parsed[i] == Expected(result[i], fixed2, polarity, parseFloat)
    ensures var conv := Records(parsed, cfg, m);
      && |conv| == |result|
      && (forall i :: 0 <= i < |result| ==>
            conv[i].speaker == result[i].speaker && conv[i].text == result[i].text
            && conv[i].sentiment == GetSentiment(polarity(result[i].text)))
      && TallyOf(conv, Net).positive + TallyOf(conv, Net).neutral + TallyOf(conv, Net).negative == |result|
  {
    var conv := Records(parsed, cfg, m);
    forall i | 0 <= i < |conv|
      ensures conv[i].sentiment in SentimentKeys
    {
      assert IsSentimentLabel(GetSentiment(polarity(result[i].text)));
    }
    NetTallyBound(conv);
  }

  /**
   * End to end: the records `text_to_json` builds from the written transcript
   * are one per segment, in order, with the segment's speaker, text and
   * label, and the net sentiment tally counts every one of them.
   */
  lemma TranscriptRoundTrip(result: seq<DiarizationSegment>, scriptLines: seq<string>, fixed2: real -> string, polarity: string -> real, parseFloat: string -> Option<real>, cfg: WordsConfig, m: Matchers)
    requires |result| >= 1
    requires forall i :: 0 <= i < |result| ==> Renderable(result[i], fixed2, parseFloat)
    requires |scriptLines| == |result|
    requires forall i :: 0 <= i < |result| ==> scriptLines[i] == RenderLine(result[i], fixed2, polarity)
    ensures var parsed := ParseAll(Lines(WriteLines(scriptLines)), LineParser(parseFloat));
      parsed.Some? &&
      var conv := Records(parsed.value, cfg, m);
      && |conv| == |result|
      && (forall i :: 0 <= i < |result| ==>
            conv[i].speaker == result[i].speaker && conv[i].text == result[i].text
            && conv[i].sentiment == GetSentiment(polarity(result[i].text)))
      && TallyOf(conv, Net).positive + TallyOf(conv, Net).neutral + TallyOf(conv, Net).negative == |result|
  {
    FileRoundTrip(result, scriptLines, fixed2, polarity, parseFloat);
    var parsed := ParseAll(Lines(WriteLines(scriptLines)), LineParser(parseFloat));
    RecordsOfSegments(parsed.value, result, fixed2, polarity, parseFloat, cfg, m);
  }
}

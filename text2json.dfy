/**
 * `text_to_json`: the parser that turns a transcript, one line per sentence,
 * into the per-line records, the call totals and the sentiment tallies the
 * dashboard reads.
 */
module TextToJson {
  import opened Wrappers
  import opened PyStrings
  import opened ValidatorsDetectors

  /** The speaker labels the parser gives a role: the handler (agent) and the client (customer). */
  const HandlerLabel: string := "SPEAKER_01"
  const ClientLabel: string := "SPEAKER_00"

  /** The literal before the sentiment label on every line. */
  const SentimentDelimiter: string := " SENTIMENT:"

  /** The keys of each sentiment tally. */
  const SentimentKeys: seq<string> := ["positive", "neutral", "negative"]

  /** `text.strip().split("\n")` */
  function Lines(text: string): seq<string> {
    Split(Strip(text), '\n')
  }

  /** `line.split(" ", 3)` */
  function Fields(line: string): seq<string> {
    SplitMax(line, ' ', 3)
  }

  /** The five values read off one line. */
  datatype ParsedLine = ParsedLine(startTime: real, endTime: real, speaker: string, text: string, sentiment: string)

  /**
   * The parsing half of the loop body; `parseFloat` stands for Python's
   * `float`. `None` is every way the body raises: fewer than four fields, a
   * time that is not a number, no " SENTIMENT:" in the fourth field.
   */
  function ParseLine(line: string, parseFloat: string -> Option<real>): Option<ParsedLine> {
    var parts := Fields(line);
    if |parts| < 4 then None
    else
      var startTime := parseFloat(parts[0]);
      var endTime := parseFloat(parts[1]);
      if startTime.None? || endTime.None? then None
      else
        var halves := RSplitOnce(parts[3], SentimentDelimiter);
        if |halves| < 2 then None
        else Some(ParsedLine(startTime.value, endTime.value, parts[2], halves[0], Strip(halves[1])))
  }

  /**
   * What a parsed line holds: the two numbers of the first two fields, the
   * third field as speaker (which therefore has no space), the text before
   * the last " SENTIMENT:" of the rest, and the stripped label after it.
   */
  lemma ParseLineMeaning(line: string, parseFloat: string -> Option<real>)
    ensures var r := ParseLine(line, parseFloat);
      r.Some? <==>
        && |Fields(line)| == 4
        && parseFloat(Fields(line)[0]).Some?
        && parseFloat(Fields(line)[1]).Some?
        && exists k: nat :: OccursAt(Fields(line)[3], SentimentDelimiter, k)
    ensures var r := ParseLine(line, parseFloat);
      r.Some? ==>
        && r.value.startTime == parseFloat(Fields(line)[0]).value
        && r.value.endTime == parseFloat(Fields(line)[1]).value
        && r.value.speaker == Fields(line)[2]
        && ' ' !in r.value.speaker
    ensures var r := ParseLine(line, parseFloat);
      r.Some? ==>
        var rest := Fields(line)[3];
        && r.value.text + SentimentDelimiter <= rest
        && (forall k: nat :: OccursAt(rest, SentimentDelimiter, k) ==> k <= |r.value.text|)
        && r.value.sentiment == Strip(rest[|r.value.text| + |SentimentDelimiter|..])
  {
    var parts := Fields(line);
    if |parts| == 4 && parseFloat(parts[0]).Some? && parseFloat(parts[1]).Some? {
      var rest := parts[3];
      var halves := RSplitOnce(rest, SentimentDelimiter);
      if |halves| == 2 {
        RSplitHalves(rest, SentimentDelimiter);
      }
    }
  }

  /** One record of `conversation`. */
  datatype Entry = Entry(
    startTime: real,
    endTime: real,
    speaker: string,
    text: string,
    sentiment: string,
    reqPhraseCat: seq<string>,
    pilCategory: seq<string>,
    prohibitedWords: seq<string>)

  /**
   * The record built from a parsed line: required phrases only on handler
   * lines, personal details only on client lines, prohibited words on every
   * line.
   */
  function EntryOf(p: ParsedLine, cfg: WordsConfig, m: Matchers): Entry {
    Entry(
      p.startTime, p.endTime, p.speaker, p.text, p.sentiment,
      if p.speaker == HandlerLabel then RequiredPhrases(p.text, cfg, m).phraseCat else [],
      if p.speaker == ClientLabel then PiiCategories(p.text, cfg, m) else [],
      ProhibitedIn(Words(p.text), cfg.prohibitedPhrases))
  }

  /** `ParseLine` with the number parser fixed. */
  function LineParser(parseFloat: string -> Option<real>): string -> Option<ParsedLine> {
    line => ParseLine(line, parseFloat)
  }

  /** The lines parsed in order by `parse`, or `None` when some line is malformed. */
  function ParseAll(lines: seq<string>, parse: string -> Option<ParsedLine>): Option<seq<ParsedLine>> {
    if lines == [] then Some([])
    else
      match ParseAll(lines[..|lines| - 1], parse)
      case None => None
      case Some(init) =>
        match parse(lines[|lines| - 1])
        case None => None
        case Some(p) => Some(init + [p])
  }

  /**
   * A transcript is rejected exactly when some line is malformed; otherwise
   * parsed line `i` is what line `i` gives.
   */
  lemma {:induction false} ParseAllMeaning(lines: seq<string>, parse: string -> Option<ParsedLine>)
    ensures ParseAll(lines, parse).None? <==> exists i :: 0 <= i < |lines| && parse(lines[i]).None?
    ensures var r := ParseAll(lines, parse);
      r.Some? ==> |r.value| == |lines| && forall i :: 0 <= i < |lines| ==> parse(lines[i]) == Some(r.value[i])
  {
    if lines != [] {
      var init := lines[..|lines| - 1];
      ParseAllMeaning(init, parse);
      assert forall i :: 0 <= i < |init| ==> init[i] == lines[i];
    }
  }

  /** Parsing one more line that is well formed extends the parsed prefix by it. */
  lemma ParseAllSnoc(lines: seq<string>, i: nat, parse: string -> Option<ParsedLine>, parsed: seq<ParsedLine>, p: ParsedLine)
    requires i < |lines|
    requires ParseAll(lines[..i], parse) == Some(parsed) && parse(lines[i]) == Some(p)
    ensures ParseAll(lines[..i + 1], parse) == Some(parsed + [p])
  {
    assert lines[..i + 1][..i] == lines[..i];
  }

  /** A malformed line makes every longer transcript malformed too. */
  lemma {:induction false} ParseAllNoneExtends(lines: seq<string>, n: nat, parse: string -> Option<ParsedLine>)
    requires n <= |lines|
    requires ParseAll(lines[..n], parse).None?
    ensures ParseAll(lines, parse).None?
    decreases |lines| - n
  {
    if n < |lines| {
      assert lines[..n + 1][..n] == lines[..n];
      ParseAllNoneExtends(lines, n + 1, parse);
    } else {
      assert lines[..n] == lines;
    }
  }

  /** One record per parsed line. */
  function Records(parsed: seq<ParsedLine>, cfg: WordsConfig, m: Matchers): (conv: seq<Entry>)
    ensures |conv| == |parsed|
  {
    seq(|parsed|, i requires 0 <= i < |parsed| => EntryOf(parsed[i], cfg, m))
  }

  // ------------------------------------------------------------- totals

  /** Seconds spoken by `speaker`: the sum of `end_time - start_time` over their lines. */
  function TalkTime(conv: seq<Entry>, speaker: string): real {
    if conv == [] then 0.0
    else
      var e := conv[|conv| - 1];
      TalkTime(conv[..|conv| - 1], speaker) + (if e.speaker == speaker then e.endTime - e.startTime else 0.0)
  }

  /** Whitespace-separated tokens spoken by `speaker`. */
  function WordTotal(conv: seq<Entry>, speaker: string): nat {
    if conv == [] then 0
    else
      var e := conv[|conv| - 1];
      WordTotal(conv[..|conv| - 1], speaker) + (if e.speaker == speaker then |Words(e.text)| else 0)
  }

  /** Lines on which `category` was detected. */
  function LinesWith(conv: seq<Entry>, category: string): nat {
    if conv == [] then 0
    else LinesWith(conv[..|conv| - 1], category) + (if category in conv[|conv| - 1].reqPhraseCat then 1 else 0)
  }

  /** Personal-detail categories detected, summed over the lines. */
  function PiiTotal(conv: seq<Entry>): nat {
    if conv == [] then 0 else PiiTotal(conv[..|conv| - 1]) + |conv[|conv| - 1].pilCategory|
  }

  /** Prohibited-word occurrences, summed over the lines. */
  function ProhibitedTotal(conv: seq<Entry>): nat {
    if conv == [] then 0 else ProhibitedTotal(conv[..|conv| - 1]) + |conv[|conv| - 1].prohibitedWords|
  }

  /** `attr_params` */
  datatype Attributes = Attributes(
    totalAgentTime: real,
    totalCustomerTime: real,
    totalAgentWords: nat,
    totalCustomersWords: nat,
    totalGreetings: nat,
    totalDisclaimers: nat,
    totalClosures: nat,
    totalPil: nat,
    totalProhibitedWords: nat)

  function Summarize(conv: seq<Entry>): Attributes {
    Attributes(
      TalkTime(conv, HandlerLabel), TalkTime(conv, ClientLabel),
      WordTotal(conv, HandlerLabel), WordTotal(conv, ClientLabel),
      LinesWith(conv, GreetingsCategory), LinesWith(conv, DisclaimersCategory), LinesWith(conv, ClosingCategory),
      PiiTotal(conv), ProhibitedTotal(conv))
  }

  // ---------------------------------------------------------- sentiments

  /** The three tallies of `sentiment_counts["speakers"]`. */
  datatype Scope = Net | Handler | Client

  predicate InScope(e: Entry, scope: Scope) {
    match scope
    case Net => true
    case Handler => e.speaker == HandlerLabel
    case Client => e.speaker == ClientLabel
  }

  /** Lines in `scope` whose sentiment is `sentiment`. */
  function SentimentCount(conv: seq<Entry>, scope: Scope, sentiment: string): nat {
    if conv == [] then 0
    else
      var e := conv[|conv| - 1];
      SentimentCount(conv[..|conv| - 1], scope, sentiment) + (if InScope(e, scope) && e.sentiment == sentiment then 1 else 0)
  }

  datatype Tally = Tally(positive: nat, neutral: nat, negative: nat)

  function TallyOf(conv: seq<Entry>, scope: Scope): Tally {
    Tally(SentimentCount(conv, scope, "positive"), SentimentCount(conv, scope, "neutral"), SentimentCount(conv, scope, "negative"))
  }

  /** `counts[sentiment] += 1` for one of the three keys. */
  function Bump(t: Tally, sentiment: string): Tally {
    if sentiment == "positive" then t.(positive := t.positive + 1)
    else if sentiment == "neutral" then t.(neutral := t.neutral + 1)
    else if sentiment == "negative" then t.(negative := t.negative + 1)
    else t
  }

  /** `sentiment_counts["speakers"]`: the `Net`, `Handler` and `Client` tallies. */
  datatype SentimentCounts = SentimentCounts(net: Tally, handler: Tally, client: Tally)

  function Sentiments(conv: seq<Entry>): SentimentCounts {
    SentimentCounts(TallyOf(conv, Net), TallyOf(conv, Handler), TallyOf(conv, Client))
  }

  lemma RecordsSnoc(parsed: seq<ParsedLine>, p: ParsedLine, cfg: WordsConfig, m: Matchers)
    ensures Records(parsed + [p], cfg, m) == Records(parsed, cfg, m) + [EntryOf(p, cfg, m)]
  {
    var a := Records(parsed + [p], cfg, m);
    var b := Records(parsed, cfg, m) + [EntryOf(p, cfg, m)];
    forall i | 0 <= i < |a|
      ensures a[i] == b[i]
    {
      if i < |parsed| {
        assert (parsed + [p])[i] == parsed[i];
      }
    }
  }

  /** Appending one record moves each total by that record's own contribution. */
  lemma SummarizeSnoc(conv: seq<Entry>, e: Entry)
    ensures var a := Summarize(conv);
      Summarize(conv + [e]) == Attributes(
        a.totalAgentTime + (if e.speaker == HandlerLabel then e.endTime - e.startTime else 0.0),
        a.totalCustomerTime + (if e.speaker == ClientLabel then e.endTime - e.startTime else 0.0),
        a.totalAgentWords + (if e.speaker == HandlerLabel then |Words(e.text)| else 0),
        a.totalCustomersWords + (if e.speaker == ClientLabel then |Words(e.text)| else 0),
        a.totalGreetings + (if GreetingsCategory in e.reqPhraseCat then 1 else 0),
        a.totalDisclaimers + (if DisclaimersCategory in e.reqPhraseCat then 1 else 0),
        a.totalClosures + (if ClosingCategory in e.reqPhraseCat then 1 else 0),
        a.totalPil + |e.pilCategory|,
        a.totalProhibitedWords + |e.prohibitedWords|)
  {
    assert (conv + [e])[..|conv|] == conv;
  }

  /** Appending one record bumps a tally exactly when the record is in scope and has one of the three labels. */
  lemma TallySnoc(conv: seq<Entry>, e: Entry, scope: Scope)
    ensures TallyOf(conv + [e], scope) ==
      if e.sentiment in SentimentKeys && InScope(e, scope) then Bump(TallyOf(conv, scope), e.sentiment) else TallyOf(conv, scope)
  {
    assert (conv + [e])[..|conv|] == conv;
  }

  /**
   * The detector calls of the loop body: required phrases on handler lines,
   * personal details on client lines, prohibited words on every line; the
   * record they make and what each adds to its counter.
   */
  method RunDetectors(p: ParsedLine, cfg: WordsConfig, m: Matchers)
    returns (e: Entry, newGreets: nat, newDisclaims: nat, newClosures: nat, newPil: nat, prohibitedWordsCount: nat)
    ensures e == EntryOf(p, cfg, m)
    ensures e.startTime == p.startTime && e.endTime == p.endTime && e.speaker == p.speaker && e.text == p.text && e.sentiment == p.sentiment
    ensures newGreets == (if GreetingsCategory in e.reqPhraseCat then 1 else 0)
    ensures newDisclaims == (if DisclaimersCategory in e.reqPhraseCat then 1 else 0)
    ensures newClosures == (if ClosingCategory in e.reqPhraseCat then 1 else 0)
    ensures newPil == |e.pilCategory| && prohibitedWordsCount == |e.prohibitedWords|
  {
    var reqPhraseCat := [];
    newGreets, newDisclaims, newClosures := 0, 0, 0;
    if p.speaker == HandlerLabel {
      var phrases := RequiredPhraseValidation(p.text, cfg, m);
      PhraseFlags(p.text, cfg, m);
      newGreets, newDisclaims, newClosures, reqPhraseCat := phrases.greets, phrases.disclaims, phrases.closures, phrases.phraseCat;
    }
    var pilCat := [];
    newPil := 0;
    if p.speaker == ClientLabel {
      newPil, pilCat := DetectPersonalDetails(p.text, cfg, m);
    }
    var prohibitedWords;
    prohibitedWordsCount, prohibitedWords := DetectProhibitedPhrases(p.text, cfg.prohibitedPhrases);
    e := Entry(p.startTime, p.endTime, p.speaker, p.text, p.sentiment, reqPhraseCat, pilCat, prohibitedWords);
  }

  /**
   * The loop body of `text_to_json` after parsing: run the detectors the
   * speaker calls for, add the line's contribution to every counter and
   * tally, and build its record. `conv` stands for the records so far.
   */
  method ProcessLine(p: ParsedLine, cfg: WordsConfig, m: Matchers,
                     conversation: seq<Entry>, attrParams: Attributes, sentimentCounts: SentimentCounts)
    returns (conversation': seq<Entry>, attrParams': Attributes, sentimentCounts': SentimentCounts)
    requires attrParams == Summarize(conversation) && sentimentCounts == Sentiments(conversation)
    ensures conversation' == conversation + [EntryOf(p, cfg, m)]
    ensures attrParams' == Summarize(conversation') && sentimentCounts' == Sentiments(conversation')
  {
    var e, newGreets, newDisclaims, newClosures, newPil, prohibitedWordsCount := RunDetectors(p, cfg, m);

    attrParams' := AddCounts(attrParams, e, newGreets, newDisclaims, newClosures, newPil, prohibitedWordsCount, conversation);
    sentimentCounts' := CountSentiment(sentimentCounts, e, conversation);
    conversation' := conversation + [e];
  }

  /** The counter updates of the loop body: the detectors' counts, then the speaker's time and words. */
  method AddCounts(attrParams: Attributes, e: Entry, newGreets: nat, newDisclaims: nat, newClosures: nat, newPil: nat,
                   prohibitedWordsCount: nat, ghost conv: seq<Entry>)
    returns (attrParams': Attributes)
    requires attrParams == Summarize(conv)
    requires newGreets == (if GreetingsCategory in e.reqPhraseCat then 1 else 0)
    requires newDisclaims == (if DisclaimersCategory in e.reqPhraseCat then 1 else 0)
    requires newClosures == (if ClosingCategory in e.reqPhraseCat then 1 else 0)
    requires newPil == |e.pilCategory| && prohibitedWordsCount == |e.prohibitedWords|
    ensures attrParams' == Summarize(conv + [e])
  {
    SummarizeSnoc(conv, e);
    var handlerLine, clientLine := e.speaker == HandlerLabel, e.speaker == ClientLabel;
    attrParams' := Attributes(
      attrParams.totalAgentTime + (if handlerLine then e.endTime - e.startTime else 0.0),
      attrParams.totalCustomerTime + (if clientLine then e.endTime - e.startTime else 0.0),
      attrParams.totalAgentWords + (if handlerLine then |Words(e.text)| else 0),
      attrParams.totalCustomersWords + (if clientLine then |Words(e.text)| else 0),
      attrParams.totalGreetings + newGreets,
      attrParams.totalDisclaimers + newDisclaims,
      attrParams.totalClosures + newClosures,
      attrParams.totalPil + newPil,
      attrParams.totalProhibitedWords + prohibitedWordsCount);
  }

  /** The sentiment block of the loop body: the `Net` tally, then the speaker's own. */
  method CountSentiment(sentimentCounts: SentimentCounts, e: Entry, ghost conv: seq<Entry>) returns (counts: SentimentCounts)
    requires sentimentCounts == Sentiments(conv)
    ensures counts == Sentiments(conv + [e])
  {
    counts := sentimentCounts;
    if e.sentiment in SentimentKeys {
      counts := counts.(net := Bump(counts.net, e.sentiment));
      if e.speaker == HandlerLabel {
        counts := counts.(handler := Bump(counts.handler, e.sentiment));
      } else if e.speaker == ClientLabel {
        counts := counts.(client := Bump(counts.client, e.sentiment));
      }
    }
    TallySnoc(conv, e, Net);
    TallySnoc(conv, e, Handler);
    TallySnoc(conv, e, Client);
  }

  /** A line that does not parse makes the whole transcript fail. */
  lemma ParseFailsAt(lines: seq<string>, i: nat, parse: string -> Option<ParsedLine>)
    requires i < |lines| && parse(lines[i]).None?
    ensures ParseAll(lines, parse).None?
  {
    var prefix := lines[..i + 1];
    assert prefix[..|prefix| - 1] == lines[..i];
    assert prefix[|prefix| - 1] == lines[i];
    assert ParseAll(prefix, parse).None?;
    ParseAllNoneExtends(lines, i + 1, parse);
  }

  /** The three results of `text_to_json`. */
  datatype Transcript = Transcript(conversation: seq<Entry>, attrParams: Attributes, sentimentCounts: SentimentCounts)

  /**
   * `text_to_json`. It raises (`None`) exactly when some line is malformed;
   * otherwise there is one record per line, the totals are those of the
   * records and the tallies count the records' sentiments.
   */
  method TextToJson(text: string, cfg: WordsConfig, m: Matchers, parseFloat: string -> Option<real>)
    returns (r: Option<Transcript>)
    ensures r.None? <==> ParseAll(Lines(text), LineParser(parseFloat)).None?
    ensures r.Some? ==> r.value.conversation == Records(ParseAll(Lines(text), LineParser(parseFloat)).value, cfg, m)
    ensures r.Some? ==> r.value.attrParams == Summarize(r.value.conversation)
    ensures r.Some? ==> r.value.sentimentCounts == Sentiments(r.value.conversation)
  {
    var lines := Lines(text);
    ghost var parse := LineParser(parseFloat);
    ghost var parsedSoFar: seq<ParsedLine> := [];
    var conversation: seq<Entry> := [];
    var attrParams := Attributes(0.0, 0.0, 0, 0, 0, 0, 0, 0, 0);
    var sentimentCounts := SentimentCounts(Tally(0, 0, 0), Tally(0, 0, 0), Tally(0, 0, 0));

    for i := 0 to |lines|
      invariant ParseAll(lines[..i], parse) == Some(parsedSoFar)
      invariant conversation == Records(parsedSoFar, cfg, m)
      invariant attrParams == Summarize(conversation)
      invariant sentimentCounts == Sentiments(conversation)
    {
      var parsed := ParseLine(lines[i], parseFloat);
      assert parse(lines[i]) == parsed;
      if parsed.None? {
        ParseFailsAt(lines, i, parse);
        return None;
      }
      var p := parsed.value;
      ParseAllSnoc(lines, i, parse, parsedSoFar, p);
      conversation, attrParams, sentimentCounts := ProcessLine(p, cfg, m, conversation, attrParams, sentimentCounts);
      RecordsSnoc(parsedSoFar, p, cfg, m);
      parsedSoFar := parsedSoFar + [p];
    }

    assert lines[..|lines|] == lines;
    return Some(Transcript(conversation, attrParams, sentimentCounts));
  }

  // ----------------------------------------------------------- properties

  /** Lines spoken by `speaker`. */
  function LinesBy(conv: seq<Entry>, speaker: string): nat {
    if conv == [] then 0
    else LinesBy(conv[..|conv| - 1], speaker) + (if conv[|conv| - 1].speaker == speaker then 1 else 0)
  }

  /**
   * Every record carries phrase categories only if the handler spoke it, at
   * most five personal-detail categories and only if the client spoke it.
   */
  predicate Routed(conv: seq<Entry>) {
    forall i :: 0 <= i < |conv| ==>
      && (conv[i].reqPhraseCat != [] ==> conv[i].speaker == HandlerLabel)
      && (conv[i].pilCategory != [] ==> conv[i].speaker == ClientLabel)
      && |conv[i].pilCategory| <= 5
  }

  /** The records `text_to_json` builds are routed by speaker. */
  lemma RecordsRouted(parsed: seq<ParsedLine>, cfg: WordsConfig, m: Matchers)
    ensures Routed(Records(parsed, cfg, m))
  {
    var conv := Records(parsed, cfg, m);
    forall i | 0 <= i < |conv|
      ensures |conv[i].pilCategory| <= 5
    {
      if parsed[i].speaker == ClientLabel {
        PiiMembership(parsed[i].text, cfg, m);
      }
    }
  }

  /**
   * On routed records a phrase category is counted on handler lines only,
   * and personal details on client lines only, at most five per line.
   */
  lemma {:induction false} RoutedTotals(conv: seq<Entry>, category: string)
    requires Routed(conv)
    ensures LinesWith(conv, category) <= LinesBy(conv, HandlerLabel)
    ensures PiiTotal(conv) <= 5 * LinesBy(conv, ClientLabel)
  {
    if conv != [] {
      var init := conv[..|conv| - 1];
      assert forall i :: 0 <= i < |init| ==> init[i] == conv[i];
      RoutedTotals(init, category);
      var e := conv[|conv| - 1];
      assert category in e.reqPhraseCat ==> e.reqPhraseCat != [];
    }
  }

  /** Lines with sentiment `sentiment` spoken by neither the handler nor the client. */
  function OtherSpeakerCount(conv: seq<Entry>, sentiment: string): nat {
    if conv == [] then 0
    else
      var e := conv[|conv| - 1];
      OtherSpeakerCount(conv[..|conv| - 1], sentiment)
        + (if e.speaker != HandlerLabel && e.speaker != ClientLabel && e.sentiment == sentiment then 1 else 0)
  }

  /**
   * The net tally is the handler tally plus the client tally plus the lines
   * of any other speaker; with only the two labels it is their sum.
   */
  lemma {:induction false} NetIsHandlerPlusClientPlusOthers(conv: seq<Entry>, sentiment: string)
    ensures SentimentCount(conv, Net, sentiment)
      == SentimentCount(conv, Handler, sentiment) + SentimentCount(conv, Client, sentiment) + OtherSpeakerCount(conv, sentiment)
    ensures (forall i :: 0 <= i < |conv| ==> conv[i].speaker in {HandlerLabel, ClientLabel}) ==>
      OtherSpeakerCount(conv, sentiment) == 0
  {
    if conv != [] {
      var init := conv[..|conv| - 1];
      assert forall i :: 0 <= i < |init| ==> init[i] == conv[i];
      NetIsHandlerPlusClientPlusOthers(init, sentiment);
    }
  }

  /**
   * The net tally counts each line at most once, and every line exactly when
   * every label is one of the three keys.
   */
  lemma {:induction false} NetTallyBound(conv: seq<Entry>)
    ensures var t := TallyOf(conv, Net); t.positive + t.neutral + t.negative <= |conv|
    ensures (forall i :: 0 <= i < |conv| ==> conv[i].sentiment in SentimentKeys) ==>
      var t := TallyOf(conv, Net); t.positive + t.neutral + t.negative == |conv|
  {
    if conv != [] {
      var init := conv[..|conv| - 1];
      assert forall i :: 0 <= i < |init| ==> init[i] == conv[i];
      NetTallyBound(init);
    }
  }

  /** Talk time is never negative when no line ends before it starts. */
  lemma {:induction false} TalkTimeNonNegative(conv: seq<Entry>, speaker: string)
    requires forall i :: 0 <= i < |conv| ==> conv[i].startTime <= conv[i].endTime
    ensures TalkTime(conv, speaker) >= 0.0
  {
    if conv != [] {
      var init := conv[..|conv| - 1];
      assert forall i :: 0 <= i < |init| ==> init[i] == conv[i];
      TalkTimeNonNegative(init, speaker);
    }
  }

  /** An empty line has a single field, so it cannot be parsed. */
  lemma EmptyLineRejected(parseFloat: string -> Option<real>)
    ensures ParseLine("", parseFloat).None?
  {
    assert Fields("") == [""];
  }

  /** An empty or whitespace-only transcript is rejected: its only line is empty. */
  lemma BlankTranscriptRejected(text: string, parseFloat: string -> Option<real>)
    requires IsBlank(text)
    ensures ParseAll(Lines(text), LineParser(parseFloat)).None?
  {
    StripEmptyIffBlank(text);
    var lines := Lines(text);
    assert lines == Split("", '\n') == [""];
    EmptyLineRejected(parseFloat);
    var parse := LineParser(parseFloat);
    assert parse(lines[0]).None?;
    ParseFailsAt(lines, 0, parse);
  }
}

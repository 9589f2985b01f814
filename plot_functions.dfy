/**
 * The dashboard's read-outs over the parsed call: the count messages, the
 * listing of the lines a check fired on, the seven compliance checks and the
 * good/bad summary built from them. Number rendering (`str` of a float,
 * `:.2f`) and `round(x, 2)` are parameters.
 */
module PlotFunctions {
  import opened Wrappers
  import opened PyStrings
  import opened ValidatorsDetectors
  import opened TextToJson

  // ------------------------------------------------------ get_count_message

  /** The four guideline counts `get_count_message` knows about. */
  datatype CountKind = GreetingCount | DisclaimerCount | ClosureCount | PiiCount

  /** The keys of `count_mapping`. */
  function CountKindOf(countType: string): Option<CountKind> {
    if countType == "greeting" then Some(GreetingCount)
    else if countType == "disclaimer" then Some(DisclaimerCount)
    else if countType == "closure" then Some(ClosureCount)
    else if countType == "pii" then Some(PiiCount)
    else None
  }

  /** The `attr_params` field each count reports. */
  function CountOf(attr: Attributes, kind: CountKind): nat {
    match kind
    case GreetingCount => attr.totalGreetings
    case DisclaimerCount => attr.totalDisclaimers
    case ClosureCount => attr.totalClosures
    case PiiCount => attr.totalPil
  }

  function DisplayText(kind: CountKind): string {
    match kind
    case GreetingCount => "greetings"
    case DisclaimerCount => "disclaimers"
    case ClosureCount => "closures"
    case PiiCount => "personal information infringement"
  }

  const NotUnderstoodMessage: string := "I did not understand what you " + "are trying to fetch. Enter correct guideline type."
  const CountPrefix: string := "A total of "

  function GetCountMessage(attr: Attributes, countType: string): string {
    match CountKindOf(countType)
    case None => NotUnderstoodMessage
    case Some(kind) => CountPrefix + NatToString(CountOf(attr, kind)) + " " + DisplayText(kind) + " found"
  }

  /** A count message starts with "A", the refusal with "I". */
  lemma CountMessageIsNotRefusal(digits: string, shown: string)
    ensures CountPrefix + digits + " " + shown + " found" != NotUnderstoodMessage
  {
    var msg := CountPrefix + digits + " " + shown + " found";
    assert msg == CountPrefix + (digits + " " + shown + " found");
    assert msg[0] == 'A';
    assert NotUnderstoodMessage[0] == 'I';
  }

  /**
   * An unknown count type gets the fixed refusal, and only an unknown one
   * does; a known one gets a message whose number reads back as the count.
   */
  lemma CountMessageMeaning(attr: Attributes, countType: string)
    ensures GetCountMessage(attr, countType) == NotUnderstoodMessage <==> CountKindOf(countType).None?
    ensures CountKindOf(countType).Some? ==>
      var kind := CountKindOf(countType).value;
      exists digits: string ::
        && AllDigits(digits)
        && DigitsValue(digits) == CountOf(attr, kind)
        && GetCountMessage(attr, countType) == CountPrefix + digits + " " + DisplayText(kind) + " found"
  {
    match CountKindOf(countType)
    case None =>
    case Some(kind) =>
      var digits := NatToString(CountOf(attr, kind));
      NatToStringRoundTrip(CountOf(attr, kind));
      CountMessageIsNotRefusal(digits, DisplayText(kind));
      assert GetCountMessage(attr, countType) == CountPrefix + digits + " " + DisplayText(kind) + " found";
  }

  // ---------------------------------------------------- get_dialog_instance

  /** One row of `dialog_config`: the category looked for and the label shown. */
  datatype DialogConfig = DialogConfig(category: string, shown: string)

  function DialogConfigOf(dialogType: string): Option<DialogConfig> {
    if dialogType == "greeting" then Some(DialogConfig(GreetingsCategory, "greeting"))
    else if dialogType == "disclaimer" then Some(DialogConfig(DisclaimersCategory, "disclaimer"))
    else if dialogType == "closure" then Some(DialogConfig(ClosingCategory, "closure"))
    else None
  }

  /** The role tag shown next to a listed line. */
  function Role(speaker: string): (role: string)
    ensures role == "Handler" <==> speaker == HandlerLabel
    ensures role == "Client" <==> speaker != HandlerLabel
  {
    if speaker == HandlerLabel then "Handler" else "Client"
  }

  /** Whether the line is listed for `dialogType`. */
  predicate Qualifies(e: Entry, dialogType: string) {
    match DialogConfigOf(dialogType)
    case Some(c) => c.category in e.reqPhraseCat
    case None =>
      || (dialogType == "prohibited_words" && e.prohibitedWords != [])
      || (dialogType == "pii" && e.pilCategory != [])
  }

  /** The times and text of a line, as every listed row starts. */
  function TimeBlock(e: Entry, showTime: real -> string): string {
    "  - :green[" + showTime(e.startTime) + " - " + showTime(e.endTime) + "] : " + e.text + " "
  }

  /** The role and reason appended to a listed line. */
  function Tag(e: Entry, dialogType: string): string {
    match DialogConfigOf(dialogType)
    case Some(c) => ":violet[[" + Role(e.speaker) + " " + c.shown + "]]"
    case None =>
      if dialogType == "prohibited_words" then ":violet[[" + Role(e.speaker) + " used prohibited words]]"
      else ":violet[[" + Role(e.speaker) + " gave personal information]]"
  }

  /** The listed rows, in conversation order. */
  function Instances(conv: seq<Entry>, dialogType: string, showTime: real -> string): seq<string> {
    if conv == [] then []
    else
      var e := conv[|conv| - 1];
      Instances(conv[..|conv| - 1], dialogType, showTime)
        + (if Qualifies(e, dialogType) then [TimeBlock(e, showTime) + Tag(e, dialogType)] else [])
  }

  const InstancesHeader: string := "Following instances were found:"
  const NoInstancesMessage: string := "No such instances found in the call"

  function DialogReport(instances: seq<string>): string {
    if instances == [] then NoInstancesMessage else Join([InstancesHeader] + instances, "\n")
  }

  /** The body of the `get_dialog_instance` loop for one line: its row, if it is listed. */
  method DialogRow(entry: Entry, dialogType: string, showTime: real -> string) returns (row: Option<string>)
    ensures row.Some? <==> Qualifies(entry, dialogType)
    ensures row.Some? ==> row.value == TimeBlock(entry, showTime) + Tag(entry, dialogType)
  {
    var textBlock := "  - :green[" + showTime(entry.startTime) + " - " + showTime(entry.endTime) + "] : " + entry.text + " ";
    ghost var timeBlock := textBlock;
    assert timeBlock == TimeBlock(entry, showTime);
    var config := DialogConfigOf(dialogType);
    row := None;
    if config.Some? {
      if config.value.category in entry.reqPhraseCat {
        var role := if entry.speaker == HandlerLabel then "Handler" else "Client";
        var tag := ":violet[[" + role + " " + config.value.shown + "]]";
        assert tag == Tag(entry, dialogType);
        textBlock := textBlock + tag;
        row := Some(textBlock);
      }
    } else if dialogType == "prohibited_words" && entry.prohibitedWords != [] {
      var role := if entry.speaker == HandlerLabel then "Handler" else "Client";
      var tag := ":violet[[" + role + " used prohibited words]]";
      assert tag == Tag(entry, dialogType);
      textBlock := textBlock + tag;
      row := Some(textBlock);
    } else if dialogType == "pii" && entry.pilCategory != [] {
      var role := if entry.speaker == HandlerLabel then "Handler" else "Client";
      var tag := ":violet[[" + role + " gave personal information]]";
      assert tag == Tag(entry, dialogType);
      textBlock := textBlock + tag;
      row := Some(textBlock);
    }
  }

  method GetDialogInstance(conv: seq<Entry>, dialogType: string, showTime: real -> string) returns (out: string)
    ensures out == DialogReport(Instances(conv, dialogType, showTime))
  {
    var result := [InstancesHeader];
    for i := 0 to |conv|
      invariant result == [InstancesHeader] + Instances(conv[..i], dialogType, showTime)
    {
      assert conv[..i + 1][..i] == conv[..i];
      var row := DialogRow(conv[i], dialogType, showTime);
      if row.Some? {
        result := result + [row.value];
      }
    }
    assert conv[..|conv|] == conv;
    out := if |result| > 1 then Join(result, "\n") else NoInstancesMessage;
  }

  /** Listing a longer call lists the earlier lines first: the rows keep conversation order. */
  lemma {:induction false} InstancesAppend(a: seq<Entry>, b: seq<Entry>, dialogType: string, showTime: real -> string)
    ensures Instances(a + b, dialogType, showTime) == Instances(a, dialogType, showTime) + Instances(b, dialogType, showTime)
    decreases |b|
  {
    if b == [] {
      assert a + b == a;
    } else {
      var b' := b[..|b| - 1];
      assert (a + b)[..|a + b| - 1] == a + b';
      InstancesAppend(a, b', dialogType, showTime);
    }
  }

  /** Every row is the row of a qualifying line, and there is a row iff some line qualifies. */
  lemma {:induction false} InstancesMeaning(conv: seq<Entry>, dialogType: string, showTime: real -> string)
    ensures var rows := Instances(conv, dialogType, showTime);
      forall j :: 0 <= j < |rows| ==>
        exists i :: 0 <= i < |conv| && Qualifies(conv[i], dialogType) && rows[j] == TimeBlock(conv[i], showTime) + Tag(conv[i], dialogType)
    ensures Instances(conv, dialogType, showTime) == [] <==> forall i :: 0 <= i < |conv| ==> !Qualifies(conv[i], dialogType)
    ensures |Instances(conv, dialogType, showTime)| <= |conv|
  {
    if conv != [] {
      var init := conv[..|conv| - 1];
      assert forall i :: 0 <= i < |init| ==> init[i] == conv[i];
      InstancesMeaning(init, dialogType, showTime);
    }
  }

  /**
   * `get_dialog_instance` answers "No such instances found in the call"
   * exactly when no line qualifies, which is always the case for a dialog
   * type it does not know.
   */
  lemma NoInstancesIff(conv: seq<Entry>, dialogType: string, showTime: real -> string)
    ensures DialogReport(Instances(conv, dialogType, showTime)) == NoInstancesMessage
      <==> forall i :: 0 <= i < |conv| ==> !Qualifies(conv[i], dialogType)
    ensures dialogType !in {"greeting", "disclaimer", "closure", "prohibited_words", "pii"} ==>
      DialogReport(Instances(conv, dialogType, showTime)) == NoInstancesMessage
  {
    InstancesMeaning(conv, dialogType, showTime);
    var rows := Instances(conv, dialogType, showTime);
    if rows != [] {
      var r := Join([InstancesHeader] + rows, "\n");
      assert r == InstancesHeader + "\n" + Join(rows, "\n");
      assert r[0] == 'F' && NoInstancesMessage[0] == 'N';
    }
  }

  // ------------------------------------------------------------- the checks

  const GoodCategory: string := "good"
  const BadCategory: string := "bad"

  /** What each `check_*` returns: the category and the message shown. */
  datatype Sign = Sign(category: string, message: string)

  /** Above this share of the talk time, in percent, the handler dominated. */
  const TalkThreshold: real := 70.0
  /** Above this many words per second the handler spoke too fast. */
  const SpeedThreshold: real := 2.5

  const Green: string := "\U{1F7E2} "
  const Red: string := "\U{1F534} "

  function CheckTalkTime(attr: Attributes, fixed2: real -> string): Sign {
    var totalTime := attr.totalAgentTime + attr.totalCustomerTime;
    if totalTime == 0.0 then Sign(GoodCategory, Green + "Handler had 0 total talk time (no data)")
    else
      var agentPercent := (attr.totalAgentTime / totalTime) * 100.0;
      if agentPercent > TalkThreshold then
        Sign(BadCategory, Red + "Handler dominated the conversation duration, with a " + fixed2(agentPercent) + "% talk time.")
      else Sign(GoodCategory, Green + "Handler was concise with time, using " + fixed2(agentPercent) + "% of the talk time.")
  }

  lemma ProductSign(x: real, t: real)
    requires t > 0.0
    ensures x > 0.0 ==> x * t > 0.0
    ensures x <= 0.0 ==> x * t <= 0.0
  {
  }

  /** A share above 70% of a positive total is more than 7/3 of the rest. */
  lemma ShareAboveThreshold(a: real, c: real)
    requires a >= 0.0 && c >= 0.0 && a + c != 0.0
    ensures (a / (a + c)) * 100.0 > TalkThreshold <==> 3.0 * a > 7.0 * c
  {
    var t := a + c;
    var q := a / t;
    assert q * t == a;
    var x := q * 100.0 - 70.0;
    ProductSign(x, t);
    assert x * t == 100.0 * (q * t) - 70.0 * t;
    assert x * t == 30.0 * a - 70.0 * c;
  }

  /**
   * For non-negative totals, the talk-time check is bad exactly when the
   * handler spoke more than 7/3 times as long as the client, i.e. more than
   * 70% of the call.
   */
  lemma TalkTimeVerdict(attr: Attributes, fixed2: real -> string)
    requires attr.totalAgentTime >= 0.0 && attr.totalCustomerTime >= 0.0
    ensures CheckTalkTime(attr, fixed2).category == BadCategory <==> 3.0 * attr.totalAgentTime > 7.0 * attr.totalCustomerTime
    ensures CheckTalkTime(attr, fixed2).category in {GoodCategory, BadCategory}
  {
    var a, c := attr.totalAgentTime, attr.totalCustomerTime;
    if a + c != 0.0 {
      ShareAboveThreshold(a, c);
    }
  }

  function CheckConvSpeed(attr: Attributes, round2: real -> real, fixed2: real -> string): Sign {
    if attr.totalAgentTime == 0.0 then Sign(BadCategory, Red + "Handler had 0 talk time, unable to compute conversation speed.")
    else
      var convSpeed := round2(attr.totalAgentWords as real / attr.totalAgentTime);
      if convSpeed > SpeedThreshold then
        Sign(BadCategory, Red + "Handler's speed was above threshold (2.5 wps observed: " + fixed2(convSpeed) + ")")
      else Sign(GoodCategory, Green + "Handler's speed was below threshold (2.5 wps observed: " + fixed2(convSpeed) + ")")
  }

  /**
   * With a rounding that moves its argument by at most half a hundredth,
   * a handler with no talk time, or faster than 2.505 words per second, is
   * bad, and one with talk time and slower than 2.495 words per second is good.
   */
  lemma ConvSpeedVerdict(attr: Attributes, round2: real -> real, fixed2: real -> string)
    requires forall x: real :: x - 0.005 <= round2(x) <= x + 0.005
    ensures attr.totalAgentTime == 0.0 ==> CheckConvSpeed(attr, round2, fixed2).category == BadCategory
    ensures attr.totalAgentTime != 0.0 && attr.totalAgentWords as real / attr.totalAgentTime > 2.505 ==>
      CheckConvSpeed(attr, round2, fixed2).category == BadCategory
    ensures attr.totalAgentTime != 0.0 && attr.totalAgentWords as real / attr.totalAgentTime < 2.495 ==>
      CheckConvSpeed(attr, round2, fixed2).category == GoodCategory
  {
    if attr.totalAgentTime != 0.0 {
      var speed := attr.totalAgentWords as real / attr.totalAgentTime;
      assert speed - 0.005 <= round2(speed) <= speed + 0.005;
    }
  }

  /** A count check that is good when something was found (greetings, disclaimers, closures). */
  function Presence(total: nat, present: string, missing: string): Sign {
    if total > 0 then Sign(GoodCategory, Green + present) else Sign(BadCategory, Red + missing)
  }

  /** A count check that is bad when something was found (PII, profanity). */
  function Absence(total: nat, found: string, clean: string): Sign {
    if total > 0 then Sign(BadCategory, Red + found) else Sign(GoodCategory, Green + clean)
  }

  function CheckGreetings(attr: Attributes): Sign {
    Presence(attr.totalGreetings, "Greetings were included.", "Greetings were missing.")
  }

  function CheckDisclaimers(attr: Attributes): Sign {
    Presence(attr.totalDisclaimers, "Disclaimers were present.", "Disclaimers were missing.")
  }

  function CheckClosures(attr: Attributes): Sign {
    Presence(attr.totalClosures, "Closures were handled.", "Closures were missing.")
  }

  function CheckPii(attr: Attributes): Sign {
    Absence(attr.totalPil, "PII leak was detected (handler asked for account information/pin/dob information)", "No PII leaked.")
  }

  function CheckProfanity(attr: Attributes): Sign {
    Absence(attr.totalProhibitedWords, "Handler used profanity in text.", "No profanity used.")
  }

  /** Greetings, disclaimers and closures are good iff seen; PII and profanity are bad iff seen. */
  lemma CountChecksVerdict(attr: Attributes)
    ensures CheckGreetings(attr).category == GoodCategory <==> attr.totalGreetings > 0
    ensures CheckDisclaimers(attr).category == GoodCategory <==> attr.totalDisclaimers > 0
    ensures CheckClosures(attr).category == GoodCategory <==> attr.totalClosures > 0
    ensures CheckPii(attr).category == BadCategory <==> attr.totalPil > 0
    ensures CheckProfanity(attr).category == BadCategory <==> attr.totalProhibitedWords > 0
  {
  }

  // ----------------------------------------------------------- analyze_signs

  /** The seven checks, in the order `analyze_signs` runs them. */
  function AllChecks(attr: Attributes, round2: real -> real, fixed2: real -> string): (checks: seq<Sign>)
    ensures |checks| == 7
  {
    [CheckTalkTime(attr, fixed2), CheckConvSpeed(attr, round2, fixed2),
     CheckGreetings(attr), CheckDisclaimers(attr), CheckClosures(attr),
     CheckPii(attr), CheckProfanity(attr)]
  }

  /** The indented messages of the checks whose category is good (`good`) or is anything else (`!good`). */
  function SignLines(checks: seq<Sign>, good: bool): seq<string> {
    if checks == [] then []
    else
      var c := checks[|checks| - 1];
      SignLines(checks[..|checks| - 1], good)
        + (if (c.category == GoodCategory) == good then ["\n    " + c.message] else [])
  }

  /** Every check lands in exactly one of the two lists. */
  lemma {:induction false} SignLinesPartition(checks: seq<Sign>)
    ensures |SignLines(checks, true)| + |SignLines(checks, false)| == |checks|
  {
    if checks != [] {
      SignLinesPartition(checks[..|checks| - 1]);
    }
  }

  /** The good list holds one line per good check, in check order. */
  lemma {:induction false} GoodLinesMeaning(checks: seq<Sign>)
    ensures SignLines(checks, true) == [] <==> forall i :: 0 <= i < |checks| ==> checks[i].category != GoodCategory
    ensures SignLines(checks, false) == [] <==> forall i :: 0 <= i < |checks| ==> checks[i].category == GoodCategory
  {
    if checks != [] {
      var init := checks[..|checks| - 1];
      assert forall i :: 0 <= i < |init| ==> init[i] == checks[i];
      GoodLinesMeaning(init);
    }
  }

  const GoodHeader: string := "\U{2705} Good Signs observed are:"
  const BadHeader: string := "\U{274C} Bad Signs observed are:"

  /** One section of the summary, or its fallback when the list holds only the header. */
  function Section(header: string, lines: seq<string>, fallback: string): string {
    if lines == [] then fallback else Join([header] + lines, "\n")
  }

  /** A section equals its fallback exactly when it has no lines, as long as header and fallback start differently. */
  lemma SectionFallback(header: string, lines: seq<string>, fallback: string)
    requires header != [] && fallback != [] && header[0] != fallback[0]
    ensures Section(header, lines, fallback) == fallback <==> lines == []
  {
    if lines != [] {
      JoinCons(header, lines, "\n");
      assert Section(header, lines, fallback)[0] == header[0];
    }
  }

  function SignsReport(signType: string, good: seq<string>, bad: seq<string>): string {
    if signType == "good_signs" then Section(GoodHeader, good, "no good signs detected.")
    else if signType == "bad_signs" then Section(BadHeader, bad, "no bad signs detected.")
    else Join([GoodHeader] + good, "\n") + "\n\n" + Join([BadHeader] + bad, "\n")
  }

  /** The loop of `analyze_signs`: each check's message goes to the good or the bad list. */
  method SortSigns(checks: seq<Sign>) returns (goodSigns: seq<string>, badSigns: seq<string>)
    ensures goodSigns == [GoodHeader] + SignLines(checks, true)
    ensures badSigns == [BadHeader] + SignLines(checks, false)
  {
    goodSigns := [GoodHeader];
    badSigns := [BadHeader];
    for i := 0 to |checks|
      invariant goodSigns == [GoodHeader] + SignLines(checks[..i], true)
      invariant badSigns == [BadHeader] + SignLines(checks[..i], false)
    {
      assert checks[..i + 1][..i] == checks[..i];
      var sign := checks[i];
      var formattedMessage := "\n    " + sign.message;
      if sign.category == GoodCategory {
        goodSigns := goodSigns + [formattedMessage];
      } else {
        badSigns := badSigns + [formattedMessage];
      }
    }
    assert checks[..|checks|] == checks;
  }

  method AnalyzeSigns(attr: Attributes, signType: string, round2: real -> real, fixed2: real -> string) returns (out: string)
    ensures var checks := AllChecks(attr, round2, fixed2);
      out == SignsReport(signType, SignLines(checks, true), SignLines(checks, false))
  {
    var goodSigns, badSigns := SortSigns(AllChecks(attr, round2, fixed2));
    if signType == "good_signs" {
      return if |goodSigns| > 1 then Join(goodSigns, "\n") else "no good signs detected.";
    }
    if signType == "bad_signs" {
      return if |badSigns| > 1 then Join(badSigns, "\n") else "no bad signs detected.";
    }
    return Join(goodSigns, "\n") + "\n\n" + Join(badSigns, "\n");
  }

  /** Between them the good and bad lists report all seven checks. */
  lemma SevenSigns(attr: Attributes, round2: real -> real, fixed2: real -> string)
    ensures var checks := AllChecks(attr, round2, fixed2);
      |SignLines(checks, true)| + |SignLines(checks, false)| == 7
  {
    SignLinesPartition(AllChecks(attr, round2, fixed2));
  }

  /**
   * "no bad signs detected." comes back for "bad_signs" exactly when every
   * check is good, and "no good signs detected." for "good_signs" exactly
   * when none is.
   */
  lemma EmptySections(checks: seq<Sign>)
    ensures (SignsReport("bad_signs", SignLines(checks, true), SignLines(checks, false)) == "no bad signs detected.")
        <==> (forall i :: 0 <= i < |checks| ==> checks[i].category == GoodCategory)
    ensures (SignsReport("good_signs", SignLines(checks, true), SignLines(checks, false)) == "no good signs detected.")
        <==> (forall i :: 0 <= i < |checks| ==> checks[i].category != GoodCategory)
  {
    var good, bad := SignLines(checks, true), SignLines(checks, false);
    assert "bad_signs"[0] != "good_signs"[0];
    assert SignsReport("bad_signs", good, bad) == Section(BadHeader, bad, "no bad signs detected.");
    GoodLinesMeaning(checks);
    SectionFallback(GoodHeader, good, "no good signs detected.");
    SectionFallback(BadHeader, bad, "no bad signs detected.");
  }
}

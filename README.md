# Call-analysis core in Dafny

This project models the core of a call-centre call-analysis application. The application has two halves.

- **Backend.** It turns a recorded call into a speaker-attributed transcript with a sentiment label on every line:
  - a speech recogniser produces timestamped fragments;
  - a diarization model assigns each fragment its dominant speaker;
  - consecutive fragments are merged into sentences;
  - each sentence gets a polarity-based sentiment;
  - the result is written as one text line per sentence: `<start> <end> <speaker> <text> SENTIMENT:<label>`.
- **Frontend.** It parses that text back:
  - it runs the compliance detectors on every line (required phrases, personal and sensitive details, prohibited words);
  - it totals talk times, word counts and sentiment counts;
  - it derives the "good signs / bad signs" report and the dialog-instance listings.

Modules, one file each:

| module | file | what it covers |
|---|---|---|
| `Wrappers` | `wrappers.dfy` | `Option` |
| `PyStrings` | `py_strings.dfy` | The Python string operations the code relies on: `strip`, `split()`, `split(sep)`, `split(sep, n)`, `rsplit(sep, 1)`, ASCII `lower`, `join`, decimal `str(int)`. Each has its round trip or characterisation lemma. |
| `PyannoteUtils` | `pyannote_utils.dfy` | Segment validation, speaker attribution, the sentence-merging state machine and its partition properties. |
| `SpeechToText` | `speech_to_text.dfy` | Conversion to diarization segments, the sentiment labelling, and the rendering of transcript lines. |
| `ValidatorsDetectors` | `validators_detectors.dfy` | The four detectors, over an explicit words configuration (the YAML defaults). |
| `TextToJson` | `text2json.dfy` | Parsing of the transcript, the per-line records, the attribute totals and the sentiment counts. |
| `PlotFunctions` | `plot_functions.dfy` | The count message, the dialog-instance listing, the seven checks and the signs report. |
| `Pipeline` | `pipeline.dfy` | The end-to-end round trip: what the backend writes, the frontend parses back. |

The models, libraries and formatting routines the code calls are parameters of the model, so every property holds for any behaviour of them:

- the argmax over the diarization overlap: `dominantSpeaker`, `None` when the crop holds no speaker;
- TextBlob polarity: `polarity`;
- `token_sort_ratio`, `re.search` and `re.findall`: the fields of `Matchers`;
- `float()`: `parseFloat`;
- `:.2f` formatting: `fixed2`;
- `round(·, 2)`: `round2`;
- `str` of a float: `showTime`.

One Python detail is built into the model: `re.search` with an empty pattern always matches.

Every loop in the source is a method proved against a recursive specification function. These are:

- `MergeSentence`, `AddSpeakerInfoToText`, `SaveInTxt`;
- `ScanPhrases`, `DetectPersonalDetails`, `IsValidAtmPin`, `DetectProhibitedPhrases`;
- `TextToJson`, `GetDialogInstance`, `AnalyzeSigns`.

The lemmas then state what the specification functions guarantee.

Some behaviours of the code that the model keeps as written:

- **Malformed transcript lines.** A malformed line makes `text_to_json` raise, so `TextToJson` returns `None` exactly when some line does not parse (`TextToJson.ParseAllMeaning`).
- **Consecutive turns.** `merge_sentence` cuts a turn at every sentence end, so two consecutive turns can belong to the same speaker (`PyannoteUtils.SameSpeakerConsecutiveTurns`).
- **Segments without overlap.** `add_speaker_info_to_text` never skips a segment. When the diarization crop of a segment holds no speaker, `argmax()` returns `None` and the fragment carries no speaker. `pre_spk` then becomes `None`, so the next fragment joins the same sentence whatever its speaker (`PyannoteUtils.UnlabelledAbsorbsNextSpeaker`). That sentence has no speaker, and `DiarizationSegment` rejects it (`SpeechToText.ConversionSucceeds`).
- **Segment validation.** The order check of `TranscriptionSegment` never fires (see Findings). The pipeline members (`GetTextWithTimestamp`, `DiarizeText`, `LoadAndTranscribe`) validate as the code does, with `PyannoteUtils.AcceptedAsWritten`. The corrected validator is `PyannoteUtils.Accepted`.
- **ATM PIN.** `is_valid_atm_pin` looks the personal keys up in the sensitive pattern dictionary. Each lookup yields the empty pattern, which matches every candidate, so the function always returns `False` (`ValidatorsDetectors.AtmPinNeverValid`).

## Model

| member | source | states |
|---|---|---|
| `PyStrings.StripEmptyIffBlank` | Application/Backend/pyannote_utils.py:34 | `strip()` gives the empty string exactly when every character is whitespace. |
| `PyStrings.SplitJoin` | Application/Frontend/functionality/text2json.py:114 | Splitting a join of at least one separator-free piece gives back the pieces. |
| `PyStrings.JoinSplit` | Application/Frontend/functionality/text2json.py:114 | `sep.join(s.split(sep)) == s` for every string. |
| `PyStrings.RSplitBeforeTail` | Application/Frontend/functionality/text2json.py:133-135 | `rsplit(d, 1)` of `a + d + b` is `[a, b]` when `d` starts with its only space and `b` has no space. |
| `PyStrings.NatToStringRoundTrip` | Application/Frontend/plot_functionality/plot_functions.py:84 | The decimal rendering of a count reads back as the count. |
| `PyannoteUtils.AcceptedAsWritten` | Application/Backend/pyannote_utils.py:12-37 | As written, a segment is accepted iff start >= 0, end > 0 and the text is not blank. |
| `PyannoteUtils.AsWrittenAcceptsReversedInterval` | Application/Backend/pyannote_utils.py:23-27 | The as-written validation accepts a segment whose end precedes its start. |
| `PyannoteUtils.Accepted` | Application/Backend/pyannote_utils.py:12-37 | The corrected validation accepts iff 0 <= start < end and the text is not blank. Anything it accepts is also accepted as written. |
| `PyannoteUtils.CorrectedRejectsReversedInterval` | Application/Backend/pyannote_utils.py:25-27 | The corrected validation rejects every segment with end <= start. |
| `PyannoteUtils.GetTextWithTimestamp` | Application/Backend/pyannote_utils.py:44-47 | The result is Some iff every raw segment passes the validators as written. Each output element then keeps its segment's interval and text, in order, with start >= 0, end > 0 and a non-blank text. |
| `PyannoteUtils.AddSpeakerInfoToText` | Application/Backend/pyannote_utils.py:49-55 | One fragment per segment, in order. Each fragment carries the segment, its text and the dominant speaker of its interval, or no speaker when the crop has none. No segment is skipped. |
| `PyannoteUtils.JoinTextsAppend` | Application/Backend/pyannote_utils.py:59 | `"".join` of the texts of a concatenation is the concatenation of the two joins. |
| `PyannoteUtils.MergeData` | Application/Backend/pyannote_utils.py:57-63 | A merged turn spans from its first fragment's start to its last fragment's end. It has the first fragment's speaker, and its text is the concatenation of the texts. |
| `PyannoteUtils.MergeSentence` | Application/Backend/pyannote_utils.py:68-92 | The accumulating loop returns exactly `Turns` of its input: the specification of the state machine. |
| `PyannoteUtils.DiarizeText` | Application/Backend/pyannote_utils.py:94-98 | Fails iff some segment fails the validators as written. Otherwise it attributes the speakers and then merges the sentences. |
| `PyannoteUtils.RunFlatten` | Application/Backend/pyannote_utils.py:74-92 | The groups the state machine emits concatenate to the pending fragments followed by the input. |
| `PyannoteUtils.RunSpeakers` | Application/Backend/pyannote_utils.py:75-87 | Every emitted group belongs to its first fragment's speaker, unless that fragment has no speaker. |
| `PyannoteUtils.RunCount` | Application/Backend/pyannote_utils.py:74-92 | At most one group per input fragment, plus one for a non-empty accumulator. |
| `PyannoteUtils.RunInterior` | Application/Backend/pyannote_utils.py:80-87 | No fragment strictly inside a group ends a sentence. |
| `PyannoteUtils.RunBoundaries` | Application/Backend/pyannote_utils.py:75-84 | Two adjacent groups are cut only where the speaker changes from the earlier group's last fragment, or where that fragment ends a sentence. |
| `PyannoteUtils.RunOpeners` | Application/Backend/pyannote_utils.py:75-84 | A group of two or more fragments that opens with a sentence end follows a speaker change. Only the first group can open that way without one, and only by continuing a non-empty accumulator. |
| `PyannoteUtils.GroupsPartition` | Application/Backend/pyannote_utils.py:68-92 | The groups are non-empty and partition the fragments in order. Each belongs to its first fragment's speaker unless that fragment has none. |
| `PyannoteUtils.TurnsCount` | Application/Backend/pyannote_utils.py:68-92 | There are no more turns than fragments, and there are no turns iff there are no fragments. |
| `PyannoteUtils.GroupsInterior` | Application/Backend/pyannote_utils.py:75-84 | A sentence-ending fragment is never strictly inside a group. It opens a group of two or more only when that group is not the first and its speaker differs from the previous group's last fragment. In every other case it closes its group, so the accumulator is empty after it. |
| `PyannoteUtils.GroupsBoundaries` | Application/Backend/pyannote_utils.py:75-84 | Every cut between groups is justified by a sentence end or by a speaker change from the previous group's last fragment. |
| `PyannoteUtils.GroupSpeakers` | Application/Backend/pyannote_utils.py:75-87 | When every fragment has a speaker, every group has a single speaker. A group that holds a fragment without a speaker is led by such a fragment. |
| `PyannoteUtils.TurnsPreserveText` | Application/Backend/pyannote_utils.py:57-92 | Concatenating the turns' texts gives the concatenation of the fragments' texts: no text is lost, duplicated or reordered. |
| `PyannoteUtils.TurnsSpanGroups` | Application/Backend/pyannote_utils.py:57-63 | Each turn spans its group's interval and speaker. |
| `PyannoteUtils.HelloThereIsOneTurn` | Application/Backend/pyannote_utils.py:74-92 | "Hello" + "there." from one speaker merge into the single turn "Hellothere." spanning both intervals. |
| `PyannoteUtils.SpeakerChangeCutsTurn` | Application/Backend/pyannote_utils.py:75-79 | A speaker change cuts a turn that has no sentence end. |
| `PyannoteUtils.SameSpeakerConsecutiveTurns` | Application/Backend/pyannote_utils.py:80-84 | Two sentences of one speaker give two consecutive turns with the same speaker. |
| `PyannoteUtils.SpeakerChangeSkipsSentenceEnd` | Application/Backend/pyannote_utils.py:75-84 | When the speaker changes, the punctuation of the incoming fragment does not close the turn it opens. |
| `PyannoteUtils.UnlabelledAbsorbsNextSpeaker` | Application/Backend/pyannote_utils.py:75-87 | A fragment without a speaker followed by one of speaker A gives a single turn: the `None` left in `pre_spk` suppresses the speaker-change cut. |
| `SpeechToText.ToDiarizationSegments` | Application/Backend/speech_to_text.py:75-80 | The conversion succeeds iff every turn has start >= 0, end > 0, a speaker that is present and non-empty, and non-empty text. It then keeps each turn's fields, in order. |
| `SpeechToText.LoadAndTranscribe` | Application/Backend/speech_to_text.py:75-80 | A recogniser segment that fails the validators as written makes transcription fail. Otherwise the result is the diarized, merged and converted turns. |
| `SpeechToText.UnlabelledTurn` | Application/Backend/speech_to_text.py:77-80 | A fragment whose speaker is missing or empty leaves some merged turn without a usable speaker. |
| `SpeechToText.ConversionSucceeds` | Application/Backend/speech_to_text.py:77-80 | Once every segment passes the validators as written, converting the merged turns succeeds iff the diarization query gives every segment a non-empty speaker. |
| `SpeechToText.GetSentiment` | Application/Backend/speech_to_text.py:93-96 | "positive" iff polarity > 0; "negative" iff polarity < 0; "neutral" iff polarity = 0. |
| `SpeechToText.SaveInTxt` | Application/Backend/speech_to_text.py:100-117 | One line per segment, in order, each `<start> <end> <speaker> <text> SENTIMENT:<label>`. |
| `SpeechToText.LineEndsWithSentiment` | Application/Backend/speech_to_text.py:113-115 | Splitting a rendered line at its last sentiment tag gives back the body and the label. |
| `ValidatorsDetectors.Keys` | Application/Frontend/functionality/validators_detectors.py:58 | The keys of a pattern dictionary, in declaration order. |
| `ValidatorsDetectors.Get` | Application/Frontend/functionality/validators_detectors.py:61 | `dict.get(key, "")`: the value of the entry with that key, or "" when there is none. The `model_dump()` keys are distinct, so the first entry with the key is the only one. |
| `ValidatorsDetectors.PhraseHits` | Application/Frontend/functionality/validators_detectors.py:32-48 | At most one hit per reference phrase, each naming the category. |
| `ValidatorsDetectors.PhraseHitsNonEmpty` | Application/Frontend/functionality/validators_detectors.py:32-36 | A category has a hit iff some reference phrase scores above the similarity threshold of 55. |
| `ValidatorsDetectors.ScanPhrases` | Application/Frontend/functionality/validators_detectors.py:32-36 | The scanning loop returns the hits, and a flag that is 1 iff there is a hit. |
| `ValidatorsDetectors.RequiredPhraseValidation` | Application/Frontend/functionality/validators_detectors.py:23-50 | The three flags and the category list are those of greetings, disclaimers and closings scanned in turn. |
| `ValidatorsDetectors.PhraseFlags` | Application/Frontend/functionality/validators_detectors.py:30-50 | Each flag is 0 or 1, and it is 1 iff its category is in the list. The list is ordered greetings, disclaimers, closing. |
| `ValidatorsDetectors.PhraseFlagsMeaning` | Application/Frontend/functionality/validators_detectors.py:32-48 | A flag is 1 iff its category occurs in the list iff some phrase of that category matches. |
| `ValidatorsDetectors.IsValidAtmPin` | Application/Frontend/functionality/validators_detectors.py:53-64 | The loops return true iff some PIN candidate matches none of the personal patterns. |
| `ValidatorsDetectors.AtmPinNeverValid` | Application/Frontend/functionality/validators_detectors.py:55-62 | As written, no text ever yields a valid PIN. |
| `ValidatorsDetectors.PiiHits` | Application/Frontend/functionality/validators_detectors.py:75-83 | At most one hit per pattern key. |
| `ValidatorsDetectors.DetectPersonalDetails` | Application/Frontend/functionality/validators_detectors.py:67-85 | The count equals the number of categories found, and the categories are those of the specification. |
| `ValidatorsDetectors.SensitiveHits` | Application/Frontend/functionality/validators_detectors.py:75-78 | The sensitive loop reports `credit_card` and then `account_password`, each when its pattern matches. `atm_pin` never passes. |
| `ValidatorsDetectors.PersonalHits` | Application/Frontend/functionality/validators_detectors.py:80-83 | The personal loop reports `phone_number`, `date_dd_mm_yyyy` and `multi_4_digit_patt`, in that order, each when its pattern matches. |
| `ValidatorsDetectors.PiiCategoriesSpelledOut` | Application/Frontend/functionality/validators_detectors.py:73-85 | The categories are the sensitive hits followed by the personal hits. |
| `ValidatorsDetectors.PiiMembership` | Application/Frontend/functionality/validators_detectors.py:73-85 | Each of the five keys other than `atm_pin` is reported iff its pattern matches, and `atm_pin` never is. No key is reported twice, and there are at most five. |
| `ValidatorsDetectors.PhoneNumberIsNotPin` | Application/Frontend/functionality/validators_detectors.py:67-85 | A text matching the default phone pattern is reported as a phone number and never as an ATM PIN. |
| `ValidatorsDetectors.ProhibitedIn` | Application/Frontend/functionality/validators_detectors.py:92-97 | Every reported word is a prohibited phrase, and there are no more reported words than tokens. |
| `ValidatorsDetectors.DetectProhibitedPhrases` | Application/Frontend/functionality/validators_detectors.py:88-99 | The loop returns the prohibited tokens, lower-cased and in order, and their count. |
| `ValidatorsDetectors.ProhibitedMultiplicity` | Application/Frontend/functionality/validators_detectors.py:94-97 | A prohibited word is reported as often as its lower-cased form occurs among the tokens. Any other word is never reported. |
| `ValidatorsDetectors.BlankHasNoProhibited` | Application/Frontend/functionality/validators_detectors.py:92-99 | A blank text has no prohibited words. |
| `TextToJson.ParseLineMeaning` | Application/Frontend/functionality/text2json.py:128-135 | A line parses iff it has four fields, both times parse and the rest contains the sentiment tag. The parsed fields are those pieces, with the sentiment stripped. |
| `TextToJson.ParseAllMeaning` | Application/Frontend/functionality/text2json.py:126-135 | Parsing fails iff some line fails. On success there is one record per line, in order. |
| `TextToJson.ParseAllNoneExtends` | Application/Frontend/functionality/text2json.py:126-135 | A malformed line makes the whole parse fail, whatever follows it. |
| `TextToJson.Records` | Application/Frontend/functionality/text2json.py:161-172 | One conversation record per parsed line. |
| `TextToJson.RecordsSnoc` | Application/Frontend/functionality/text2json.py:161-172 | Appending a line appends its record. |
| `TextToJson.SummarizeSnoc` | Application/Frontend/functionality/text2json.py:137-158 | Each total and each sentiment counter grows by exactly what the new record contributes. |
| `TextToJson.RunDetectors` | Application/Frontend/functionality/text2json.py:137-144 | The phrase detectors run only on handler lines, the PII detector only on client lines, and the prohibited-word detector on every line. |
| `TextToJson.ProcessLine` | Application/Frontend/functionality/text2json.py:128-172 | The loop body keeps the invariant: the totals and counters are those of the records so far. |
| `TextToJson.TextToJson` | Application/Frontend/functionality/text2json.py:109-186 | Fails iff some line is malformed. Otherwise returns the records, their summary and their sentiment counts. |
| `TextToJson.RecordsRouted` | Application/Frontend/functionality/text2json.py:137-141 | Required-phrase categories appear only on handler records, PII categories only on client records, at most five per record. |
| `TextToJson.RoutedTotals` | Application/Frontend/functionality/text2json.py:137-141 | Each phrase total is at most the number of handler lines. The PII total is at most five times the number of client lines. |
| `TextToJson.NetIsHandlerPlusClientPlusOthers` | Application/Frontend/functionality/text2json.py:153-158 | The Net count equals Handler plus Client plus lines by other speakers. It is exactly Handler plus Client when only the two labels occur. |
| `TextToJson.NetTallyBound` | Application/Frontend/functionality/text2json.py:153-158 | The Net counts sum to at most the number of lines, and exactly to it when every sentiment is one of the three keys. |
| `TextToJson.TalkTimeNonNegative` | Application/Frontend/functionality/text2json.py:146-147 | A speaker's talk time is non-negative when every line ends no earlier than it starts. |
| `TextToJson.EmptyLineRejected` | Application/Frontend/functionality/text2json.py:128-130 | The empty line does not parse. |
| `TextToJson.BlankTranscriptRejected` | Application/Frontend/functionality/text2json.py:114-130 | A blank transcript is rejected, not read as an empty conversation. |
| `PlotFunctions.CountMessageMeaning` | Application/Frontend/plot_functionality/plot_functions.py:71-84 | The refusal message appears iff the count type is unknown. Otherwise the message is "A total of", the decimal count and the display text, then "found". |
| `PlotFunctions.Role` | Application/Frontend/plot_functionality/plot_functions.py:111 | "Handler" iff the speaker is the handler label, and "Client" otherwise. |
| `PlotFunctions.DialogRow` | Application/Frontend/plot_functionality/plot_functions.py:105-123 | A row is produced iff the record qualifies for the dialog type. The row is the time block and then the tagged text. |
| `PlotFunctions.GetDialogInstance` | Application/Frontend/plot_functionality/plot_functions.py:86-125 | The loop returns the report of the qualifying instances. |
| `PlotFunctions.InstancesAppend` | Application/Frontend/plot_functionality/plot_functions.py:104-123 | The instances of a concatenation are the concatenated instances, so order is kept. |
| `PlotFunctions.InstancesMeaning` | Application/Frontend/plot_functionality/plot_functions.py:104-123 | Every row comes from a qualifying record. There are none iff no record qualifies, and never more rows than records. |
| `PlotFunctions.NoInstancesIff` | Application/Frontend/plot_functionality/plot_functions.py:107-125 | The "no instances" message appears iff no record qualifies. An unknown dialog type always gives it. |
| `PlotFunctions.TalkTimeVerdict` | Application/Frontend/plot_functionality/plot_functions.py:157-169 | For non-negative totals, the talk-time check is bad iff the agent's share exceeds 70%. Otherwise it is good. |
| `PlotFunctions.ConvSpeedVerdict` | Application/Frontend/plot_functionality/plot_functions.py:171-185 | Zero agent time is bad. A speed clearly above 2.5 words per second is bad; one clearly below is good. |
| `PlotFunctions.CountChecksVerdict` | Application/Frontend/plot_functionality/plot_functions.py:188-223 | Greetings, disclaimers and closures are good iff their totals are positive. PII and profanity are bad iff theirs are. |
| `PlotFunctions.AllChecks` | Application/Frontend/plot_functionality/plot_functions.py:231-239 | There are exactly seven checks. |
| `PlotFunctions.SignLinesPartition` | Application/Frontend/plot_functionality/plot_functions.py:241-247 | Every check lands in exactly one of the good and bad lists. |
| `PlotFunctions.GoodLinesMeaning` | Application/Frontend/plot_functionality/plot_functions.py:241-247 | The good list is empty iff no check is good. The bad list is empty iff every check is good. |
| `PlotFunctions.SortSigns` | Application/Frontend/plot_functionality/plot_functions.py:241-247 | The loop builds each list as its header followed by the checks of that category, in order. |
| `PlotFunctions.AnalyzeSigns` | Application/Frontend/plot_functionality/plot_functions.py:226-254 | The report is the good, bad or combined section chosen by the sign type. |
| `PlotFunctions.SevenSigns` | Application/Frontend/plot_functionality/plot_functions.py:228-247 | The good and bad signs add up to seven. |
| `PlotFunctions.EmptySections` | Application/Frontend/plot_functionality/plot_functions.py:249-252 | "no bad signs detected." iff all seven are good. "no good signs detected." iff none is. |
| `Pipeline.WriteLines` | Application/Backend/fast_api_server.py:260-262 | Writing each line followed by a newline gives the newline-join plus a final newline. |
| `Pipeline.SplitFour` | Application/Frontend/functionality/text2json.py:128 | `split(" ", 3)` of three space-free fields and a rest gives back the four parts. |
| `Pipeline.LabelSplit` | Application/Frontend/functionality/text2json.py:133-135 | The sentiment split recovers the body and the label, and strip leaves the label unchanged. |
| `Pipeline.ParseRendered` | Application/Frontend/functionality/text2json.py:128-135 | A line in the backend's shape parses to its pieces. |
| `Pipeline.RenderedLineParses` | Application/Backend/speech_to_text.py:113-115 | The frontend parses every line the backend renders back to its segment's times, speaker, text and sentiment. |
| `Pipeline.RenderedLineShape` | Application/Backend/speech_to_text.py:113-115 | A rendered line is non-empty, has no newline and no surrounding whitespace. |
| `Pipeline.StripTrailingNewline` | Application/Frontend/functionality/text2json.py:114 | Stripping a written file removes exactly the final newline. |
| `Pipeline.FileLines` | Application/Frontend/functionality/text2json.py:114 | Reading the written file back gives exactly the lines written. |
| `Pipeline.FileRoundTrip` | Application/Frontend/functionality/text2json.py:114-135 | Parsing the written transcript succeeds, with one record per segment equal to that segment's rendering. |
| `Pipeline.RecordsOfSegments` | Application/Frontend/functionality/text2json.py:153-172 | Each record keeps its segment's speaker and text, and its sentiment is one of the three keys. |
| `Pipeline.TranscriptRoundTrip` | Application/Frontend/functionality/text2json.py:109-172 | End to end, the records match the segments, and the Net sentiment counts add up to the number of segments. |

## Left out

- Speech recognition (Whisper), the diarization model (pyannote) and the overlap argmax are outside the model. Their outputs are inputs (`asrSegments`, `dominantSpeaker`).
- TextBlob polarity, rapidfuzz `token_sort_ratio` and the `re` engine are parameters. Only the empty-pattern rule of `re.search` is built in.
- Floating point is modelled as `real`, with parsing and formatting (`float()`, `:.2f`, `round(·, 2)`, `str`) as parameters. IEEE rounding and float edge cases are not modelled.
- File, network and model-loading I/O are not modelled: the FastAPI endpoints in `fast_api_server.py`, the Streamlit pages in `app.py` and `pages/analytics.py`, and the YAML loading of the words configuration. The configuration is an explicit value with the shipped defaults.
- The Plotly `show_*` figure builders in `plot_functions.py` produce charts only. They are not modelled.
- Logging and exception messages are not modelled. A raised exception is `None`.
- Pydantic's coercion of field types is not modelled; values arrive already typed.
- `lower()` is ASCII only: Unicode case mapping is not modelled. The whitespace set of `strip`/`split` is Python's `isspace` set.
- Pipeline.Renderable: the round-trip lemmas assume the following about the formatters:
  - `:.2f` output has no space or newline;
  - the start time renders with a non-space first character;
  - `float()` reads the rendered times back;
  - speakers contain no space or newline, and texts no newline.

  The real formatters satisfy these assumptions for the backend's labels, but that is not proved here.
- Pipeline.FileRoundTrip: covers a non-empty result list only. An empty transcript file is rejected by the parser (`TextToJson.BlankTranscriptRejected`).
- PlotFunctions.ConvSpeedVerdict: states the verdict only away from the 2.5 threshold (outside ±0.005), because rounding is a parameter.
- PlotFunctions.TalkTimeVerdict: characterises the verdict only for non-negative totals. A reversed interval gives a negative talk time, and the verdict is not stated for it.
- SpeechToText.LoadAndTranscribe: audio file validation and the model calls are not modelled. The method starts from the recogniser's segments.
- TextToJson.TextToJson: the per-speaker dictionaries of the sentiment counts are a record of three tallies (Net, Handler, Client), each with three counters.

## Findings

| source | as written | input that shows it | evidently intended | confidence | as-written member | corrected member |
|---|---|---|---|---|---|---|
| Application/Backend/pyannote_utils.py:23-27 | The `end <= start` check reads `end` from the already-validated fields. While `end` itself is being validated it is not yet among them, so the check never fires. | start = 2.0, end = 1.0, text "hi" is accepted | Reject segments whose end is not after their start | high (pydantic v2 validation order); not executed | PyannoteUtils.AsWrittenAcceptsReversedInterval | PyannoteUtils.CorrectedRejectsReversedInterval |

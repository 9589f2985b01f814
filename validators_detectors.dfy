/**
 * The compliance detectors run on every transcript line: required phrases
 * by fuzzy similarity, personal and sensitive details by regular
 * expression, and prohibited words by exact lower-cased token match.
 */
module ValidatorsDetectors {
  import opened PyStrings

  /** `SIMILARITY_THRESHOLD`: a phrase matches when its ratio is strictly above it. */
  const SimilarityThreshold: real := 55.0

  /** `PersonalInformationPatterns`, fields in declaration order. */
  datatype PersonalInformationPatterns =
    PersonalInformationPatterns(phoneNumber: string, dateDdMmYyyy: string, multi4DigitPatt: string)

  /** `SensitiveInformationPatterns`, fields in declaration order. */
  datatype SensitiveInformationPatterns =
    SensitiveInformationPatterns(creditCard: string, atmPin: string, accountPassword: string)

  /** The field defaults of the two pattern schemas. */
  const DefaultPersonalPatterns: PersonalInformationPatterns :=
    PersonalInformationPatterns("\\d{4}-\\d{4}", "\\d{2}-\\d{2}-\\d{4}", "\\b\\d{4}\\b.*\\b\\d{4}\\b")
  const DefaultSensitivePatterns: SensitiveInformationPatterns :=
    SensitiveInformationPatterns(
      "\\b(?:\\d{4}[- ]?){3}\\d{4}\\b",
      "\\b\\d{4}\\b",
      "^(?=.*[a-z])(?=.*[A-Z])(?=.*\\d)(?=.*[@$!%*?&])[A-Za-z\\d@$!%*?&]{8,}$")

  /** `WordsConfigSchema`: the validated contents of `words_config.yaml`. */
  datatype WordsConfig = WordsConfig(
    greetings: seq<string>,
    disclaimers: seq<string>,
    prohibitedPhrases: seq<string>,
    closingStatements: seq<string>,
    personal: PersonalInformationPatterns,
    sensitive: SensitiveInformationPatterns)

  /**
   * The library calls the detectors make: rapidfuzz's `token_sort_ratio`,
   * `re.search` for a non-empty pattern (whether it returns a match) and
   * `re.findall`. The `re` calls take the pattern first; `token_sort_ratio`
   * takes the text first.
   */
  datatype Matchers = Matchers(
    tokenSortRatio: (string, string) -> real,
    reSearch: (string, string) -> bool,
    reFindall: (string, string) -> seq<string>)

  /** `re.search(pattern, text)` as a truth value: the empty pattern matches every string. */
  predicate Search(m: Matchers, pattern: string, text: string) {
    pattern == "" || m.reSearch(pattern, text)
  }

  /** `model_dump().items()` of each pattern schema, in declaration order. */
  function PersonalItems(p: PersonalInformationPatterns): seq<(string, string)> {
    [("phone_number", p.phoneNumber), ("date_dd_mm_yyyy", p.dateDdMmYyyy), ("multi_4_digit_patt", p.multi4DigitPatt)]
  }

  function SensitiveItems(s: SensitiveInformationPatterns): seq<(string, string)> {
    [("credit_card", s.creditCard), ("atm_pin", s.atmPin), ("account_password", s.accountPassword)]
  }

  function Keys(items: seq<(string, string)>): (keys: seq<string>)
    ensures |keys| == |items| && forall i :: 0 <= i < |items| ==> keys[i] == items[i].0
  {
    seq(|items|, i requires 0 <= i < |items| => items[i].0)
  }

  /**
   * `dict(items).get(key, "")`, read at the first entry with that key. A
   * Python dict keeps the last value of a repeated key; the two agree here
   * because the `model_dump()` items have distinct keys.
   */
  function Get(items: seq<(string, string)>, key: string): (v: string)
    ensures (forall i :: 0 <= i < |items| ==> items[i].0 != key) ==> v == ""
    ensures forall i :: (0 <= i < |items| && items[i].0 == key &&
      (forall j :: 0 <= j < i ==> items[j].0 != key)) ==> v == items[i].1
  {
    if items == [] then "" else if items[0].0 == key then items[0].1 else Get(items[1..], key)
  }

  // ------------------------------------------------------ required phrases

  /** One `category` per reference phrase whose similarity to `text` is above the threshold, in order. */
  function PhraseHits(text: string, refs: seq<string>, category: string, m: Matchers): (hits: seq<string>)
    ensures |hits| <= |refs|
    ensures forall i :: 0 <= i < |hits| ==> hits[i] == category
  {
    if refs == [] then []
    else
      var last := refs[|refs| - 1];
      PhraseHits(text, refs[..|refs| - 1], category, m)
        + (if m.tokenSortRatio(text, last) > SimilarityThreshold then [category] else [])
  }

  /** Some reference phrase scores strictly above the threshold against `text`. */
  predicate SomePhraseMatches(text: string, refs: seq<string>, m: Matchers) {
    exists j :: 0 <= j < |refs| && m.tokenSortRatio(text, refs[j]) > SimilarityThreshold
  }

  /** Some category is recorded exactly when some reference phrase scores above the threshold. */
  lemma {:induction false} PhraseHitsNonEmpty(text: string, refs: seq<string>, category: string, m: Matchers)
    ensures PhraseHits(text, refs, category, m) != [] <==> SomePhraseMatches(text, refs, m)
  {
    if refs != [] {
      var init := refs[..|refs| - 1];
      PhraseHitsNonEmpty(text, init, category, m);
      assert forall j :: 0 <= j < |init| ==> init[j] == refs[j];
    }
  }

  /** One loop of `required_phrase_validation`: the flag and the categories it appends. */
  method ScanPhrases(text: string, refs: seq<string>, category: string, m: Matchers) returns (flag: nat, hits: seq<string>)
    ensures hits == PhraseHits(text, refs, category, m)
    ensures flag == Flag(hits)
  {
    flag, hits := 0, [];
    for i := 0 to |refs|
      invariant hits == PhraseHits(text, refs[..i], category, m)
      invariant flag == Flag(hits)
    {
      assert refs[..i + 1][..i] == refs[..i];
      var similarity := m.tokenSortRatio(text, refs[i]);
      if similarity > SimilarityThreshold {
        flag := 1;
        hits := hits + [category];
      }
    }
    assert refs[..|refs|] == refs;
  }

  /** The result of `required_phrase_validation`. */
  datatype PhraseResult = PhraseResult(greets: nat, disclaims: nat, closures: nat, phraseCat: seq<string>)

  const GreetingsCategory: string := "Greetings"
  const DisclaimersCategory: string := "Disclaimers"
  const ClosingCategory: string := "Closing_Statements"

  function Flag(hits: seq<string>): nat {
    if hits == [] then 0 else 1
  }

  /** What `required_phrase_validation` computes. */
  function RequiredPhrases(text: string, cfg: WordsConfig, m: Matchers): PhraseResult {
    var g := PhraseHits(text, cfg.greetings, GreetingsCategory, m);
    var d := PhraseHits(text, cfg.disclaimers, DisclaimersCategory, m);
    var c := PhraseHits(text, cfg.closingStatements, ClosingCategory, m);
    PhraseResult(Flag(g), Flag(d), Flag(c), g + d + c)
  }

  /** `required_phrase_validation`: the three lists scanned in turn. */
  method RequiredPhraseValidation(text: string, cfg: WordsConfig, m: Matchers) returns (r: PhraseResult)
    ensures r == RequiredPhrases(text, cfg, m)
  {
    var greets, g := ScanPhrases(text, cfg.greetings, GreetingsCategory, m);
    var disclaims, d := ScanPhrases(text, cfg.disclaimers, DisclaimersCategory, m);
    var closures, c := ScanPhrases(text, cfg.closingStatements, ClosingCategory, m);
    r := PhraseResult(greets, disclaims, closures, g + d + c);
  }

  /** Position of a phrase category in the order the three lists are scanned. */
  function CategoryRank(category: string): nat {
    if category == GreetingsCategory then 0 else if category == DisclaimersCategory then 1 else 2
  }

  /** Every hit of `hits` names `category`. */
  predicate AllNamed(hits: seq<string>, category: string) {
    forall i :: 0 <= i < |hits| ==> hits[i] == category
  }

  /** Three blocks of hits, one category each, concatenated in scanning order. */
  lemma GroupedCategories(g: seq<string>, d: seq<string>, c: seq<string>)
    requires AllNamed(g, GreetingsCategory) && AllNamed(d, DisclaimersCategory) && AllNamed(c, ClosingCategory)
    ensures var cat := g + d + c;
      && (g != [] <==> GreetingsCategory in cat)
      && (d != [] <==> DisclaimersCategory in cat)
      && (c != [] <==> ClosingCategory in cat)
      && (forall i, j :: 0 <= i < j < |cat| ==> CategoryRank(cat[i]) <= CategoryRank(cat[j]))
  {
    var cat := g + d + c;
    assert forall i :: 0 <= i < |cat| ==>
      (i < |g| ==> cat[i] == GreetingsCategory) &&
      (|g| <= i < |g| + |d| ==> cat[i] == DisclaimersCategory) &&
      (|g| + |d| <= i ==> cat[i] == ClosingCategory);
    if g != [] {
      assert cat[0] == GreetingsCategory;
    }
    if d != [] {
      assert cat[|g|] == DisclaimersCategory;
    }
    if c != [] {
      assert cat[|g| + |d|] == ClosingCategory;
    }
  }

  /**
   * Each flag is 0 or 1, and is 1 exactly when its category appears in
   * `phrase_cat`; the categories come grouped in the order the lists are
   * scanned.
   */
  lemma PhraseFlags(text: string, cfg: WordsConfig, m: Matchers)
    ensures var r := RequiredPhrases(text, cfg, m);
      && r.greets <= 1 && r.disclaims <= 1 && r.closures <= 1
      && (r.greets == 1 <==> GreetingsCategory in r.phraseCat)
      && (r.disclaims == 1 <==> DisclaimersCategory in r.phraseCat)
      && (r.closures == 1 <==> ClosingCategory in r.phraseCat)
      && (forall i, j :: 0 <= i < j < |r.phraseCat| ==> CategoryRank(r.phraseCat[i]) <= CategoryRank(r.phraseCat[j]))
  {
    var g := PhraseHits(text, cfg.greetings, GreetingsCategory, m);
    var d := PhraseHits(text, cfg.disclaimers, DisclaimersCategory, m);
    var c := PhraseHits(text, cfg.closingStatements, ClosingCategory, m);
    GroupedCategories(g, d, c);
  }

  /** A flag is set exactly when some phrase of its list scores strictly above 55. */
  lemma PhraseFlagsMeaning(text: string, cfg: WordsConfig, m: Matchers)
    ensures var r := RequiredPhrases(text, cfg, m);
      && (r.greets == 1 <==> SomePhraseMatches(text, cfg.greetings, m))
      && (r.disclaims == 1 <==> SomePhraseMatches(text, cfg.disclaimers, m))
      && (r.closures == 1 <==> SomePhraseMatches(text, cfg.closingStatements, m))
  {
    PhraseHitsNonEmpty(text, cfg.greetings, GreetingsCategory, m);
    PhraseHitsNonEmpty(text, cfg.disclaimers, DisclaimersCategory, m);
    PhraseHitsNonEmpty(text, cfg.closingStatements, ClosingCategory, m);
  }

  // ------------------------------------------------------- personal details

  /** Some personal-detail key names a pattern, looked up in `patterns`, that matches `pin`. */
  predicate AnyPersonalMatch(personalDetails: seq<string>, patterns: seq<(string, string)>, pin: string, m: Matchers) {
    exists i :: 0 <= i < |personalDetails| && Search(m, Get(patterns, personalDetails[i]), pin)
  }

  /**
   * What `is_valid_atm_pin` decides: some four-digit candidate escapes every
   * personal-detail pattern, each looked up (as the code does) in the
   * sensitive-pattern dictionary.
   */
  predicate AtmPinValid(text: string, cfg: WordsConfig, m: Matchers) {
    var patterns := SensitiveItems(cfg.sensitive);
    var candidates := m.reFindall(Get(patterns, "atm_pin"), text);
    exists i :: 0 <= i < |candidates| && !AnyPersonalMatch(Keys(PersonalItems(cfg.personal)), patterns, candidates[i], m)
  }

  /** `is_valid_atm_pin` */
  method IsValidAtmPin(text: string, cfg: WordsConfig, m: Matchers) returns (valid: bool)
    ensures valid == AtmPinValid(text, cfg, m)
  {
    var patterns := SensitiveItems(cfg.sensitive);
    var potentialAtmPins := m.reFindall(Get(patterns, "atm_pin"), text);
    var personalDetails := Keys(PersonalItems(cfg.personal));
    for i := 0 to |potentialAtmPins|
      invariant forall j :: 0 <= j < i ==> AnyPersonalMatch(personalDetails, patterns, potentialAtmPins[j], m)
    {
      var pin := potentialAtmPins[i];
      if AnyPersonalMatch(personalDetails, patterns, pin, m) {
        continue;
      }
      return true;
    }
    return false;
  }

  /**
   * The personal-detail keys never name a sensitive pattern, so every lookup
   * yields the empty pattern, which matches every candidate: as written,
   * `is_valid_atm_pin` answers `False` for every text and configuration.
   */
  lemma AtmPinNeverValid(text: string, cfg: WordsConfig, m: Matchers)
    ensures !AtmPinValid(text, cfg, m)
  {
    var patterns := SensitiveItems(cfg.sensitive);
    var personalDetails := Keys(PersonalItems(cfg.personal));
    assert personalDetails[0] == "phone_number";
    assert Get(patterns, "phone_number") == "";
    forall pin: string
      ensures AnyPersonalMatch(personalDetails, patterns, pin, m)
    {
      assert Search(m, Get(patterns, personalDetails[0]), pin);
    }
  }

  /** The test both loops of `detect_personal_details` apply to one `(key, pattern)` pair. */
  predicate PiiKeyHit(key: string, pattern: string, text: string, cfg: WordsConfig, m: Matchers) {
    (key != "atm_pin" && Search(m, pattern, text)) || (key == "atm_pin" && AtmPinValid(text, cfg, m))
  }

  /** `[key]` when `hit`, else nothing: one step of an `append` guarded by a test. */
  function Opt(hit: bool, key: string): (r: seq<string>)
    ensures |r| <= 1 && (forall k :: k in r <==> hit && k == key)
  {
    if hit then [key] else []
  }

  /** The keys of `items` whose test passes, in order. */
  function PiiHits(items: seq<(string, string)>, text: string, cfg: WordsConfig, m: Matchers): (keys: seq<string>)
    ensures |keys| <= |items|
  {
    if items == [] then []
    else
      var last := items[|items| - 1];
      PiiHits(items[..|items| - 1], text, cfg, m) + Opt(PiiKeyHit(last.0, last.1, text, cfg, m), last.0)
  }

  /** `PiiHits` over three pairs, spelled out. */
  lemma PiiHitsOfThree(a: (string, string), b: (string, string), c: (string, string), text: string, cfg: WordsConfig, m: Matchers)
    ensures PiiHits([a, b, c], text, cfg, m) ==
      Opt(PiiKeyHit(a.0, a.1, text, cfg, m), a.0)
      + Opt(PiiKeyHit(b.0, b.1, text, cfg, m), b.0)
      + Opt(PiiKeyHit(c.0, c.1, text, cfg, m), c.0)
  {
    assert [a, b, c][..2] == [a, b];
    assert [a, b][..1] == [a];
    assert [a][..0] == [];
    assert PiiHits([a], text, cfg, m) == [] + Opt(PiiKeyHit(a.0, a.1, text, cfg, m), a.0);
  }

  /** What `detect_personal_details` collects: sensitive keys first, then personal keys. */
  function PiiCategories(text: string, cfg: WordsConfig, m: Matchers): seq<string> {
    PiiHits(SensitiveItems(cfg.sensitive), text, cfg, m) + PiiHits(PersonalItems(cfg.personal), text, cfg, m)
  }

  /** One loop of `detect_personal_details` over the `(key, pattern)` pairs of a schema. */
  method ScanPii(items: seq<(string, string)>, text: string, cfg: WordsConfig, m: Matchers) returns (found: nat, keys: seq<string>)
    ensures found == |keys|
    ensures keys == PiiHits(items, text, cfg, m)
  {
    found, keys := 0, [];
    for i := 0 to |items|
      invariant found == |keys| && keys == PiiHits(items[..i], text, cfg, m)
    {
      assert items[..i + 1][..i] == items[..i];
      var (key, pattern) := items[i];
      var hit := false;
      if key != "atm_pin" {
        hit := Search(m, pattern, text);
      } else {
        hit := IsValidAtmPin(text, cfg, m);
      }
      if hit {
        found := found + 1;
        keys := keys + [key];
      }
    }
    assert items[..|items|] == items;
  }

  /** `detect_personal_details`: the sensitive loop, then the personal loop, into one list. */
  method DetectPersonalDetails(text: string, cfg: WordsConfig, m: Matchers) returns (pilPresent: nat, pilCat: seq<string>)
    ensures pilPresent == |pilCat|
    ensures pilCat == PiiCategories(text, cfg, m)
  {
    var sensitiveFound, sensitiveKeys := ScanPii(SensitiveItems(cfg.sensitive), text, cfg, m);
    var personalFound, personalKeys := ScanPii(PersonalItems(cfg.personal), text, cfg, m);
    pilPresent, pilCat := sensitiveFound + personalFound, sensitiveKeys + personalKeys;
  }

  /** The sensitive loop: `atm_pin` never passes, the other two keys pass when their pattern matches. */
  lemma SensitiveHits(text: string, cfg: WordsConfig, m: Matchers)
    ensures PiiHits(SensitiveItems(cfg.sensitive), text, cfg, m) ==
      Opt(Search(m, cfg.sensitive.creditCard, text), "credit_card")
      + Opt(Search(m, cfg.sensitive.accountPassword, text), "account_password")
  {
    var s := cfg.sensitive;
    assert Opt(PiiKeyHit("atm_pin", s.atmPin, text, cfg, m), "atm_pin") == [] by {
      AtmPinNeverValid(text, cfg, m);
    }
    PiiHitsOfThree(("credit_card", s.creditCard), ("atm_pin", s.atmPin), ("account_password", s.accountPassword), text, cfg, m);
    var o1 := Opt(Search(m, s.creditCard, text), "credit_card");
    var o3 := Opt(Search(m, s.accountPassword, text), "account_password");
    assert o1 + [] + o3 == o1 + o3;
  }

  /** The personal loop: each key passes when its pattern matches. */
  lemma PersonalHits(text: string, cfg: WordsConfig, m: Matchers)
    ensures PiiHits(PersonalItems(cfg.personal), text, cfg, m) ==
      Opt(Search(m, cfg.personal.phoneNumber, text), "phone_number")
      + Opt(Search(m, cfg.personal.dateDdMmYyyy, text), "date_dd_mm_yyyy")
      + Opt(Search(m, cfg.personal.multi4DigitPatt, text), "multi_4_digit_patt")
  {
    var p := cfg.personal;
    PiiHitsOfThree(("phone_number", p.phoneNumber), ("date_dd_mm_yyyy", p.dateDdMmYyyy), ("multi_4_digit_patt", p.multi4DigitPatt), text, cfg, m);
  }

  lemma AppendRegroup(a: seq<string>, b: seq<string>, c: seq<string>, d: seq<string>)
    ensures a + (b + c + d) == a + b + c + d
  {
  }

  /** `detect_personal_details` as written: `atm_pin` drops out, the other five keys are checked in order. */
  lemma PiiCategoriesSpelledOut(text: string, cfg: WordsConfig, m: Matchers)
    ensures PiiCategories(text, cfg, m) ==
      Opt(Search(m, cfg.sensitive.creditCard, text), "credit_card")
      + Opt(Search(m, cfg.sensitive.accountPassword, text), "account_password")
      + Opt(Search(m, cfg.personal.phoneNumber, text), "phone_number")
      + Opt(Search(m, cfg.personal.dateDdMmYyyy, text), "date_dd_mm_yyyy")
      + Opt(Search(m, cfg.personal.multi4DigitPatt, text), "multi_4_digit_patt")
  {
    var o1 := Opt(Search(m, cfg.sensitive.creditCard, text), "credit_card");
    var o3 := Opt(Search(m, cfg.sensitive.accountPassword, text), "account_password");
    var o4 := Opt(Search(m, cfg.personal.phoneNumber, text), "phone_number");
    var o5 := Opt(Search(m, cfg.personal.dateDdMmYyyy, text), "date_dd_mm_yyyy");
    var o6 := Opt(Search(m, cfg.personal.multi4DigitPatt, text), "multi_4_digit_patt");
    SensitiveHits(text, cfg, m);
    PersonalHits(text, cfg, m);
    assert PiiCategories(text, cfg, m) == (o1 + o3) + (o4 + o5 + o6);
    AppendRegroup(o1 + o3, o4, o5, o6);
  }

  predicate NoDuplicates(keys: seq<string>) {
    forall i, j :: 0 <= i < j < |keys| ==> keys[i] != keys[j]
  }

  lemma NoDuplicatesConcat(a: seq<string>, b: seq<string>)
    requires NoDuplicates(a) && NoDuplicates(b)
    requires forall k :: k in a ==> k !in b
    ensures NoDuplicates(a + b)
  {
    forall i, j | 0 <= i < j < |a + b|
      ensures (a + b)[i] != (a + b)[j]
    {
      if j < |a| {
      } else if i >= |a| {
        assert (a + b)[i] == b[i - |a|] && (a + b)[j] == b[j - |a|];
      } else {
        assert (a + b)[i] in a && (a + b)[j] in b;
      }
    }
  }

  /** Appending a guarded key that is not yet present. */
  lemma OptAppend(cat: seq<string>, hit: bool, key: string)
    requires NoDuplicates(cat) && key !in cat
    ensures NoDuplicates(cat + Opt(hit, key))
    ensures forall x :: x in cat + Opt(hit, key) <==> x in cat || (hit && x == key)
    ensures |cat + Opt(hit, key)| <= |cat| + 1
  {
    NoDuplicatesConcat(cat, Opt(hit, key));
  }

  /** Five guarded keys, pairwise distinct and distinct from `absent`, appended in turn. */
  lemma FiveKeys(h1: bool, k1: string, h2: bool, k2: string, h3: bool, k3: string,
                 h4: bool, k4: string, h5: bool, k5: string, absent: string)
    requires k1 != k2 && k1 != k3 && k1 != k4 && k1 != k5 && k1 != absent
    requires k2 != k3 && k2 != k4 && k2 != k5 && k2 != absent
    requires k3 != k4 && k3 != k5 && k3 != absent
    requires k4 != k5 && k4 != absent && k5 != absent
    ensures var cat := Opt(h1, k1) + Opt(h2, k2) + Opt(h3, k3) + Opt(h4, k4) + Opt(h5, k5);
      && |cat| <= 5
      && absent !in cat
      && (k1 in cat <==> h1) && (k2 in cat <==> h2) && (k3 in cat <==> h3)
      && (k4 in cat <==> h4) && (k5 in cat <==> h5)
      && NoDuplicates(cat)
  {
    var c1 := Opt(h1, k1);
    OptAppend(c1, h2, k2);
    var c2 := c1 + Opt(h2, k2);
    OptAppend(c2, h3, k3);
    var c3 := c2 + Opt(h3, k3);
    OptAppend(c3, h4, k4);
    var c4 := c3 + Opt(h4, k4);
    OptAppend(c4, h5, k5);
  }

  /**
   * Which categories `detect_personal_details` reports: a key is reported
   * exactly when it is one of the five pattern keys other than `atm_pin` and
   * its pattern matches; `atm_pin` is never reported; no key twice.
   */
  lemma PiiMembership(text: string, cfg: WordsConfig, m: Matchers)
    ensures var cat := PiiCategories(text, cfg, m);
      && |cat| <= 5
      && "atm_pin" !in cat
      && ("credit_card" in cat <==> Search(m, cfg.sensitive.creditCard, text))
      && ("account_password" in cat <==> Search(m, cfg.sensitive.accountPassword, text))
      && ("phone_number" in cat <==> Search(m, cfg.personal.phoneNumber, text))
      && ("date_dd_mm_yyyy" in cat <==> Search(m, cfg.personal.dateDdMmYyyy, text))
      && ("multi_4_digit_patt" in cat <==> Search(m, cfg.personal.multi4DigitPatt, text))
      && NoDuplicates(cat)
  {
    PiiCategoriesSpelledOut(text, cfg, m);
    FiveKeys(Search(m, cfg.sensitive.creditCard, text), "credit_card",
             Search(m, cfg.sensitive.accountPassword, text), "account_password",
             Search(m, cfg.personal.phoneNumber, text), "phone_number",
             Search(m, cfg.personal.dateDdMmYyyy, text), "date_dd_mm_yyyy",
             Search(m, cfg.personal.multi4DigitPatt, text), "multi_4_digit_patt", "atm_pin");
  }

  /**
   * A phone number such as "1234-5678" is reported under `phone_number`, and
   * its four-digit groups do not make it an ATM PIN.
   */
  lemma PhoneNumberIsNotPin(cfg: WordsConfig, m: Matchers)
    requires cfg.personal == DefaultPersonalPatterns
    requires m.reSearch(DefaultPersonalPatterns.phoneNumber, "1234-5678")
    ensures "phone_number" in PiiCategories("1234-5678", cfg, m)
    ensures "atm_pin" !in PiiCategories("1234-5678", cfg, m)
  {
    PiiMembership("1234-5678", cfg, m);
  }

  // ----------------------------------------------------- prohibited words

  /** The lower-cased tokens that are prohibited phrases, in order, duplicates kept. */
  function ProhibitedIn(tokens: seq<string>, prohibited: seq<string>): (words: seq<string>)
    ensures |words| <= |tokens|
    ensures forall i :: 0 <= i < |words| ==> words[i] in prohibited
  {
    if tokens == [] then []
    else
      var w := Lower(tokens[|tokens| - 1]);
      ProhibitedIn(tokens[..|tokens| - 1], prohibited) + (if w in prohibited then [w] else [])
  }

  /** `detect_prohibited_phrases` */
  method DetectProhibitedPhrases(text: string, prohibitedPhrases: seq<string>) returns (wordsCount: nat, prohibitedWords: seq<string>)
    ensures wordsCount == |prohibitedWords|
    ensures prohibitedWords == ProhibitedIn(Words(text), prohibitedPhrases)
  {
    wordsCount, prohibitedWords := 0, [];
    var textToken := Words(text);
    for i := 0 to |textToken|
      invariant wordsCount == |prohibitedWords|
      invariant prohibitedWords == ProhibitedIn(textToken[..i], prohibitedPhrases)
    {
      assert textToken[..i + 1][..i] == textToken[..i];
      var token := Lower(textToken[i]);
      if token in prohibitedPhrases {
        wordsCount := wordsCount + 1;
        prohibitedWords := prohibitedWords + [token];
      }
    }
    assert textToken[..|textToken|] == textToken;
  }

  /** Occurrences of `w` in `words`. */
  function Count(words: seq<string>, w: string): nat {
    if words == [] then 0 else Count(words[..|words| - 1], w) + (if words[|words| - 1] == w then 1 else 0)
  }

  /** Tokens of `tokens` whose lower-cased form is `w`. */
  function CountLower(tokens: seq<string>, w: string): nat {
    if tokens == [] then 0 else CountLower(tokens[..|tokens| - 1], w) + (if Lower(tokens[|tokens| - 1]) == w then 1 else 0)
  }

  /**
   * Every occurrence counts: a prohibited word is reported once for each
   * token that lower-cases to it, and no other word is reported.
   */
  lemma {:induction false} ProhibitedMultiplicity(tokens: seq<string>, prohibited: seq<string>, w: string)
    ensures Count(ProhibitedIn(tokens, prohibited), w) == if w in prohibited then CountLower(tokens, w) else 0
  {
    if tokens != [] {
      var init := tokens[..|tokens| - 1];
      ProhibitedMultiplicity(init, prohibited, w);
      var lw := Lower(tokens[|tokens| - 1]);
      var words := ProhibitedIn(init, prohibited);
      if lw in prohibited {
        assert (words + [lw])[..|words|] == words;
      } else {
        assert ProhibitedIn(tokens, prohibited) == words;
      }
    }
  }

  /** A blank line has no tokens and so no prohibited words. */
  lemma BlankHasNoProhibited(text: string, prohibited: seq<string>)
    requires IsBlank(text)
    ensures ProhibitedIn(Words(text), prohibited) == []
  {
    WordsOfBlank(text);
  }
}

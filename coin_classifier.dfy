/**
 * The rule-based parts of the image service's coin classifier
 * (coin_classifier.py): the three-tier OCR year extractor, the coin-detail
 * rules keyed on the year, and the year-based value floor applied after
 * classification. Text is treated as ASCII.
 */
module CoinClassifier {
  import opened Wrappers
  import opened Ascii

  // ---------------------------------------------------------------------
  // Year patterns

  predicate FourDigitsAt(t: string, i: nat) {
    i + 4 <= |t| && IsDigit(t[i]) && IsDigit(t[i + 1]) && IsDigit(t[i + 2]) && IsDigit(t[i + 3])
  }

  /** Python `int()` of the four digits at `i`. */
  function YearValue(t: string, i: nat): (v: nat)
    requires FourDigitsAt(t, i)
    ensures v <= 9999
  {
    1000 * DigitValue(t[i]) + 100 * DigitValue(t[i + 1]) + 10 * DigitValue(t[i + 2]) + DigitValue(t[i + 3])
  }

  /** The alternation `1[7-9]\d{2}|20\d{2}|21\d{2}` matches at `i`. */
  predicate WideYearAt(t: string, i: nat) {
    && FourDigitsAt(t, i)
    && ((t[i] == '1' && '7' <= t[i + 1] <= '9')
        || (t[i] == '2' && t[i + 1] == '0')
        || (t[i] == '2' && t[i + 1] == '1'))
  }

  /** The alternation `18[7-9]\d|19[0-3]\d|194\d|195\d|196\d` matches at `i`. */
  predicate NarrowYearAt(t: string, i: nat) {
    && FourDigitsAt(t, i)
    && t[i] == '1'
    && ((t[i + 1] == '8' && '7' <= t[i + 2] <= '9')
        || (t[i + 1] == '9' && '0' <= t[i + 2] <= '3')
        || (t[i + 1] == '9' && t[i + 2] == '4')
        || (t[i + 1] == '9' && t[i + 2] == '5')
        || (t[i + 1] == '9' && t[i + 2] == '6'))
  }

  /** The wide pattern is exactly the four-digit numbers from 1700 to 2199. */
  lemma WideYearRange(t: string, i: nat)
    requires FourDigitsAt(t, i)
    ensures WideYearAt(t, i) <==> 1700 <= YearValue(t, i) <= 2199
  {
  }

  /** The narrow pattern is exactly the four-digit numbers from 1870 to 1969. */
  lemma NarrowYearRange(t: string, i: nat)
    requires FourDigitsAt(t, i)
    ensures NarrowYearAt(t, i) <==> 1870 <= YearValue(t, i) <= 1969
  {
  }

  /**
   * `\b` in front of a match whose first character is a digit: the start of
   * the text or a non-word character before it.
   */
  predicate BoundaryBefore(t: string, i: nat)
    requires i <= |t|
  {
    i == 0 || !IsWordChar(t[i - 1])
  }

  /** `\b` after a match whose last character is a digit. */
  predicate BoundaryAfter(t: string, e: nat)
    requires e <= |t|
  {
    e == |t| || !IsWordChar(t[e])
  }

  /** The two regular expressions: a whole-word wide year, and an embedded narrow year. */
  datatype YearPattern = WholeWord | Embedded

  predicate MatchAt(t: string, i: nat, p: YearPattern) {
    match p
    case WholeWord => WideYearAt(t, i) && BoundaryBefore(t, i) && BoundaryAfter(t, i + 4)
    case Embedded => NarrowYearAt(t, i)
  }

  /** `re.search` from position `from`: the leftmost match position, if any. */
  function Search(t: string, p: YearPattern, from: nat): (r: Option<nat>)
    requires from <= |t|
    ensures r.Some? ==> from <= r.value < |t| && MatchAt(t, r.value, p)
    ensures r.Some? ==> forall j | from <= j < r.value :: !MatchAt(t, j, p)
    ensures r.None? ==> forall j | from <= j < |t| :: !MatchAt(t, j, p)
    decreases |t| - from
  {
    if from == |t| then None
    else if MatchAt(t, from, p) then Some(from)
    else Search(t, p, from + 1)
  }

  /** The year the first match denotes, if there is a match. */
  function SearchYear(t: string, p: YearPattern): (r: Option<int>)
    ensures r.Some? ==> match p
                        case WholeWord => 1700 <= r.value <= 2199
                        case Embedded => 1870 <= r.value <= 1969
    ensures r.None? <==> forall j | 0 <= j < |t| :: !MatchAt(t, j, p)
  {
    match Search(t, p, 0)
    case None => None
    case Some(i) =>
      WideYearRange(t, i);
      NarrowYearRange(t, i);
      Some(YearValue(t, i))
  }

  /** A match at `i` with none before it is the one `SearchYear` reports. */
  lemma SearchYearFirst(t: string, p: YearPattern, i: nat)
    requires MatchAt(t, i, p)
    requires forall j | 0 <= j < i :: !MatchAt(t, j, p)
    ensures SearchYear(t, p) == Some(YearValue(t, i))
  {
    var r := Search(t, p, 0);
    assert r.Some? && r.value == i by {
      assert i < |t|;
    }
  }

  // ---------------------------------------------------------------------
  // OCR clean-up

  /** The replacement pairs, in the order the dictionary lists them. */
  const Replacements: seq<(char, char)> := [
    ('O', '0'), ('o', '0'),
    ('I', '1'), ('l', '1'), ('|', '1'),
    ('B', '8'), ('b', '8'),
    ('g', '9'), ('q', '9'),
    ('S', '5'), ('s', '5'),
    ('Z', '2'), ('z', '2')
  ]

  /** Apply each pair's `str.replace` in turn, the first pair first. */
  function ApplyReplacements(s: string, pairs: seq<(char, char)>): (r: string)
    ensures |r| == |s|
    decreases |pairs|, |s|
  {
    if |pairs| == 0 then s
    else ApplyReplacements(ReplaceChar(s, pairs[0].0, pairs[0].1), pairs[1..])
  }

  /** The same replacements applied to one character. */
  function ApplyToChar(c: char, pairs: seq<(char, char)>): (d: char)
    decreases |pairs|
  {
    if |pairs| == 0 then c
    else ApplyToChar(if c == pairs[0].0 then pairs[0].1 else c, pairs[1..])
  }

  /** Replacing characters acts on each position independently. */
  lemma {:induction false} ApplyReplacementsPointwise(s: string, pairs: seq<(char, char)>, k: nat)
    requires k < |s|
    ensures ApplyReplacements(s, pairs)[k] == ApplyToChar(s[k], pairs)
    decreases |pairs|
  {
    if |pairs| > 0 {
      ApplyReplacementsPointwise(ReplaceChar(s, pairs[0].0, pairs[0].1), pairs[1..], k);
    }
  }

  /** What clean-up does to an upper-cased character: O, I, |, B, S and Z become digits. */
  function CleanChar(c: char): (d: char) {
    if c == 'O' then '0'
    else if c == 'I' || c == '|' then '1'
    else if c == 'B' then '8'
    else if c == 'S' then '5'
    else if c == 'Z' then '2'
    else c
  }

  /** A character that no pair replaces is left alone. */
  lemma {:induction false} ApplyToCharMiss(c: char, pairs: seq<(char, char)>)
    requires forall j | 0 <= j < |pairs| :: pairs[j].0 != c
    ensures ApplyToChar(c, pairs) == c
    decreases |pairs|
  {
    if |pairs| > 0 {
      ApplyToCharMiss(c, pairs[1..]);
    }
  }

  /**
   * A character is rewritten by the first pair that names it, and the
   * replacement survives when no later pair names it.
   */
  lemma {:induction false} ApplyToCharFirstHit(c: char, pairs: seq<(char, char)>, i: nat)
    requires i < |pairs| && pairs[i].0 == c
    requires forall j | 0 <= j < i :: pairs[j].0 != c
    requires forall j | i < j < |pairs| :: pairs[j].0 != pairs[i].1
    ensures ApplyToChar(c, pairs) == pairs[i].1
    decreases |pairs|
  {
    if i == 0 {
      ApplyToCharMiss(pairs[0].1, pairs[1..]);
    } else {
      ApplyToCharFirstHit(c, pairs[1..], i - 1);
    }
  }

  /** On text without lower-case letters, the lower-case keys never fire. */
  lemma ReplacementsOnChar(c: char)
    requires !IsLower(c)
    ensures ApplyToChar(c, Replacements) == CleanChar(c)
  {
    if c == 'O' {
      ReplacedAt(c, 0);
    } else if c == 'I' {
      ReplacedAt(c, 2);
    } else if c == '|' {
      ReplacedAt(c, 4);
    } else if c == 'B' {
      ReplacedAt(c, 5);
    } else if c == 'S' {
      ReplacedAt(c, 9);
    } else if c == 'Z' {
      ReplacedAt(c, 11);
    } else {
      NotReplaced(c);
    }
  }

  /** An upper-case key or `|` is rewritten by its own pair and by nothing else. */
  lemma ReplacedAt(c: char, i: nat)
    requires i < |Replacements| && Replacements[i].0 == c && !IsLower(c)
    requires c == 'O' || c == 'I' || c == '|' || c == 'B' || c == 'S' || c == 'Z'
    ensures ApplyToChar(c, Replacements) == Replacements[i].1
  {
    var r := Replacements;
    assert forall j | 0 <= j < |r| :: r[j].0 == c ==> j == i;
    assert forall j | 0 <= j < |r| :: !IsDigit(r[j].0);
    ApplyToCharFirstHit(c, r, i);
  }

  /** Any other character that is not lower case is left alone. */
  lemma NotReplaced(c: char)
    requires !IsLower(c)
    requires !(c == 'O' || c == 'I' || c == '|' || c == 'B' || c == 'S' || c == 'Z')
    ensures ApplyToChar(c, Replacements) == c
  {
    var r := Replacements;
    assert forall j | 0 <= j < |r| :: r[j].0 != c;
    ApplyToCharMiss(c, r);
  }

  /** The text the second tier searches: upper-cased, then every replacement applied. */
  function CleanedText(text: string): (cleaned: string)
    ensures |cleaned| == |text|
  {
    ApplyReplacements(UpperCase(text), Replacements)
  }

  /** Position by position, clean-up upper-cases and then maps O, I, |, B, S and Z to digits. */
  lemma CleanedTextAt(text: string, k: nat)
    requires k < |text|
    ensures CleanedText(text)[k] == CleanChar(ToUpper(text[k]))
  {
    ApplyReplacementsPointwise(UpperCase(text), Replacements, k);
    ReplacementsOnChar(ToUpper(text[k]));
  }

  /** The clean-up loop: `cleaned_text` is rebound once per replacement pair. */
  method CleanOcrText(text: string) returns (cleaned: string)
    ensures cleaned == CleanedText(text)
  {
    cleaned := UpperCase(text);
    for i := 0 to |Replacements|
      invariant ApplyReplacements(cleaned, Replacements[i..]) == CleanedText(text)
    {
      var (from, to) := Replacements[i];
      assert Replacements[i..][1..] == Replacements[i + 1..];
      cleaned := ReplaceChar(cleaned, from, to);
    }
  }

  // ---------------------------------------------------------------------
  // extract_year_from_ocr

  /**
   * The year `extract_year_from_ocr` reports: a whole-word year in the raw
   * text, else one in the cleaned text, else an embedded 1870-1969 year in
   * the raw text, else none. Any year found lies in 1700..2199.
   */
  function OcrYear(text: string): (r: Option<int>)
    ensures r.Some? ==> 1700 <= r.value <= 2199
  {
    var first := SearchYear(text, WholeWord);
    if first.Some? then first
    else
      var second := SearchYear(CleanedText(text), WholeWord);
      if second.Some? then second
      else SearchYear(text, Embedded)
  }

  method ExtractYearFromOcr(text: string) returns (year: Option<int>)
    ensures year == OcrYear(text)
    ensures year.Some? ==> 1700 <= year.value <= 2199
  {
    year := SearchYear(text, WholeWord);
    if year.Some? {
      return;
    }
    var cleanedText := CleanOcrText(text);
    year := SearchYear(cleanedText, WholeWord);
    if year.Some? {
      return;
    }
    year := SearchYear(text, Embedded);
  }

  /** Tier one: the first whole-word year of the raw text wins. */
  lemma OcrWholeWordYear(text: string, i: nat)
    requires MatchAt(text, i, WholeWord)
    requires forall j | 0 <= j < i :: !MatchAt(text, j, WholeWord)
    ensures OcrYear(text) == Some(YearValue(text, i))
  {
    SearchYearFirst(text, WholeWord, i);
  }

  /** Tier two: with no whole-word year in the raw text, the first in the cleaned text wins. */
  lemma OcrCleanedYear(text: string, i: nat)
    requires forall j | 0 <= j < |text| :: !MatchAt(text, j, WholeWord)
    requires MatchAt(CleanedText(text), i, WholeWord)
    requires forall j | 0 <= j < i :: !MatchAt(CleanedText(text), j, WholeWord)
    ensures OcrYear(text) == Some(YearValue(CleanedText(text), i))
  {
    SearchYearFirst(CleanedText(text), WholeWord, i);
  }

  /** Tier three: otherwise the first embedded 1870-1969 year of the raw text wins. */
  lemma OcrEmbeddedYear(text: string, i: nat)
    requires forall j | 0 <= j < |text| :: !MatchAt(text, j, WholeWord)
    requires forall j | 0 <= j < |text| :: !MatchAt(CleanedText(text), j, WholeWord)
    requires MatchAt(text, i, Embedded)
    requires forall j | 0 <= j < i :: !MatchAt(text, j, Embedded)
    ensures OcrYear(text) == Some(YearValue(text, i))
    ensures 1870 <= YearValue(text, i) <= 1969
  {
    SearchYearFirst(text, Embedded, i);
  }

  /** No tier matches: no year. */
  lemma OcrNoYear(text: string)
    requires forall j | 0 <= j < |text| :: !MatchAt(text, j, WholeWord)
    requires forall j | 0 <= j < |text| :: !MatchAt(CleanedText(text), j, WholeWord)
    requires forall j | 0 <= j < |text| :: !MatchAt(text, j, Embedded)
    ensures OcrYear(text) == None
  {
  }


  /** Misread letters are repaired: "I9O5" reads as 1905. */
  lemma OcrRepairsMisreads()
    ensures OcrYear("I9O5") == Some(1905)
  {
    var t := "I9O5";
    RepairsMisreads(t);
  }

  /** "I9O5" as a parameter, so that the literal is unfolded only once. */
  lemma RepairsMisreads(t: string)
    requires |t| == 4 && t[0] == 'I' && t[1] == '9' && t[2] == 'O' && t[3] == '5'
    ensures OcrYear(t) == Some(1905)
  {
    CleansTo1905(t);
    var c := CleanedText(t);
    Reads1905(c);
    NoYearAfterLetter(t);
    OcrCleanedYear(t, 0);
  }

  /** The cleaned text of "I9O5" is "1905". */
  lemma CleansTo1905(t: string)
    requires |t| == 4 && t[0] == 'I' && t[1] == '9' && t[2] == 'O' && t[3] == '5'
    ensures var c := CleanedText(t); |c| == 4 && c[0] == '1' && c[1] == '9' && c[2] == '0' && c[3] == '5'
  {
    CleanedCharIs(t, 0, '1');
    CleanedCharIs(t, 1, '9');
    CleanedCharIs(t, 2, '0');
    CleanedCharIs(t, 3, '5');
  }

  /** One position of the cleaned text, for a character that is not lower case. */
  lemma CleanedCharIs(t: string, k: nat, d: char)
    requires k < |t| && !IsLower(t[k]) && CleanChar(t[k]) == d
    ensures CleanedText(t)[k] == d
  {
    CleanedTextAt(t, k);
  }

  /** "1905" holds a whole-word year 1905 at position 0. */
  lemma Reads1905(c: string)
    requires |c| == 4 && c[0] == '1' && c[1] == '9' && c[2] == '0' && c[3] == '5'
    ensures MatchAt(c, 0, WholeWord) && YearValue(c, 0) == 1905
  {
  }

  /** A four-character text opening with a non-digit holds no year. */
  lemma NoYearAfterLetter(t: string)
    requires |t| == 4 && !IsDigit(t[0])
    ensures forall j | 0 <= j < |t| :: !MatchAt(t, j, WholeWord)
  {
  }

  /** A mint mark glued to the date defeats both word-bounded tiers; the third finds it. */
  lemma OcrDateWithAttachedMintMark()
    ensures OcrYear("1878D") == Some(1878)
  {
    var t := "1878D";
    AttachedMintMark(t);
  }

  /** "1878D" as a parameter, so that the literal is unfolded only once. */
  lemma AttachedMintMark(t: string)
    requires |t| == 5 && t[0] == '1' && t[1] == '8' && t[2] == '7' && t[3] == '8' && t[4] == 'D'
    ensures OcrYear(t) == Some(1878)
  {
    CleanedTextAt(t, 4);
    LetterAfterFourChars(t);
    LetterAfterFourChars(CleanedText(t));
    Reads1878(t);
    OcrEmbeddedYear(t, 0);
  }

  /** "1878D" holds the embedded year 1878 at position 0. */
  lemma Reads1878(t: string)
    requires |t| == 5 && t[0] == '1' && t[1] == '8' && t[2] == '7' && t[3] == '8'
    ensures MatchAt(t, 0, Embedded) && YearValue(t, 0) == 1878
  {
  }

  /** In a five-character text ending in a letter, no whole-word year fits. */
  lemma LetterAfterFourChars(t: string)
    requires |t| == 5 && IsWordChar(t[4]) && !IsDigit(t[4])
    ensures forall j | 0 <= j < |t| :: !MatchAt(t, j, WholeWord)
  {
  }

  // ---------------------------------------------------------------------
  // Coin details and the hybrid value floor

  /** `COIN_DENOMINATIONS`: coin key to face value. */
  const CoinDenominations: map<string, string> := map[
    "morgan_dollar" := "$1",
    "peace_dollar" := "$1",
    "walking_liberty_half" := "$0.50",
    "franklin_half" := "$0.50",
    "kennedy_half" := "$0.50",
    "washington_quarter" := "$0.25",
    "standing_liberty_quarter" := "$0.25",
    "barber_quarter" := "$0.25",
    "state_quarter" := "$0.25",
    "mercury_dime" := "$0.10",
    "roosevelt_dime" := "$0.10",
    "barber_dime" := "$0.10",
    "buffalo_nickel" := "$0.05",
    "jefferson_nickel" := "$0.05",
    "lincoln_cent" := "$0.01",
    "indian_head_cent" := "$0.01",
    "wheat_cent" := "$0.01",
    "american_eagle_silver" := "$1 (Bullion)",
    "american_eagle_gold" := "$50 (Bullion)",
    "modern_commemorative" := "Varies",
    "unknown_coin" := "Unknown"
  ]

  /** `COIN_BASE_VALUES`: coin key to a base dollar value. */
  const CoinBaseValues: map<string, real> := map[
    "morgan_dollar" := 30.00,
    "peace_dollar" := 25.00,
    "walking_liberty_half" := 15.00,
    "franklin_half" := 10.00,
    "kennedy_half" := 7.00,
    "washington_quarter" := 5.00,
    "standing_liberty_quarter" := 20.00,
    "barber_quarter" := 15.00,
    "state_quarter" := 0.50,
    "mercury_dime" := 3.00,
    "roosevelt_dime" := 2.00,
    "barber_dime" := 10.00,
    "buffalo_nickel" := 2.00,
    "jefferson_nickel" := 0.50,
    "lincoln_cent" := 0.10,
    "indian_head_cent" := 5.00,
    "wheat_cent" := 0.25,
    "american_eagle_silver" := 35.00,
    "american_eagle_gold" := 2000.00,
    "modern_commemorative" := 50.00,
    "unknown_coin" := 0.00
  ]

  /** Both tables cover the same coin keys, and no base value is negative. */
  lemma TablesShareKeys()
    ensures forall k :: k in CoinDenominations <==> k in CoinBaseValues
    ensures forall k | k in CoinBaseValues :: CoinBaseValues[k] >= 0.0
  {
  }

  /** The table key of a display name: lower-cased, spaces turned into underscores. */
  function CoinKey(coinType: string): (key: string)
    ensures |key| == |coinType|
    ensures forall i | 0 <= i < |key| :: key[i] == if coinType[i] == ' ' then '_' else ToLower(coinType[i])
  {
    ReplaceChar(LowerCase(coinType), ' ', '_')
  }

  /** A display name maps to its table key. */
  lemma CoinKeyOfDisplayName()
    ensures CoinKey("Morgan Dollar") == "morgan_dollar"
    ensures CoinDenominations[CoinKey("Morgan Dollar")] == "$1"
  {
    var k := CoinKey("Morgan Dollar");
    assert k[0] == 'm' && k[6] == '_';
  }

  /** Python truthiness of an optional year: present and non-zero. */
  predicate Truthy(year: Option<int>) {
    year.Some? && year.value != 0
  }

  /** A key naming a denomination that was struck in 90% silver before 1965. */
  predicate SilverDenominationKey(key: string) {
    Contains(key, "dollar") || Contains(key, "half") || Contains(key, "quarter") || Contains(key, "dime")
  }

  /** The detail record; an absent dictionary key is `None`. */
  datatype CoinDetails = CoinDetails(
    coinType: string, denomination: string, baseValue: real, year: Option<int>,
    composition: Option<string>, silverContent: Option<bool>)

  /**
   * `get_coin_details`: the table entries for the name's key (or "Unknown"
   * and 0), and composition labels that depend on the year.
   */
  method GetCoinDetails(coinType: string, year: Option<int>) returns (details: CoinDetails)
    ensures details.coinType == coinType && details.year == year
    ensures var key := CoinKey(coinType);
      && details.denomination == (if key in CoinDenominations then CoinDenominations[key] else "Unknown")
      && details.baseValue == (if key in CoinBaseValues then CoinBaseValues[key] else 0.0)
    ensures Truthy(year) && year.value < 1965 && SilverDenominationKey(CoinKey(coinType))
            ==> details.composition == Some("90% Silver, 10% Copper") && details.silverContent == Some(true)
    ensures Truthy(year) && year.value >= 1965
            ==> details.composition == Some("Copper-Nickel Clad") && details.silverContent == Some(false)
    ensures !(Truthy(year) && year.value >= 1965)
            && !(Truthy(year) && year.value < 1965 && SilverDenominationKey(CoinKey(coinType)))
            ==> details.composition == None && details.silverContent == None
  {
    var coinKey := CoinKey(coinType);
    var denomination := if coinKey in CoinDenominations then CoinDenominations[coinKey] else "Unknown";
    var baseValue := if coinKey in CoinBaseValues then CoinBaseValues[coinKey] else 0.0;
    details := CoinDetails(coinType, denomination, baseValue, year, None, None);
    if Truthy(year) && year.value < 1965 {
      if Contains(coinKey, "dollar") || Contains(coinKey, "half") || Contains(coinKey, "quarter")
         || Contains(coinKey, "dime") {
        details := details.(composition := Some("90% Silver, 10% Copper"), silverContent := Some(true));
      }
    } else if Truthy(year) && year.value >= 1965 {
      details := details.(composition := Some("Copper-Nickel Clad"), silverContent := Some(false));
    }
  }

  /** The classification fields the value floor reads and writes; an absent `year` key is `None`. */
  datatype Classification = Classification(
    coinType: string, denomination: string, estimatedValue: real, year: Option<int>)

  function Max(a: real, b: real): (m: real)
    ensures m >= a && m >= b && (m == a || m == b)
  {
    if b > a then b else a
  }

  /** Denominations that get the $5 floor for pre-1965 coins. */
  predicate SilverFractional(denomination: string) {
    denomination in ["$0.50", "$0.25", "$0.10"]
  }

  /**
   * The year adjustment of `classify_coin_hybrid`: when the OCR text yields
   * a year, it is recorded; a pre-1965 coin named a dollar is worth at
   * least $30, any other pre-1965 half, quarter or dime at least $5. The
   * estimate is never lowered and nothing else changes.
   */
  method ClassifyCoinHybrid(clip: Classification, ocrText: string) returns (result: Classification)
    ensures result.coinType == clip.coinType && result.denomination == clip.denomination
    ensures result.estimatedValue >= clip.estimatedValue
    ensures var year := if ocrText == "" then None else OcrYear(ocrText);
      && (year.None? ==> result == clip)
      && (year.Some? ==> result.year == year)
      && (year.Some? && year.value < 1965 && Contains(LowerCase(clip.coinType), "dollar")
          ==> result.estimatedValue == Max(clip.estimatedValue, 30.0))
      && (year.Some? && year.value < 1965 && !Contains(LowerCase(clip.coinType), "dollar")
          && SilverFractional(clip.denomination)
          ==> result.estimatedValue == Max(clip.estimatedValue, 5.0))
      && (year.Some? && !(year.value < 1965 && (Contains(LowerCase(clip.coinType), "dollar")
                                               || SilverFractional(clip.denomination)))
          ==> result.estimatedValue == clip.estimatedValue)
  {
    var year: Option<int> := None;
    if ocrText != "" {
      year := ExtractYearFromOcr(ocrText);
    }
    result := clip;
    if Truthy(year) {
      result := result.(year := year);
      if year.value < 1965 && Contains(LowerCase(result.coinType), "dollar") {
        result := result.(estimatedValue := Max(result.estimatedValue, 30.0));
      } else if year.value < 1965 && result.denomination in ["$0.50", "$0.25", "$0.10"] {
        result := result.(estimatedValue := Max(result.estimatedValue, 5.0));
      }
    }
  }
}

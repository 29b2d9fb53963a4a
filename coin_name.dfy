/**
 * The name normaliser of compositions.go: `normalizeCoinType` strips a
 * leading year/mint-mark token and a trailing grade token from a
 * certification-style title ("1921-S Peace Dollar MS67" becomes
 * "Peace Dollar") with two regular-expression replacements:
 *
 *   1. `^\d{4}[-\s]?[A-Z]?\s*`   replaced by ""
 *   2. `\s+[A-Z]{2}\d+[A-Z]*$`   replaced by ""
 *
 * Each pattern is given here twice: as the language it denotes (what a
 * string must look like to match) and as a character-class scanner; the
 * scanners' contracts say that they remove exactly the match Go's
 * leftmost-first engine picks.
 */
module CoinName {
  import opened Ascii

  predicate IsSeparator(c: char) { c == '-' || IsSpace(c) }

  /** `t` is in the language of `[-\s]?[A-Z]?\s*`. */
  predicate IsYearTail(t: string) {
    || AllIn(t, 0, |t|, Space)
    || (|t| >= 1 && IsSeparator(t[0]) && AllIn(t, 1, |t|, Space))
    || (|t| >= 1 && IsUpper(t[0]) && AllIn(t, 1, |t|, Space))
    || (|t| >= 2 && IsSeparator(t[0]) && IsUpper(t[1]) && AllIn(t, 2, |t|, Space))
  }

  /** `p` is in the language of `\d{4}[-\s]?[A-Z]?\s*`. */
  predicate IsYearPrefix(p: string) {
    |p| >= 4 && AllIn(p, 0, 4, Digit) && IsYearTail(p[4..])
  }

  /**
   * Length of the text the first replacement removes. The pattern is
   * anchored, so it can only match a prefix; the greedy choice at every
   * optional element makes the match the LONGEST prefix in the language,
   * and no prefix matches unless the string opens with four digits.
   */
  function YearPrefixLength(s: string): (n: nat)
    ensures n <= |s|
    ensures n > 0 ==> IsYearPrefix(s[..n])
    ensures n == 0 ==> forall k :: 0 <= k <= |s| ==> !IsYearPrefix(s[..k])
    ensures forall k :: n < k <= |s| ==> !IsYearPrefix(s[..k])
  {
    if |s| < 4 || !(IsDigit(s[0]) && IsDigit(s[1]) && IsDigit(s[2]) && IsDigit(s[3])) then
      assert forall k :: 0 <= k <= |s| ==> !IsYearPrefix(s[..k]) by {
        forall k | 0 <= k <= |s| && |s[..k]| >= 4 ensures !AllIn(s[..k], 0, 4, Digit) {
          assert forall i :: 0 <= i < 4 ==> s[..k][i] == s[i];
        }
      }
      0
    else
      var a := if 4 < |s| && IsSeparator(s[4]) then 5 else 4;
      var b := if a < |s| && IsUpper(s[a]) then a + 1 else a;
      var n := b + RunFrom(s, b, Space);
      YearPrefixFacts(s, a, b, n);
      n
  }

  /** The prefix chosen by the scanner matches, and no longer prefix does. */
  lemma YearPrefixFacts(s: string, a: nat, b: nat, n: nat)
    requires |s| >= 4 && AllIn(s, 0, 4, Digit)
    requires a == if 4 < |s| && IsSeparator(s[4]) then 5 else 4
    requires b == if a < |s| && IsUpper(s[a]) then a + 1 else a
    requires n == b + RunFrom(s, b, Space)
    ensures n <= |s| && IsYearPrefix(s[..n])
    ensures forall k :: n < k <= |s| ==> !IsYearPrefix(s[..k])
  {
    var p := s[..n];
    var t := p[4..];
    assert forall i :: 0 <= i < |t| ==> t[i] == s[4 + i];
    assert AllIn(p, 0, 4, Digit) by {
      assert forall i :: 0 <= i < 4 ==> p[i] == s[i];
    }
    if a == 5 && b == 6 {
      assert IsSeparator(t[0]) && IsUpper(t[1]) && AllIn(t, 2, |t|, Space);
    } else if a == 5 {
      assert IsSeparator(t[0]) && AllIn(t, 1, |t|, Space);
    } else if b == 5 {
      assert IsUpper(t[0]) && AllIn(t, 1, |t|, Space);
    } else {
      assert AllIn(t, 0, |t|, Space);
    }
    forall k | n < k <= |s|
      ensures !IsYearPrefix(s[..k])
    {
      var u := s[..k][4..];
      assert forall i :: 0 <= i < |u| ==> u[i] == s[4 + i];
    }
  }

  /** `\s+[A-Z]{2}\d+[A-Z]*` matches `s[j..]` in full (the `$` anchor). */
  ghost predicate GradeMatchAt(s: string, j: nat)
    requires j <= |s|
  {
    exists a: nat, b: nat {:trigger AllIn(s, j, a, Space), AllIn(s, b, |s|, Upper)} | j < a && a + 2 < b <= |s| ::
      && AllIn(s, j, a, Space)
      && IsUpper(s[a]) && IsUpper(s[a + 1])
      && AllIn(s, a + 2, b, Digit)
      && AllIn(s, b, |s|, Upper)
  }

  /**
   * Start of the text the second replacement removes (|s| when nothing
   * matches). Go reports the leftmost match; since the match must run to
   * the end of the string, this is the least `j` at which the grade
   * pattern matches `s[j..]`. The scanner finds it backwards: trailing
   * capitals, then digits, then exactly two capitals, then the whole run of
   * white space before them.
   */
  function GradeSuffixStart(s: string): (j: nat)
    ensures j <= |s|
    ensures j < |s| ==> GradeMatchAt(s, j)
    ensures forall i :: 0 <= i < j ==> !GradeMatchAt(s, i)
  {
    var e := |s| - RunBefore(s, |s|, Upper);
    var d := RunBefore(s, e, Digit);
    var c := e - d;
    if d == 0 || c < 2 || !IsUpper(s[c - 2]) || !IsUpper(s[c - 1]) then
      GradeNoMatch(s, e, d, c);
      |s|
    else
      var w := RunBefore(s, c - 2, Space);
      if w == 0 then
        GradeNoMatch(s, e, d, c);
        |s|
      else
        GradeMatch(s, e, d, c, w);
        c - 2 - w
  }

  /** Any match forces the shape the scanner checks, and starts after its first space. */
  lemma GradeMatchShape(s: string, i: nat, e: nat, d: nat, c: nat)
    requires i <= |s| && GradeMatchAt(s, i)
    requires e == |s| - RunBefore(s, |s|, Upper)
    requires d == RunBefore(s, e, Digit) && c == e - d
    ensures d > 0 && c >= 2 && IsUpper(s[c - 2]) && IsUpper(s[c - 1])
    ensures i < c - 2 && AllIn(s, i, c - 2, Space)
  {
    var a: nat, b: nat :| i < a && a + 2 < b <= |s|
      && AllIn(s, i, a, Space)
      && IsUpper(s[a]) && IsUpper(s[a + 1])
      && AllIn(s, a + 2, b, Digit)
      && AllIn(s, b, |s|, Upper);
    GradeWitnessShape(s, a, b);
    assert e == b && d == b - (a + 2) && c == a + 2;
  }

  /** The witnesses of a match sit exactly at the class boundaries the scanner finds. */
  lemma GradeWitnessShape(s: string, a: nat, b: nat)
    requires a + 2 < b <= |s|
    requires IsUpper(s[a]) && IsUpper(s[a + 1])
    requires AllIn(s, a + 2, b, Digit) && AllIn(s, b, |s|, Upper)
    ensures RunBefore(s, |s|, Upper) == |s| - b
    ensures RunBefore(s, b, Digit) == b - (a + 2)
  {
    assert IsDigit(s[b - 1]);
    RunBeforeStopsAt(s, |s|, b, Upper);
    RunBeforeStopsAt(s, b, a + 2, Digit);
  }

  /** When the scanned tail lacks a space, two capitals or a digit, no position matches. */
  lemma GradeNoMatch(s: string, e: nat, d: nat, c: nat)
    requires e == |s| - RunBefore(s, |s|, Upper)
    requires d == RunBefore(s, e, Digit) && c == e - d
    requires d == 0 || c < 2 || !IsUpper(s[c - 2]) || !IsUpper(s[c - 1]) || RunBefore(s, c - 2, Space) == 0
    ensures forall i :: 0 <= i <= |s| ==> !GradeMatchAt(s, i)
  {
    forall i | 0 <= i <= |s| ensures !GradeMatchAt(s, i) {
      if GradeMatchAt(s, i) {
        GradeMatchShape(s, i, e, d, c);
      }
    }
  }

  /** When the scanned tail has that shape, the match starts at the first space of the run. */
  lemma GradeMatch(s: string, e: nat, d: nat, c: nat, w: nat)
    requires e == |s| - RunBefore(s, |s|, Upper)
    requires d == RunBefore(s, e, Digit) && c == e - d
    requires d > 0 && c >= 2 && IsUpper(s[c - 2]) && IsUpper(s[c - 1])
    requires w == RunBefore(s, c - 2, Space) && w > 0
    ensures GradeMatchAt(s, c - 2 - w)
    ensures forall i :: 0 <= i < c - 2 - w ==> !GradeMatchAt(s, i)
  {
    var a, b := c - 2, e;
    assert AllIn(s, c - 2 - w, a, Space) && AllIn(s, a + 2, b, Digit) && AllIn(s, b, |s|, Upper);
    forall i | 0 <= i < c - 2 - w ensures !GradeMatchAt(s, i) {
      if GradeMatchAt(s, i) {
        GradeMatchShape(s, i, e, d, c);
      }
    }
  }

  /**
   * `normalizeCoinType`: the year/mint-mark prefix is removed first, then
   * the grade suffix of what remains. A string that neither opens with a
   * year prefix nor closes with a grade token comes back unchanged.
   */
  function NormalizeCoinType(coinType: string): (r: string)
    ensures |r| <= |coinType|
    ensures (forall k :: 0 <= k <= |coinType| ==> !IsYearPrefix(coinType[..k]))
         && (forall i :: 0 <= i < |coinType| ==> !GradeMatchAt(coinType, i))
         ==> r == coinType
  {
    var rest := coinType[YearPrefixLength(coinType)..];
    rest[..GradeSuffixStart(rest)]
  }

  /** A string that does not open with a digit has no year prefix. */
  lemma NoYearPrefix(s: string)
    requires |s| > 0 && !IsDigit(s[0])
    ensures YearPrefixLength(s) == 0
  {
  }

  /** Four digits, a separator, a capital and one space: the prefix is those seven characters. */
  lemma SevenCharYearPrefix(s: string)
    requires |s| > 7 && IsDigit(s[0]) && IsDigit(s[1]) && IsDigit(s[2]) && IsDigit(s[3])
    requires IsSeparator(s[4]) && IsUpper(s[5]) && IsSpace(s[6]) && !IsSpace(s[7])
    ensures YearPrefixLength(s) == 7
  {
    assert AllIn(s, 6, 7, Space);
    assert RunFrom(s, 6, Space) == 1;
  }

  /** Four digits, a space and a capital not followed by a space: the prefix is six characters. */
  lemma SixCharYearPrefix(s: string)
    requires |s| > 6 && IsDigit(s[0]) && IsDigit(s[1]) && IsDigit(s[2]) && IsDigit(s[3])
    requires IsSeparator(s[4]) && IsUpper(s[5]) && !IsSpace(s[6])
    ensures YearPrefixLength(s) == 6
  {
    assert RunFrom(s, 6, Space) == 0;
  }

  /** A string ending in neither a capital nor a digit has no grade suffix. */
  lemma NoGradeSuffix(t: string)
    requires |t| > 0 && !IsUpper(t[|t| - 1]) && !IsDigit(t[|t| - 1])
    ensures GradeSuffixStart(t) == |t|
  {
    assert RunBefore(t, |t|, Upper) == 0;
    assert RunBefore(t, |t|, Digit) == 0;
  }

  /**
   * One space, two capitals at `a`, digits up to `b` and capitals to the
   * end, after a non-space: the grade suffix starts at that space.
   */
  lemma OneSpaceGradeSuffix(t: string, a: nat, b: nat)
    requires 2 <= a && a + 2 < b <= |t|
    requires !IsSpace(t[a - 2]) && IsSpace(t[a - 1])
    requires IsUpper(t[a]) && IsUpper(t[a + 1])
    requires AllIn(t, a + 2, b, Digit) && AllIn(t, b, |t|, Upper)
    ensures GradeSuffixStart(t) == a - 1
  {
    GradeWitnessShape(t, a, b);
    RunBeforeStopsAt(t, a, a - 1, Space);
  }

  /** Three capitals before the digits: not a grade suffix. */
  lemma ThreeCapitalsNoGradeSuffix(t: string, a: nat)
    requires 1 <= a && a + 3 < |t|
    requires IsUpper(t[a - 1]) && IsUpper(t[a]) && IsUpper(t[a + 1])
    requires AllIn(t, a + 2, |t|, Digit)
    ensures GradeSuffixStart(t) == |t|
  {
    RunBeforeStopsAt(t, |t|, |t|, Upper);
    RunBeforeStopsAt(t, |t|, a + 2, Digit);
    assert !IsSpace(t[a - 1]);
    assert RunBefore(t, a, Space) == 0;
  }

  /** The documented example: year, mint mark and grade are all removed. */
  lemma NormalizeCertificationTitle()
    ensures NormalizeCoinType("1921-S Peace Dollar MS67") == "Peace Dollar"
  {
    CertificationTitleShape();
    MintMarkedGradedTitle("1921-S Peace Dollar MS67");
    CertificationTitleName();
  }

  /** The name part of the certification title; the example lemmas split each literal into its characters, its name and a general lemma, so that the literal is unfolded only once. */
  lemma CertificationTitleName()
    ensures "1921-S Peace Dollar MS67"[7..19] == "Peace Dollar"
  {
  }

  /** The characters of the certification title that the general lemma reads. */
  lemma CertificationTitleShape()
    ensures var s := "1921-S Peace Dollar MS67";
      && |s| == 24 && IsDigit(s[0]) && IsDigit(s[1]) && IsDigit(s[2]) && IsDigit(s[3])
      && IsSeparator(s[4]) && IsUpper(s[5]) && IsSpace(s[6]) && !IsSpace(s[7])
      && !IsSpace(s[18]) && IsSpace(s[19]) && IsUpper(s[20]) && IsUpper(s[21])
      && IsDigit(s[22]) && IsDigit(s[23])
  {
  }

  /** Year, mint mark, a name and a two-digit grade: only the name is left. */
  lemma MintMarkedGradedTitle(s: string)
    requires |s| == 24 && IsDigit(s[0]) && IsDigit(s[1]) && IsDigit(s[2]) && IsDigit(s[3])
    requires IsSeparator(s[4]) && IsUpper(s[5]) && IsSpace(s[6]) && !IsSpace(s[7])
    requires !IsSpace(s[18]) && IsSpace(s[19]) && IsUpper(s[20]) && IsUpper(s[21])
    requires IsDigit(s[22]) && IsDigit(s[23])
    ensures NormalizeCoinType(s) == s[7..19]
  {
    SevenCharYearPrefix(s);
    var t := s[7..];
    assert AllIn(t, 15, 17, Digit) && AllIn(t, 17, 17, Upper);
    OneSpaceGradeSuffix(t, 13, 17);
    assert t[..12] == s[7..19];
  }

  /** Letters after the grade number are part of the grade token. */
  lemma NormalizeGradeWithDesignation()
    ensures NormalizeCoinType("Peace Dollar PR70DCAM") == "Peace Dollar"
  {
    DesignationTitleShape();
    GradeWithDesignation("Peace Dollar PR70DCAM");
    DesignationTitleName();
  }

  /** The name part of the designation example. */
  lemma DesignationTitleName()
    ensures "Peace Dollar PR70DCAM"[..12] == "Peace Dollar"
  {
  }

  /** The characters of the designation example that the general lemma reads. */
  lemma DesignationTitleShape()
    ensures var s := "Peace Dollar PR70DCAM";
      && |s| == 21 && !IsDigit(s[0]) && !IsSpace(s[11]) && IsSpace(s[12])
      && IsUpper(s[13]) && IsUpper(s[14]) && IsDigit(s[15]) && IsDigit(s[16])
      && IsUpper(s[17]) && IsUpper(s[18]) && IsUpper(s[19]) && IsUpper(s[20])
  {
  }

  /** A name followed by a grade with a four-letter designation: only the name is left. */
  lemma GradeWithDesignation(s: string)
    requires |s| == 21 && !IsDigit(s[0]) && !IsSpace(s[11]) && IsSpace(s[12])
    requires IsUpper(s[13]) && IsUpper(s[14]) && IsDigit(s[15]) && IsDigit(s[16])
    requires IsUpper(s[17]) && IsUpper(s[18]) && IsUpper(s[19]) && IsUpper(s[20])
    ensures NormalizeCoinType(s) == s[..12]
  {
    NoYearPrefix(s);
    assert s[0..] == s;
    assert AllIn(s, 15, 17, Digit) && AllIn(s, 17, 21, Upper);
    OneSpaceGradeSuffix(s, 13, 17);
  }

  /** The grade prefix must be exactly two capitals: a three-letter grade is kept. */
  lemma NormalizeKeepsThreeLetterGrade()
    ensures NormalizeCoinType("Morgan Dollar PRF70") == "Morgan Dollar PRF70"
  {
    ThreeLetterTitleShape();
    ThreeLetterGradeKept("Morgan Dollar PRF70");
  }

  /** The characters of the three-letter grade example that the general lemma reads. */
  lemma ThreeLetterTitleShape()
    ensures var s := "Morgan Dollar PRF70";
      && |s| == 19 && !IsDigit(s[0])
      && IsUpper(s[14]) && IsUpper(s[15]) && IsUpper(s[16]) && IsDigit(s[17]) && IsDigit(s[18])
  {
  }

  /** A name followed by a space, three capitals and digits is kept whole. */
  lemma ThreeLetterGradeKept(s: string)
    requires |s| == 19 && !IsDigit(s[0])
    requires IsUpper(s[14]) && IsUpper(s[15]) && IsUpper(s[16]) && IsDigit(s[17]) && IsDigit(s[18])
    ensures NormalizeCoinType(s) == s
  {
    NoYearPrefix(s);
    assert s[0..] == s;
    assert AllIn(s, 17, 19, Digit);
    ThreeCapitalsNoGradeSuffix(s, 15);
  }

  /**
   * Without a mint mark, `[A-Z]?` takes the first letter of the coin name:
   * "1921 Morgan Dollar" becomes "organ Dollar".
   */
  lemma NormalizeYearWithoutMintMark()
    ensures NormalizeCoinType("1921 Morgan Dollar") == "organ Dollar"
  {
    YearWithoutMintMarkShape();
    NameInitialTaken("1921 Morgan Dollar");
    YearWithoutMintMarkRest();
  }

  /** What is left of "1921 Morgan Dollar" after six characters. */
  lemma YearWithoutMintMarkRest()
    ensures "1921 Morgan Dollar"[6..] == "organ Dollar"
  {
  }

  /** The characters of "1921 Morgan Dollar" that the general lemma reads. */
  lemma YearWithoutMintMarkShape()
    ensures var s := "1921 Morgan Dollar";
      && |s| == 18 && IsDigit(s[0]) && IsDigit(s[1]) && IsDigit(s[2]) && IsDigit(s[3])
      && IsSpace(s[4]) && IsUpper(s[5]) && !IsSpace(s[6]) && !IsUpper(s[17]) && !IsDigit(s[17])
  {
  }

  lemma NameInitialTaken(s: string)
    requires |s| > 6 && IsDigit(s[0]) && IsDigit(s[1]) && IsDigit(s[2]) && IsDigit(s[3])
    requires IsSpace(s[4]) && IsUpper(s[5]) && !IsSpace(s[6])
    requires !IsUpper(s[|s| - 1]) && !IsDigit(s[|s| - 1])
    ensures NormalizeCoinType(s) == s[6..]
  {
    SixCharYearPrefix(s);
    var t := s[6..];
    NoGradeSuffix(t);
  }

  /** Normalising is not idempotent: each pass removes one grade token. */
  lemma NormalizeNotIdempotent()
    ensures NormalizeCoinType("X AB1 CD2") == "X AB1"
    ensures NormalizeCoinType(NormalizeCoinType("X AB1 CD2")) == "X"
  {
    TwoGradeTokensShape();
    TwoGradeTokens("X AB1 CD2");
    TwoGradeTokensRest();
  }

  /** The slices of the two-grade example that each pass leaves. */
  lemma TwoGradeTokensRest()
    ensures "X AB1 CD2"[..5] == "X AB1"
    ensures "X AB1 CD2"[..5][..1] == "X"
  {
  }

  /** The characters of the two-grade example that the general lemma reads. */
  lemma TwoGradeTokensShape()
    ensures var s := "X AB1 CD2";
      && |s| == 9 && !IsDigit(s[0]) && !IsSpace(s[0]) && IsSpace(s[1])
      && IsUpper(s[2]) && IsUpper(s[3]) && IsDigit(s[4]) && !IsSpace(s[4])
      && IsSpace(s[5]) && IsUpper(s[6]) && IsUpper(s[7]) && IsDigit(s[8])
  {
  }

  lemma TwoGradeTokens(s: string)
    requires |s| == 9 && !IsDigit(s[0]) && !IsSpace(s[0]) && IsSpace(s[1])
    requires IsUpper(s[2]) && IsUpper(s[3]) && IsDigit(s[4]) && !IsSpace(s[4])
    requires IsSpace(s[5]) && IsUpper(s[6]) && IsUpper(s[7]) && IsDigit(s[8])
    ensures NormalizeCoinType(s) == s[..5]
    ensures NormalizeCoinType(s[..5]) == s[..5][..1]
  {
    NoYearPrefix(s);
    assert s[0..] == s;
    assert AllIn(s, 8, 9, Digit) && AllIn(s, 9, 9, Upper);
    OneSpaceGradeSuffix(s, 6, 9);
    var t := s[..5];
    NoYearPrefix(t);
    assert t[0..] == t;
    assert AllIn(t, 4, 5, Digit) && AllIn(t, 5, 5, Upper);
    OneSpaceGradeSuffix(t, 2, 5);
  }

  /** A mint-marked year prefix on a catalog name leaves exactly the name. */
  lemma NormalizeMintMarkedKennedy()
    ensures NormalizeCoinType("1964-D Kennedy Half Dollar") == "Kennedy Half Dollar"
  {
    MintMarkedKennedyShape();
    MintMarkedName("1964-D Kennedy Half Dollar");
    MintMarkedKennedyName();
  }

  /** The name part of the mint-marked Kennedy title. */
  lemma MintMarkedKennedyName()
    ensures "1964-D Kennedy Half Dollar"[7..] == "Kennedy Half Dollar"
  {
  }

  /** The characters of the mint-marked Kennedy title that the general lemma reads. */
  lemma MintMarkedKennedyShape()
    ensures var s := "1964-D Kennedy Half Dollar";
      && |s| == 26 && IsDigit(s[0]) && IsDigit(s[1]) && IsDigit(s[2]) && IsDigit(s[3])
      && IsSeparator(s[4]) && IsUpper(s[5]) && IsSpace(s[6]) && !IsSpace(s[7])
      && !IsUpper(s[25]) && !IsDigit(s[25])
  {
  }

  /** Year and mint mark before a name without a grade: the name is left. */
  lemma MintMarkedName(s: string)
    requires |s| > 7 && IsDigit(s[0]) && IsDigit(s[1]) && IsDigit(s[2]) && IsDigit(s[3])
    requires IsSeparator(s[4]) && IsUpper(s[5]) && IsSpace(s[6]) && !IsSpace(s[7])
    requires !IsUpper(s[|s| - 1]) && !IsDigit(s[|s| - 1])
    ensures NormalizeCoinType(s) == s[7..]
  {
    SevenCharYearPrefix(s);
    var t := s[7..];
    NoGradeSuffix(t);
  }
}

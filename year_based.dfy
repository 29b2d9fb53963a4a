/**
 * The year-range resolver of year_based_compositions.go: for the coin types
 * whose metal content changed over time, an ordered table of year ranges
 * with a per-type default; every other type falls back to the catalog.
 */
module YearBased {
  import opened CoinName
  import opened Compositions

  /** A closed interval of mintage years and the composition for it. */
  datatype YearRange = YearRange(startYear: int, endYear: int, composition: MetalComposition)

  /** The rules of one coin type: ranges in declaration order, then a default. */
  datatype YearBasedComposition =
    YearBasedComposition(coinType: string, yearRanges: seq<YearRange>, defaultComp: MetalComposition)

  const KennedyHalfDollar: YearBasedComposition := YearBasedComposition(
    "Kennedy Half Dollar",
    [ YearRange(1964, 1964, MetalComposition(name := "Kennedy Half Dollar (1964)",
        metalType := "silver", weight := 0.36169, purity := 90.0)),
      YearRange(1965, 1970, MetalComposition(name := "Kennedy Half Dollar (1965-1970)",
        metalType := "silver", weight := 0.14792, purity := 40.0)) ],
    MetalComposition(name := "Kennedy Half Dollar (1971+)", metalType := "copper"))

  const WashingtonQuarter: YearBasedComposition := YearBasedComposition(
    "Washington Quarter",
    [ YearRange(1932, 1964, MetalComposition(name := "Washington Quarter (1932-1964)",
        metalType := "silver", weight := 0.18084, purity := 90.0)) ],
    MetalComposition(name := "Washington Quarter (1965+)", metalType := "copper"))

  const RooseveltDime: YearBasedComposition := YearBasedComposition(
    "Roosevelt Dime",
    [ YearRange(1946, 1964, MetalComposition(name := "Roosevelt Dime (1946-1964)",
        metalType := "silver", weight := 0.07234, purity := 90.0)) ],
    MetalComposition(name := "Roosevelt Dime (1965+)", metalType := "copper"))

  const JeffersonNickel: YearBasedComposition := YearBasedComposition(
    "Jefferson Nickel",
    [ YearRange(1942, 1945, MetalComposition(name := "Jefferson Nickel (1942-1945 Wartime)",
        metalType := "silver", weight := 0.05626, purity := 35.0)) ],
    MetalComposition(name := "Jefferson Nickel (Regular)", metalType := "copper",
      isBaseMetal := true, weightGrams := 5.0, copperPercent := 75.0, nickelPercent := 25.0))

  const LincolnCent: YearBasedComposition := YearBasedComposition(
    "Lincoln Cent",
    [ YearRange(1909, 1942, MetalComposition(name := "Lincoln Cent (1909-1942)", metalType := "copper")),
      YearRange(1943, 1943, MetalComposition(name := "Lincoln Cent (1943 Steel)", metalType := "copper")),
      YearRange(1944, 1946, MetalComposition(name := "Lincoln Cent (1944-1946 Shell Casing)", metalType := "copper")),
      YearRange(1947, 1982, MetalComposition(name := "Lincoln Cent (1947-1982)", metalType := "copper")) ],
    MetalComposition(name := "Lincoln Cent (1982+)", metalType := "copper"))

  const EisenhowerDollar: YearBasedComposition := YearBasedComposition(
    "Eisenhower Dollar",
    [ YearRange(1971, 1976, MetalComposition(name := "Eisenhower Dollar (1971-1976 Silver)",
        metalType := "silver", weight := 0.31625, purity := 40.0)) ],
    MetalComposition(name := "Eisenhower Dollar (Copper-Nickel Clad)", metalType := "copper"))

  const SusanBAnthonyDollar: YearBasedComposition := YearBasedComposition(
    "Susan B. Anthony Dollar", [],
    MetalComposition(name := "Susan B. Anthony Dollar", metalType := "copper"))

  const SacagaweaDollar: YearBasedComposition := YearBasedComposition(
    "Sacagawea Dollar", [],
    MetalComposition(name := "Sacagawea Dollar", metalType := "copper"))

  /** The rule table, in declaration order. */
  const YearBasedCompositions: seq<YearBasedComposition> := [
    KennedyHalfDollar, WashingtonQuarter, RooseveltDime, JeffersonNickel,
    LincolnCent, EisenhowerDollar, SusanBAnthonyDollar, SacagaweaDollar
  ]

  predicate Covers(r: YearRange, year: int) {
    r.startYear <= year <= r.endYear
  }

  /** The index of the first range covering `year`, or `|ranges|` when none does. */
  function FirstCovering(ranges: seq<YearRange>, year: int): (i: nat)
    ensures i <= |ranges|
    ensures i < |ranges| ==> Covers(ranges[i], year)
    ensures forall j | 0 <= j < i :: !Covers(ranges[j], year)
  {
    if |ranges| == 0 then 0
    else if Covers(ranges[0], year) then 0
    else 1 + FirstCovering(ranges[1..], year)
  }

  /** The index of the first rule set for `coinType`, or `|rules|` when none is registered. */
  function FindRules(rules: seq<YearBasedComposition>, coinType: string): (i: nat)
    ensures i <= |rules|
    ensures i < |rules| ==> rules[i].coinType == coinType
    ensures forall j | 0 <= j < i :: rules[j].coinType != coinType
  {
    if |rules| == 0 then 0
    else if rules[0].coinType == coinType then 0
    else 1 + FindRules(rules[1..], coinType)
  }

  /**
   * The composition one rule set gives a year: that of the first range in
   * declaration order that contains the year, or the default when none does.
   */
  function Resolve(rule: YearBasedComposition, year: int): (c: MetalComposition)
    ensures forall i | 0 <= i < |rule.yearRanges| && Covers(rule.yearRanges[i], year)
              && (forall j | 0 <= j < i :: !Covers(rule.yearRanges[j], year))
              :: c == rule.yearRanges[i].composition
    ensures (forall i | 0 <= i < |rule.yearRanges| :: !Covers(rule.yearRanges[i], year))
            ==> c == rule.defaultComp
  {
    var i := FirstCovering(rule.yearRanges, year);
    if i < |rule.yearRanges| then rule.yearRanges[i].composition else rule.defaultComp
  }

  predicate Registered(coinType: string) {
    exists k | 0 <= k < |YearBasedCompositions| :: YearBasedCompositions[k].coinType == coinType
  }

  /**
   * `GetCompositionByYear`: a registered type is always found and resolved
   * by its rule set, whatever the year; any other type gets exactly the
   * catalog lookup.
   */
  function GetCompositionByYear(coinType: string, year: int): (res: (MetalComposition, bool))
    ensures forall k | 0 <= k < |YearBasedCompositions| && YearBasedCompositions[k].coinType == coinType
              :: res == (Resolve(YearBasedCompositions[k], year), true)
    ensures !Registered(coinType) ==> res == GetComposition(coinType)
  {
    RuleNamesDistinct();
    var k := FindRules(YearBasedCompositions, coinType);
    if k < |YearBasedCompositions| then
      (Resolve(YearBasedCompositions[k], year), true)
    else
      GetComposition(coinType)
  }

  predicate Disjoint(r: YearRange, s: YearRange) {
    r.endYear < s.startYear || s.endYear < r.startYear
  }

  /** Each range is non-empty and the ranges of one type never overlap. */
  predicate RangesWellFormed(ranges: seq<YearRange>) {
    && (forall i | 0 <= i < |ranges| :: ranges[i].startYear <= ranges[i].endYear)
    && (forall i, j | 0 <= i < j < |ranges| :: Disjoint(ranges[i], ranges[j]))
  }

  /** The table lists each coin type once. */
  lemma RuleNamesDistinct()
    ensures forall i, j | 0 <= i < j < |YearBasedCompositions|
              :: YearBasedCompositions[i].coinType != YearBasedCompositions[j].coinType
  {
  }

  /** The table lists each coin type once, and every rule set is well formed. */
  lemma TableWellFormed()
    ensures forall i, j | 0 <= i < j < |YearBasedCompositions|
              :: YearBasedCompositions[i].coinType != YearBasedCompositions[j].coinType
    ensures forall k | 0 <= k < |YearBasedCompositions| :: RangesWellFormed(YearBasedCompositions[k].yearRanges)
  {
    RuleNamesDistinct();
  }

  /** With non-overlapping ranges, the first match is the only match. */
  lemma FirstCoveringUnique(ranges: seq<YearRange>, year: int, i: nat)
    requires RangesWellFormed(ranges)
    requires i < |ranges| && Covers(ranges[i], year)
    ensures FirstCovering(ranges, year) == i
  {
  }

  /** For a registered type, the range containing the year decides, in any order of the table. */
  lemma UniqueMatch(coinType: string, year: int, k: nat, i: nat)
    requires k < |YearBasedCompositions| && YearBasedCompositions[k].coinType == coinType
    requires i < |YearBasedCompositions[k].yearRanges| && Covers(YearBasedCompositions[k].yearRanges[i], year)
    ensures GetCompositionByYear(coinType, year) == (YearBasedCompositions[k].yearRanges[i].composition, true)
  {
    TableWellFormed();
    FirstCoveringUnique(YearBasedCompositions[k].yearRanges, year, i);
  }

  /** Washington quarters: 90% silver from 1932 to 1964, clad in every other year. */
  lemma WashingtonQuarterEras(year: int)
    ensures GetCompositionByYear("Washington Quarter", year).1
    ensures var c := GetCompositionByYear("Washington Quarter", year).0;
      if 1932 <= year <= 1964 then c.metalType == "silver" && c.weight == 0.18084 && c.purity == 90.0 && !c.isBaseMetal
      else c.metalType == "copper" && c.weight == 0.0 && !c.isBaseMetal
  {
    RuleAt(1, WashingtonQuarter);
    WashingtonQuarterResolve(year);
  }

  /** The rule set at position `k` of the table, found by its own name. */
  lemma RuleAt(k: nat, rule: YearBasedComposition)
    requires k < 8
    requires rule == [KennedyHalfDollar, WashingtonQuarter, RooseveltDime, JeffersonNickel,
                      LincolnCent, EisenhowerDollar, SusanBAnthonyDollar, SacagaweaDollar][k]
    ensures k < |YearBasedCompositions| && YearBasedCompositions[k] == rule
    ensures forall year :: GetCompositionByYear(rule.coinType, year) == (Resolve(rule, year), true)
  {
  }

  /** The Washington quarter rule set resolved directly; each era lemma pairs one of these with `RuleAt`. */
  lemma WashingtonQuarterResolve(year: int)
    ensures var c := Resolve(WashingtonQuarter, year);
      if 1932 <= year <= 1964 then c.metalType == "silver" && c.weight == 0.18084 && c.purity == 90.0 && !c.isBaseMetal
      else c.metalType == "copper" && c.weight == 0.0 && !c.isBaseMetal
  {
  }

  /**
   * Kennedy halves: 90% silver in 1964, 40% silver from 1965 to 1970, clad
   * otherwise, including years before the series began.
   */
  lemma KennedyHalfDollarEras(year: int)
    ensures GetCompositionByYear("Kennedy Half Dollar", year).1
    ensures var c := GetCompositionByYear("Kennedy Half Dollar", year).0;
      if year == 1964 then c.metalType == "silver" && c.weight == 0.36169 && c.purity == 90.0
      else if 1965 <= year <= 1970 then c.metalType == "silver" && c.weight == 0.14792 && c.purity == 40.0
      else c.metalType == "copper" && c.weight == 0.0 && !c.isBaseMetal
  {
    RuleAt(0, KennedyHalfDollar);
    KennedyHalfDollarResolve(year);
  }

  /** The Kennedy half dollar rule set resolved directly. */
  lemma KennedyHalfDollarResolve(year: int)
    ensures var c := Resolve(KennedyHalfDollar, year);
      if year == 1964 then c.metalType == "silver" && c.weight == 0.36169 && c.purity == 90.0
      else if 1965 <= year <= 1970 then c.metalType == "silver" && c.weight == 0.14792 && c.purity == 40.0
      else c.metalType == "copper" && c.weight == 0.0 && !c.isBaseMetal
  {
    var ranges := KennedyHalfDollar.yearRanges;
    if 1965 <= year <= 1970 {
      assert !Covers(ranges[0], year) && Covers(ranges[1], year);
    }
  }

  /** Roosevelt dimes: 90% silver from 1946 to 1964, clad otherwise. */
  lemma RooseveltDimeEras(year: int)
    ensures GetCompositionByYear("Roosevelt Dime", year).1
    ensures var c := GetCompositionByYear("Roosevelt Dime", year).0;
      if 1946 <= year <= 1964 then c.metalType == "silver" && c.weight == 0.07234 && c.purity == 90.0
      else c.metalType == "copper" && c.weight == 0.0 && !c.isBaseMetal
  {
    RuleAt(2, RooseveltDime);
    RooseveltDimeResolve(year);
  }

  /** The Roosevelt dime rule set resolved directly. */
  lemma RooseveltDimeResolve(year: int)
    ensures var c := Resolve(RooseveltDime, year);
      if 1946 <= year <= 1964 then c.metalType == "silver" && c.weight == 0.07234 && c.purity == 90.0
      else c.metalType == "copper" && c.weight == 0.0 && !c.isBaseMetal
  {
  }

  /**
   * Jefferson nickels: every coin from 1942 to 1945 is taken as the 35%
   * wartime silver alloy; any other year is the 5 g, 75/25 copper-nickel coin.
   */
  lemma JeffersonNickelEras(year: int)
    ensures GetCompositionByYear("Jefferson Nickel", year).1
    ensures var c := GetCompositionByYear("Jefferson Nickel", year).0;
      if 1942 <= year <= 1945 then c.metalType == "silver" && c.weight == 0.05626 && c.purity == 35.0
      else c.isBaseMetal && c.weightGrams == 5.0 && c.copperPercent == 75.0 && c.nickelPercent == 25.0
  {
    RuleAt(3, JeffersonNickel);
    JeffersonNickelResolve(year);
  }

  /** The Jefferson nickel rule set resolved directly. */
  lemma JeffersonNickelResolve(year: int)
    ensures var c := Resolve(JeffersonNickel, year);
      if 1942 <= year <= 1945 then c.metalType == "silver" && c.weight == 0.05626 && c.purity == 35.0
      else c.isBaseMetal && c.weightGrams == 5.0 && c.copperPercent == 75.0 && c.nickelPercent == 25.0
  {
  }

  /** Lincoln cents never carry precious metal, in any year. */
  lemma LincolnCentNeverPrecious(year: int)
    ensures GetCompositionByYear("Lincoln Cent", year).1
    ensures var c := GetCompositionByYear("Lincoln Cent", year).0;
      c.metalType == "copper" && c.weight == 0.0 && !c.isBaseMetal
  {
    RuleAt(4, LincolnCent);
    LincolnCentResolve(year);
  }

  /** The Lincoln cent rule set resolved directly. */
  lemma LincolnCentResolve(year: int)
    ensures var c := Resolve(LincolnCent, year);
      c.metalType == "copper" && c.weight == 0.0 && !c.isBaseMetal
  {
  }

  /** Eisenhower dollars: 40% silver from 1971 to 1976, clad otherwise. */
  lemma EisenhowerDollarEras(year: int)
    ensures GetCompositionByYear("Eisenhower Dollar", year).1
    ensures var c := GetCompositionByYear("Eisenhower Dollar", year).0;
      if 1971 <= year <= 1976 then c.metalType == "silver" && c.weight == 0.31625 && c.purity == 40.0
      else c.metalType == "copper" && c.weight == 0.0 && !c.isBaseMetal
  {
    RuleAt(5, EisenhowerDollar);
    EisenhowerDollarResolve(year);
  }

  /** The Eisenhower dollar rule set resolved directly. */
  lemma EisenhowerDollarResolve(year: int)
    ensures var c := Resolve(EisenhowerDollar, year);
      if 1971 <= year <= 1976 then c.metalType == "silver" && c.weight == 0.31625 && c.purity == 40.0
      else c.metalType == "copper" && c.weight == 0.0 && !c.isBaseMetal
  {
  }

  /** The two types without ranges always get their default, never not-found. */
  lemma DefaultOnlyTypes(year: int)
    ensures GetCompositionByYear("Susan B. Anthony Dollar", year) == (SusanBAnthonyDollar.defaultComp, true)
    ensures GetCompositionByYear("Sacagawea Dollar", year) == (SacagaweaDollar.defaultComp, true)
  {
    RuleAt(6, SusanBAnthonyDollar);
    RuleAt(7, SacagaweaDollar);
  }

  /**
   * Type matching is exact: a name carrying a year and mint mark skips the
   * year rules, and the catalog's 90% silver Kennedy entry is returned even
   * for a year in which the coin was clad.
   */
  lemma NoisyNameSkipsYearRules()
    ensures GetCompositionByYear("1964-D Kennedy Half Dollar", 1971)
            == (CommonCompositions["Kennedy Half Dollar"], true)
  {
    TitlesAreNotKeys();
    NotRegistered("1964-D Kennedy Half Dollar");
    NotACatalogKey("1964-D Kennedy Half Dollar");
    NormalizeMintMarkedKennedy();
    SilverKeysUnique();
    SilverListed("Kennedy Half Dollar");
  }

  /** Every registered type starts with a capital letter. */
  lemma NotRegistered(s: string)
    requires !CatalogKeyShape(s)
    ensures !Registered(s)
  {
    forall k | 0 <= k < |YearBasedCompositions|
      ensures YearBasedCompositions[k].coinType != s
    {
      assert CatalogKeyShape(YearBasedCompositions[k].coinType);
    }
  }
}

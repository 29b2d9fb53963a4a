/**
 * The composition catalog of compositions.go: a constant table from
 * canonical coin names to their metal content, and `GetComposition`, which
 * tries the name as given and then its normalised form.
 */
module Compositions {
  import opened Ascii
  import opened CoinName

  /**
   * `MetalComposition` without its free-text description. A precious-metal
   * coin carries `weight` (troy ounces of pure metal) and `purity`
   * (percent); a base-metal coin sets `isBaseMetal` and carries its total
   * mass in grams and its copper and nickel percentages. Omitted fields
   * take Go's zero values.
   */
  datatype MetalComposition = MetalComposition(
    name: string := "",
    metalType: string := "",
    weight: real := 0.0,
    purity: real := 0.0,
    isBaseMetal: bool := false,
    weightGrams: real := 0.0,
    copperPercent: real := 0.0,
    nickelPercent: real := 0.0)

  /** Go's zero value `MetalComposition{}`, returned with found = false. */
  const ZeroComposition: MetalComposition := MetalComposition()

  /** Dollars, half dollars, quarters and dimes (compositions.go lines 21-104). */
  const SilverCoins: map<string, MetalComposition> := map[
    "Morgan Dollar" :=
      MetalComposition(name := "Morgan Dollar", metalType := "silver", weight := 0.77344, purity := 90.0),
    "Peace Dollar" :=
      MetalComposition(name := "Peace Dollar", metalType := "silver", weight := 0.77344, purity := 90.0),
    "Eisenhower Dollar" :=
      MetalComposition(name := "Eisenhower Dollar", metalType := "copper"),
    "Walking Liberty Half Dollar" :=
      MetalComposition(name := "Walking Liberty Half Dollar", metalType := "silver", weight := 0.36169, purity := 90.0),
    "Franklin Half Dollar" :=
      MetalComposition(name := "Franklin Half Dollar", metalType := "silver", weight := 0.36169, purity := 90.0),
    "Kennedy Half Dollar" :=
      MetalComposition(name := "Kennedy Half Dollar (1964)", metalType := "silver", weight := 0.36169, purity := 90.0),
    "Washington Quarter" :=
      MetalComposition(name := "Washington Quarter (Pre-1965)", metalType := "silver", weight := 0.18084, purity := 90.0),
    "Standing Liberty Quarter" :=
      MetalComposition(name := "Standing Liberty Quarter", metalType := "silver", weight := 0.18084, purity := 90.0),
    "Mercury Dime" :=
      MetalComposition(name := "Mercury Dime", metalType := "silver", weight := 0.07234, purity := 90.0),
    "Roosevelt Dime" :=
      MetalComposition(name := "Roosevelt Dime (Pre-1965)", metalType := "silver", weight := 0.07234, purity := 90.0),
    "Barber Dime" :=
      MetalComposition(name := "Barber Dime", metalType := "silver", weight := 0.07234, purity := 90.0)
  ]

  /** Gold coins (compositions.go lines 106-197). */
  const GoldCoins: map<string, MetalComposition> := map[
    "American Gold Eagle (1 oz)" :=
      MetalComposition(name := "American Gold Eagle (1 oz)", metalType := "gold", weight := 1.0, purity := 91.67),
    "American Gold Eagle (1/2 oz)" :=
      MetalComposition(name := "American Gold Eagle (1/2 oz)", metalType := "gold", weight := 0.5, purity := 91.67),
    "American Gold Eagle (1/4 oz)" :=
      MetalComposition(name := "American Gold Eagle (1/4 oz)", metalType := "gold", weight := 0.25, purity := 91.67),
    "American Gold Eagle (1/10 oz)" :=
      MetalComposition(name := "American Gold Eagle (1/10 oz)", metalType := "gold", weight := 0.1, purity := 91.67),
    "$20 Liberty" :=
      MetalComposition(name := "$20 Liberty Gold Coin", metalType := "gold", weight := 0.96750, purity := 90.0),
    "$20 Saint Gaudens" :=
      MetalComposition(name := "$20 Saint Gaudens", metalType := "gold", weight := 0.96750, purity := 90.0),
    "$10 Liberty" :=
      MetalComposition(name := "$10 Liberty Gold Coin", metalType := "gold", weight := 0.48375, purity := 90.0),
    "$10 Indian" :=
      MetalComposition(name := "$10 Indian Gold Coin", metalType := "gold", weight := 0.48375, purity := 90.0),
    "$5 Liberty" :=
      MetalComposition(name := "$5 Liberty Gold Coin", metalType := "gold", weight := 0.24187, purity := 90.0),
    "$5 Indian" :=
      MetalComposition(name := "$5 Indian Gold Coin", metalType := "gold", weight := 0.24187, purity := 90.0),
    "$2.50 Liberty" :=
      MetalComposition(name := "$2.50 Liberty Gold Coin", metalType := "gold", weight := 0.12094, purity := 90.0),
    "$2.50 Indian" :=
      MetalComposition(name := "$2.50 Indian Gold Coin", metalType := "gold", weight := 0.12094, purity := 90.0),
    "$1 Liberty" :=
      MetalComposition(name := "$1 Liberty Gold Coin", metalType := "gold", weight := 0.04837, purity := 90.0)
  ]

  /** Nickels and cents (compositions.go lines 199-280). */
  const BaseMetalCoins: map<string, MetalComposition> := map[
    "Buffalo Nickel" :=
      MetalComposition(name := "Buffalo Nickel (1913-1938)", metalType := "copper", isBaseMetal := true, weightGrams := 5.0, copperPercent := 75.0, nickelPercent := 25.0),
    "Jefferson Nickel" :=
      MetalComposition(name := "Jefferson Nickel", metalType := "copper", isBaseMetal := true, weightGrams := 5.0, copperPercent := 75.0, nickelPercent := 25.0),
    "Jefferson Nickel (Wartime Silver)" :=
      MetalComposition(name := "Jefferson Nickel (1942-1945 Silver)", metalType := "silver", weight := 0.05626, purity := 35.0),
    "Liberty Nickel" :=
      MetalComposition(name := "Liberty Head Nickel (1883-1913)", metalType := "copper", isBaseMetal := true, weightGrams := 5.0, copperPercent := 75.0, nickelPercent := 25.0),
    "Shield Nickel" :=
      MetalComposition(name := "Shield Nickel (1866-1883)", metalType := "copper", isBaseMetal := true, weightGrams := 5.0, copperPercent := 75.0, nickelPercent := 25.0),
    "Indian Head Cent" :=
      MetalComposition(name := "Indian Head Cent", metalType := "copper"),
    "Lincoln Cent" :=
      MetalComposition(name := "Lincoln Cent (Pre-1982)", metalType := "copper"),
    "Wheat Penny" :=
      MetalComposition(name := "Wheat Penny (1909-1958)", metalType := "copper"),
    "Steel Penny" :=
      MetalComposition(name := "Steel Penny (1943)", metalType := "copper")
  ]

  /** Three cents, half dimes, quarters and half dollars (compositions.go lines 282-365). */
  const EarlySilverCoins: map<string, MetalComposition> := map[
    "Three Cent Silver" :=
      MetalComposition(name := "Three Cent Silver (Trime)", metalType := "silver", weight := 0.02419, purity := 75.0),
    "Seated Liberty Half Dime" :=
      MetalComposition(name := "Seated Liberty Half Dime", metalType := "silver", weight := 0.03617, purity := 90.0),
    "Bust Half Dime" :=
      MetalComposition(name := "Bust Half Dime", metalType := "silver", weight := 0.03617, purity := 89.24),
    "Barber Quarter" :=
      MetalComposition(name := "Barber Quarter", metalType := "silver", weight := 0.18084, purity := 90.0),
    "Seated Liberty Quarter" :=
      MetalComposition(name := "Seated Liberty Quarter", metalType := "silver", weight := 0.18084, purity := 90.0),
    "Draped Bust Quarter" :=
      MetalComposition(name := "Draped Bust Quarter", metalType := "silver", weight := 0.19285, purity := 89.24),
    "Capped Bust Quarter" :=
      MetalComposition(name := "Capped Bust Quarter", metalType := "silver", weight := 0.19285, purity := 89.24),
    "Barber Half Dollar" :=
      MetalComposition(name := "Barber Half Dollar", metalType := "silver", weight := 0.36169, purity := 90.0),
    "Seated Liberty Half Dollar" :=
      MetalComposition(name := "Seated Liberty Half Dollar", metalType := "silver", weight := 0.36169, purity := 90.0),
    "Capped Bust Half Dollar" :=
      MetalComposition(name := "Capped Bust Half Dollar", metalType := "silver", weight := 0.38570, purity := 89.24),
    "Draped Bust Half Dollar" :=
      MetalComposition(name := "Draped Bust Half Dollar", metalType := "silver", weight := 0.38570, purity := 89.24)
  ]

  /** Silver dollars and modern bullion (compositions.go lines 367-446). */
  const DollarsAndBullion: map<string, MetalComposition> := map[
    "Seated Liberty Dollar" :=
      MetalComposition(name := "Seated Liberty Dollar", metalType := "silver", weight := 0.77344, purity := 90.0),
    "Trade Dollar" :=
      MetalComposition(name := "Trade Dollar", metalType := "silver", weight := 0.78287, purity := 90.0),
    "Bust Dollar" :=
      MetalComposition(name := "Bust Dollar", metalType := "silver", weight := 0.77344, purity := 89.24),
    "American Silver Eagle" :=
      MetalComposition(name := "American Silver Eagle (1 oz)", metalType := "silver", weight := 1.0, purity := 99.9),
    "Canadian Maple Leaf (Gold)" :=
      MetalComposition(name := "Canadian Gold Maple Leaf (1 oz)", metalType := "gold", weight := 1.0, purity := 99.99),
    "Canadian Maple Leaf (Silver)" :=
      MetalComposition(name := "Canadian Silver Maple Leaf (1 oz)", metalType := "silver", weight := 1.0, purity := 99.99),
    "American Buffalo (Gold)" :=
      MetalComposition(name := "American Gold Buffalo (1 oz)", metalType := "gold", weight := 1.0, purity := 99.99),
    "Krugerrand" :=
      MetalComposition(name := "South African Krugerrand (1 oz)", metalType := "gold", weight := 1.0, purity := 91.67),
    "Vienna Philharmonic (Gold)" :=
      MetalComposition(name := "Austrian Gold Philharmonic (1 oz)", metalType := "gold", weight := 1.0, purity := 99.99),
    "Britannia (Gold)" :=
      MetalComposition(name := "British Gold Britannia (1 oz)", metalType := "gold", weight := 1.0, purity := 99.99),
    "Britannia (Silver)" :=
      MetalComposition(name := "British Silver Britannia (1 oz)", metalType := "silver", weight := 1.0, purity := 99.9)
  ]

  /** `CommonCompositions`: the union of the sections above (their keys are disjoint). */
  const CommonCompositions: map<string, MetalComposition> :=
    SilverCoins + GoldCoins + BaseMetalCoins + EarlySilverCoins + DollarsAndBullion

  /**
   * `GetComposition`: an exact key wins without normalisation; otherwise the
   * normalised name is looked up, but only if normalising changed it.
   * Found entries are always catalog values; a miss yields the zero value.
   */
  function GetComposition(coinType: string): (res: (MetalComposition, bool))
    ensures coinType in CommonCompositions ==> res == (CommonCompositions[coinType], true)
    ensures coinType !in CommonCompositions && NormalizeCoinType(coinType) in CommonCompositions
            ==> res == (CommonCompositions[NormalizeCoinType(coinType)], true)
    ensures res.1 <==> coinType in CommonCompositions || NormalizeCoinType(coinType) in CommonCompositions
    ensures !res.1 ==> res.0 == ZeroComposition
  {
    if coinType in CommonCompositions then
      (CommonCompositions[coinType], true)
    else
      var normalized := NormalizeCoinType(coinType);
      if normalized != coinType && normalized in CommonCompositions then
        (CommonCompositions[normalized], true)
      else
        (ZeroComposition, false)
  }

  /** `GetAllCompositions`: the whole catalog; every key in it is found as itself. */
  function GetAllCompositions(): (m: map<string, MetalComposition>)
    ensures forall k | k in m :: GetComposition(k) == (m[k], true)
    ensures forall k :: k in m <==> k in CommonCompositions
  {
    CommonCompositions
  }

  /**
   * The shape every catalog entry has: a base-metal entry is a 5 g
   * copper-nickel coin (non-negative percentages summing to 100) with no precious
   * content; any other entry is gold, silver or copper, gold and silver
   * with a positive weight and a purity in (0, 100], copper with neither,
   * and without gram or alloy data.
   */
  predicate CatalogEntryShape(c: MetalComposition) {
    if c.isBaseMetal then
      && c.metalType == "copper" && c.weight == 0.0 && c.purity == 0.0
      && c.weightGrams == 5.0 && c.copperPercent + c.nickelPercent == 100.0
      && c.copperPercent >= 0.0 && c.nickelPercent >= 0.0
    else
      && c.metalType in {"gold", "silver", "copper"}
      && (c.metalType in {"gold", "silver"} ==> c.weight > 0.0 && 0.0 < c.purity <= 100.0)
      && (c.metalType == "copper" ==> c.weight == 0.0 && c.purity == 0.0)
      && c.weightGrams == 0.0 && c.copperPercent == 0.0 && c.nickelPercent == 0.0
  }

  /** Every catalog name starts with a capital letter or a dollar sign. */
  predicate CatalogKeyShape(k: string) {
    |k| > 0 && (IsUpper(k[0]) || k[0] == '$')
  }

  /** Every key of a table has the catalog's key shape. */
  predicate KeysShaped(section: map<string, MetalComposition>) {
    forall k | k in section :: CatalogKeyShape(k)
  }

  /** Every entry of a table has the catalog's entry shape. */
  predicate EntriesShaped(section: map<string, MetalComposition>) {
    forall k | k in section :: CatalogEntryShape(section[k])
  }

  /** Every key and entry of a table has the catalog's shape. */
  predicate SectionShape(section: map<string, MetalComposition>) {
    KeysShaped(section) && EntriesShaped(section)
  }

  /** Key and entry shape per section, proved separately so that each literal map is unfolded on its own. */
  lemma SilverCoinsKeys() ensures KeysShaped(SilverCoins) {}
  lemma SilverCoinsEntries() ensures EntriesShaped(SilverCoins) {}
  lemma GoldCoinsKeys() ensures KeysShaped(GoldCoins) {}
  lemma GoldCoinsEntries() ensures EntriesShaped(GoldCoins) {}
  lemma BaseMetalCoinsKeys() ensures KeysShaped(BaseMetalCoins) {}
  lemma BaseMetalCoinsEntries() ensures EntriesShaped(BaseMetalCoins) {}
  lemma EarlySilverCoinsKeys() ensures KeysShaped(EarlySilverCoins) {}
  lemma EarlySilverCoinsEntries() ensures EntriesShaped(EarlySilverCoins) {}
  lemma DollarsAndBullionKeys() ensures KeysShaped(DollarsAndBullion) {}
  lemma DollarsAndBullionEntries() ensures EntriesShaped(DollarsAndBullion) {}

  /** Shape is preserved by map union. */
  lemma UnionShape(a: map<string, MetalComposition>, b: map<string, MetalComposition>)
    requires SectionShape(a) && SectionShape(b)
    ensures SectionShape(a + b)
  {
  }

  /** The whole catalog has the shape above. */
  lemma CatalogShape()
    ensures SectionShape(CommonCompositions)
  {
    SilverCoinsKeys();
    SilverCoinsEntries();
    GoldCoinsKeys();
    GoldCoinsEntries();
    BaseMetalCoinsKeys();
    BaseMetalCoinsEntries();
    EarlySilverCoinsKeys();
    EarlySilverCoinsEntries();
    DollarsAndBullionKeys();
    DollarsAndBullionEntries();
    UnionShape(SilverCoins, GoldCoins);
    UnionShape(SilverCoins + GoldCoins, BaseMetalCoins);
    UnionShape(SilverCoins + GoldCoins + BaseMetalCoins, EarlySilverCoins);
    UnionShape(SilverCoins + GoldCoins + BaseMetalCoins + EarlySilverCoins, DollarsAndBullion);
  }

  /** A name that does not have the shape of a catalog key is not in the catalog. */
  lemma NotACatalogKey(k: string)
    requires !CatalogKeyShape(k)
    ensures k !in CommonCompositions
  {
    CatalogShape();
  }

  /** A certification title resolves through its normalised name. */
  lemma LookupCertificationTitle()
    ensures GetComposition("1921-S Peace Dollar MS67") == (CommonCompositions["Peace Dollar"], true)
  {
    TitlesAreNotKeys();
    NotACatalogKey("1921-S Peace Dollar MS67");
    NormalizeCertificationTitle();
    SilverKeysUnique();
    SilverListed("Peace Dollar");
  }

  /** The example titles lack the catalog-key shape, so they are not keys. */
  lemma TitlesAreNotKeys()
    ensures !CatalogKeyShape("1921-S Peace Dollar MS67")
    ensures !CatalogKeyShape("1921 Morgan Dollar")
    ensures !CatalogKeyShape("organ Dollar")
    ensures !CatalogKeyShape("1964-D Kennedy Half Dollar")
  {
  }

  /** A year without a mint mark loses the name's first letter, so the lookup misses. */
  lemma LookupYearWithoutMintMarkMisses()
    ensures GetComposition("1921 Morgan Dollar") == (ZeroComposition, false)
  {
    TitlesAreNotKeys();
    NotACatalogKey("1921 Morgan Dollar");
    NotACatalogKey("organ Dollar");
    NormalizeYearWithoutMintMark();
  }

  /** A key that only the first of several joined tables holds keeps that table's entry. */
  lemma FirstTableLookup(k: string, a: map<string, MetalComposition>, b: map<string, MetalComposition>,
                         c: map<string, MetalComposition>, d: map<string, MetalComposition>,
                         e: map<string, MetalComposition>)
    requires k in a && k !in b && k !in c && k !in d && k !in e
    ensures k in a + b + c + d + e && (a + b + c + d + e)[k] == a[k]
  {
  }

  /** A key that only the third of several joined tables holds keeps that table's entry. */
  lemma ThirdTableLookup(k: string, a: map<string, MetalComposition>, b: map<string, MetalComposition>,
                         c: map<string, MetalComposition>, d: map<string, MetalComposition>,
                         e: map<string, MetalComposition>)
    requires k in c && k !in d && k !in e
    ensures k in a + b + c + d + e && (a + b + c + d + e)[k] == c[k]
  {
  }

  /** The silver-coin names the lemmas below look up, and the sections that do not repeat them. */
  lemma SilverKeys()
    ensures "Morgan Dollar" in SilverCoins && "Peace Dollar" in SilverCoins
    ensures "Kennedy Half Dollar" in SilverCoins
  {
  }

  lemma NotInGoldCoins()
    ensures "Morgan Dollar" !in GoldCoins && "Peace Dollar" !in GoldCoins
    ensures "Kennedy Half Dollar" !in GoldCoins
  {
  }

  lemma NotInBaseMetalCoins()
    ensures "Morgan Dollar" !in BaseMetalCoins && "Peace Dollar" !in BaseMetalCoins
    ensures "Kennedy Half Dollar" !in BaseMetalCoins
  {
  }

  lemma NotInEarlySilverCoins()
    ensures "Morgan Dollar" !in EarlySilverCoins && "Peace Dollar" !in EarlySilverCoins
    ensures "Kennedy Half Dollar" !in EarlySilverCoins && "Buffalo Nickel" !in EarlySilverCoins
  {
  }

  lemma NotInDollarsAndBullion()
    ensures "Morgan Dollar" !in DollarsAndBullion && "Peace Dollar" !in DollarsAndBullion
    ensures "Kennedy Half Dollar" !in DollarsAndBullion && "Buffalo Nickel" !in DollarsAndBullion
  {
  }

  /** `k` is a key of the silver section and of no other section. */
  predicate OnlyInSilverCoins(k: string) {
    k in SilverCoins && k !in GoldCoins && k !in BaseMetalCoins && k !in EarlySilverCoins && k !in DollarsAndBullion
  }

  /** A silver-section key that no other section repeats keeps its silver-section entry. */
  lemma SilverListed(k: string)
    requires OnlyInSilverCoins(k)
    ensures k in CommonCompositions && CommonCompositions[k] == SilverCoins[k]
  {
    FirstTableLookup(k, SilverCoins, GoldCoins, BaseMetalCoins, EarlySilverCoins, DollarsAndBullion);
  }

  /** The Morgan, Peace and Kennedy names occur in the silver section only. */
  lemma SilverKeysUnique()
    ensures OnlyInSilverCoins("Morgan Dollar")
    ensures OnlyInSilverCoins("Peace Dollar")
    ensures OnlyInSilverCoins("Kennedy Half Dollar")
  {
    SilverKeys();
    NotInGoldCoins();
    NotInBaseMetalCoins();
    NotInEarlySilverCoins();
    NotInDollarsAndBullion();
  }

  predicate PreciousEntry(c: MetalComposition, metal: string, weight: real, purity: real) {
    !c.isBaseMetal && c.metalType == metal && c.weight == weight && c.purity == purity
  }

  /** The Morgan dollar entry: 0.77344 oz of silver at 90%. */
  lemma MorganDollarEntry()
    ensures "Morgan Dollar" in CommonCompositions && PreciousEntry(CommonCompositions["Morgan Dollar"], "silver", 0.77344, 90.0)
  {
    SilverKeysUnique();
    SilverListed("Morgan Dollar");
    MorganDollarSilverEntry();
  }

  /** The Morgan dollar entry of the silver section. */
  lemma MorganDollarSilverEntry()
    ensures "Morgan Dollar" in SilverCoins && PreciousEntry(SilverCoins["Morgan Dollar"], "silver", 0.77344, 90.0)
  {
  }

  /** The Buffalo nickel entry: a 5 g coin of 75% copper and 25% nickel. */
  lemma BuffaloNickelEntry()
    ensures "Buffalo Nickel" in CommonCompositions
    ensures var c := CommonCompositions["Buffalo Nickel"];
      c.isBaseMetal && c.weightGrams == 5.0 && c.copperPercent == 75.0 && c.nickelPercent == 25.0
  {
    BuffaloNickelBaseEntry();
    NotInEarlySilverCoins();
    NotInDollarsAndBullion();
    ThirdTableLookup("Buffalo Nickel", SilverCoins, GoldCoins, BaseMetalCoins, EarlySilverCoins, DollarsAndBullion);
  }

  /** The Buffalo nickel entry of the base-metal section. */
  lemma BuffaloNickelBaseEntry()
    ensures "Buffalo Nickel" in BaseMetalCoins
    ensures var c := BaseMetalCoins["Buffalo Nickel"];
      c.isBaseMetal && c.weightGrams == 5.0 && c.copperPercent == 75.0 && c.nickelPercent == 25.0
  {
  }
}

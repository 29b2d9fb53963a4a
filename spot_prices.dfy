/**
 * The spot-price oracle and melt-value arithmetic of spotprices.go. The
 * package-level cache becomes a `SpotPriceCache` object; the clock is an
 * integer count of nanoseconds passed to each call, and the two price feeds
 * are passed in as already-decoded responses (or the transport/decoding
 * error that replaced them).
 */
module SpotPriceOracle {
  import opened Wrappers
  import opened Compositions
  import opened YearBased

  /** A price snapshot: precious metals in USD per troy ounce, copper and nickel in USD per pound. */
  datatype SpotPrices = SpotPrices(
    gold: real, silver: real, platinum: real, palladium: real,
    copper: real, nickel: real, updatedAt: int)

  /** Fifteen minutes, in nanoseconds. */
  const CacheDuration: int := 15 * 60 * 1_000_000_000

  /** The fixed prices served when both feeds fail. */
  function FallbackPrices(now: int): (p: SpotPrices)
    ensures p.gold == 2650.0 && p.silver == 30.50 && p.platinum == 950.0 && p.palladium == 950.0
    ensures p.copper == 5.52 && p.nickel == 6.96 && p.updatedAt == now
  {
    SpotPrices(2650.0, 30.50, 950.0, 950.0, 5.52, 6.96, now)
  }

  /** One entry of the goldprice.org `items` list. */
  datatype GoldPriceItem = GoldPriceItem(xauPrice: real, xagPrice: real)

  /** One record of the metals.live feed. */
  datatype MetalQuote = MetalQuote(metal: string, price: real)

  /**
   * The goldprice.org feed after decoding: only the first item counts, its
   * gold and silver prices must both be non-zero, and the other four prices
   * are fixed defaults.
   */
  function ParseGoldPriceOrg(response: Result<seq<GoldPriceItem>, string>, now: int): (r: Result<SpotPrices, string>)
    ensures r.Success? <==> (response.Success? && |response.value| > 0
                             && response.value[0].xauPrice != 0.0 && response.value[0].xagPrice != 0.0)
    ensures r.Success? ==> r.value == SpotPrices(response.value[0].xauPrice, response.value[0].xagPrice,
                                                 950.0, 950.0, 5.52, 6.96, now)
    ensures response.Failure? ==> r == Failure(response.error)
    ensures response.Success? && |response.value| == 0 ==> r == Failure("no items in goldprice.org response")
  {
    match response
    case Failure(e) => Failure(e)
    case Success(items) =>
      if |items| == 0 then Failure("no items in goldprice.org response")
      else
        var gold := items[0].xauPrice;
        var silver := items[0].xagPrice;
        if gold == 0.0 || silver == 0.0 then Failure("invalid price data from goldprice.org")
        else Success(SpotPrices(gold, silver, 950.0, 950.0, 5.52, 6.96, now))
  }

  /** Items after the first never change the goldprice.org outcome. */
  lemma GoldPriceOrgUsesFirstItem(items: seq<GoldPriceItem>, now: int)
    requires |items| > 0
    ensures ParseGoldPriceOrg(Success(items), now) == ParseGoldPriceOrg(Success(items[..1]), now)
  {
  }

  /** The price of the last record named `metal`, or 0 when there is none. */
  function LastQuote(quotes: seq<MetalQuote>, metal: string): (price: real)
  {
    if |quotes| == 0 then 0.0
    else if quotes[|quotes| - 1].metal == metal then quotes[|quotes| - 1].price
    else LastQuote(quotes[..|quotes| - 1], metal)
  }

  /** The last record for a metal wins over every earlier one. */
  lemma {:induction false} LastQuoteLastRecordWins(quotes: seq<MetalQuote>, metal: string, i: nat)
    requires i < |quotes| && quotes[i].metal == metal
    requires forall j | i < j < |quotes| :: quotes[j].metal != metal
    ensures LastQuote(quotes, metal) == quotes[i].price
    decreases |quotes|
  {
    if i < |quotes| - 1 {
      LastQuoteLastRecordWins(quotes[..|quotes| - 1], metal, i);
    }
  }

  /** A metal no record names keeps the zero price. */
  lemma {:induction false} LastQuoteUnseen(quotes: seq<MetalQuote>, metal: string)
    requires forall j | 0 <= j < |quotes| :: quotes[j].metal != metal
    ensures LastQuote(quotes, metal) == 0.0
    decreases |quotes|
  {
    if |quotes| > 0 {
      LastQuoteUnseen(quotes[..|quotes| - 1], metal);
    }
  }

  /** The snapshot the metals.live records fold into, before the gold/silver check. */
  function MetalsLivePrices(quotes: seq<MetalQuote>, now: int): (p: SpotPrices) {
    SpotPrices(
      LastQuote(quotes, "gold"), LastQuote(quotes, "silver"),
      LastQuote(quotes, "platinum"), LastQuote(quotes, "palladium"),
      LastQuote(quotes, "copper"), LastQuote(quotes, "nickel"), now)
  }

  predicate KnownMetal(metal: string) {
    metal in {"gold", "silver", "platinum", "palladium", "copper", "nickel"}
  }

  /** A record with a name outside the six metals changes nothing. */
  lemma MetalsLiveIgnoresUnknown(quotes: seq<MetalQuote>, q: MetalQuote, now: int)
    requires !KnownMetal(q.metal)
    ensures MetalsLivePrices(quotes + [q], now) == MetalsLivePrices(quotes, now)
  {
    assert (quotes + [q])[..|quotes|] == quotes;
  }

  /** The metals.live feed after decoding: it fails exactly when the folded gold or silver is 0. */
  function ParseMetalsLive(response: Result<seq<MetalQuote>, string>, now: int): (r: Result<SpotPrices, string>)
    ensures r.Success? <==> (response.Success?
                             && MetalsLivePrices(response.value, now).gold != 0.0
                             && MetalsLivePrices(response.value, now).silver != 0.0)
    ensures r.Success? ==> r.value == MetalsLivePrices(response.value, now)
    ensures response.Success? && r.Failure? ==> r.error == "incomplete price data"
    ensures response.Failure? ==> r == Failure(response.error)
  {
    match response
    case Failure(e) => Failure(e)
    case Success(quotes) =>
      var prices := MetalsLivePrices(quotes, now);
      if prices.gold == 0.0 || prices.silver == 0.0 then Failure("incomplete price data")
      else Success(prices)
  }

  /** `fetchMetalsLive`'s post-decoding loop: fold the records into one snapshot, field by field. */
  method FetchMetalsLive(response: Result<seq<MetalQuote>, string>, now: int) returns (r: Result<SpotPrices, string>)
    ensures r == ParseMetalsLive(response, now)
  {
    if response.Failure? {
      return Failure(response.error);
    }
    var quotes := response.value;
    var prices := SpotPrices(0.0, 0.0, 0.0, 0.0, 0.0, 0.0, now);
    for i := 0 to |quotes|
      invariant prices == MetalsLivePrices(quotes[..i], now)
    {
      var item := quotes[i];
      assert quotes[..i + 1][..i] == quotes[..i];
      if item.metal == "gold" {
        prices := prices.(gold := item.price);
      } else if item.metal == "silver" {
        prices := prices.(silver := item.price);
      } else if item.metal == "platinum" {
        prices := prices.(platinum := item.price);
      } else if item.metal == "palladium" {
        prices := prices.(palladium := item.price);
      } else if item.metal == "copper" {
        prices := prices.(copper := item.price);
      } else if item.metal == "nickel" {
        prices := prices.(nickel := item.price);
      }
    }
    assert quotes[..|quotes|] == quotes;
    if prices.gold == 0.0 || prices.silver == 0.0 {
      return Failure("incomplete price data");
    }
    return Success(prices);
  }

  /**
   * The ordered choice of `fetchRealPrices`: goldprice.org when it
   * succeeds, otherwise metals.live, failing only when both fail.
   */
  function RealPrices(goldPrice: Result<seq<GoldPriceItem>, string>, metalsLive: Result<seq<MetalQuote>, string>,
                      now: int): (r: Result<SpotPrices, string>)
    ensures ParseGoldPriceOrg(goldPrice, now).Success? ==> r == ParseGoldPriceOrg(goldPrice, now)
    ensures ParseGoldPriceOrg(goldPrice, now).Failure? && ParseMetalsLive(metalsLive, now).Success?
            ==> r == ParseMetalsLive(metalsLive, now)
    ensures r.Failure? <==> ParseGoldPriceOrg(goldPrice, now).Failure? && ParseMetalsLive(metalsLive, now).Failure?
    ensures r.Failure? ==> r.error == "all price sources failed"
  {
    var first := ParseGoldPriceOrg(goldPrice, now);
    if first.Success? then first
    else
      var second := ParseMetalsLive(metalsLive, now);
      if second.Success? then second
      else Failure("all price sources failed")
  }

  /** `fetchRealPrices`: metals.live is consulted only after goldprice.org has failed. */
  method FetchRealPrices(goldPrice: Result<seq<GoldPriceItem>, string>, metalsLive: Result<seq<MetalQuote>, string>,
                         now: int) returns (r: Result<SpotPrices, string>)
    ensures r == RealPrices(goldPrice, metalsLive, now)
  {
    r := ParseGoldPriceOrg(goldPrice, now);
    if r.Success? {
      return;
    }
    r := FetchMetalsLive(metalsLive, now);
    if r.Success? {
      return;
    }
    r := Failure("all price sources failed");
  }

  /**
   * The snapshot a refresh installs: the live prices when a feed succeeds,
   * the fixed fallback otherwise. Either way gold and silver are non-zero.
   */
  function Refreshed(goldPrice: Result<seq<GoldPriceItem>, string>, metalsLive: Result<seq<MetalQuote>, string>,
                     now: int): (p: SpotPrices)
    ensures RealPrices(goldPrice, metalsLive, now).Success? ==> p == RealPrices(goldPrice, metalsLive, now).value
    ensures RealPrices(goldPrice, metalsLive, now).Failure? ==> p == FallbackPrices(now)
    ensures p.gold != 0.0 && p.silver != 0.0
  {
    match RealPrices(goldPrice, metalsLive, now)
    case Success(live) => live
    case Failure(_) => FallbackPrices(now)
  }

  /** A cached snapshot is served while it is strictly younger than `CacheDuration`. */
  predicate IsFresh(cached: Option<SpotPrices>, lastFetchTime: int, now: int) {
    cached.Some? && now - lastFetchTime < CacheDuration
  }

  /** The boundary refreshes: one nanosecond before it the cache is served, at it a refresh is made. */
  lemma CacheBoundary(p: SpotPrices, t: int)
    ensures IsFresh(Some(p), t, t + CacheDuration - 1)
    ensures !IsFresh(Some(p), t, t + CacheDuration)
    ensures !IsFresh(None, t, t)
  {
  }

  /**
   * `CalculateMeltValue` on a given snapshot: a precious metal is priced by
   * pure weight (weight times purity percent) times its price per ounce;
   * copper and nickel are worth 0 on this path; any other name is an error.
   */
  function MeltValueAt(p: SpotPrices, metalType: string, weight: real, purity: real): (r: Result<real, string>)
    ensures r.Success? <==> KnownMetal(metalType)
    ensures r.Failure? ==> r.error == "unsupported metal type: " + metalType
    ensures metalType == "copper" || metalType == "nickel" ==> r == Success(0.0)
    ensures metalType == "gold" ==> r.Success? && r.value == weight * (purity / 100.0) * p.gold
    ensures metalType == "silver" ==> r.Success? && r.value == weight * (purity / 100.0) * p.silver
    ensures metalType == "platinum" ==> r.Success? && r.value == weight * (purity / 100.0) * p.platinum
    ensures metalType == "palladium" ==> r.Success? && r.value == weight * (purity / 100.0) * p.palladium
  {
    var pureWeight := weight * (purity / 100.0);
    if metalType == "gold" then Success(pureWeight * p.gold)
    else if metalType == "silver" then Success(pureWeight * p.silver)
    else if metalType == "platinum" then Success(pureWeight * p.platinum)
    else if metalType == "palladium" then Success(pureWeight * p.palladium)
    else if metalType == "copper" || metalType == "nickel" then Success(0.0)
    else Failure("unsupported metal type: " + metalType)
  }

  predicate NonNegativePrices(p: SpotPrices) {
    p.gold >= 0.0 && p.silver >= 0.0 && p.platinum >= 0.0 && p.palladium >= 0.0
    && p.copper >= 0.0 && p.nickel >= 0.0
  }

  /** Melt value is never negative when the weight, purity and prices are not. */
  lemma MeltValueNonNegative(p: SpotPrices, metalType: string, weight: real, purity: real)
    requires NonNegativePrices(p) && weight >= 0.0 && purity >= 0.0
    requires KnownMetal(metalType)
    ensures MeltValueAt(p, metalType, weight, purity).value >= 0.0
  {
  }

  /** Grams per avoirdupois pound. */
  const GramsPerPound: real := 453.592

  /**
   * `CalculateBaseMeltValue` on a given snapshot: the coin's mass in pounds
   * times each metal's share times its price per pound.
   */
  function BaseMeltValueAt(p: SpotPrices, weightGrams: real, copperPercent: real, nickelPercent: real): (v: real)
    ensures v == weightGrams / GramsPerPound * (copperPercent / 100.0 * p.copper + nickelPercent / 100.0 * p.nickel)
  {
    var weightPounds := weightGrams / GramsPerPound;
    var copperValue := weightPounds * (copperPercent / 100.0) * p.copper;
    var nickelValue := weightPounds * (nickelPercent / 100.0) * p.nickel;
    copperValue + nickelValue
  }

  /** Base-metal melt value is never negative when mass, shares and prices are not. */
  lemma BaseMeltValueNonNegative(p: SpotPrices, weightGrams: real, copperPercent: real, nickelPercent: real)
    requires NonNegativePrices(p) && weightGrams >= 0.0 && copperPercent >= 0.0 && nickelPercent >= 0.0
    ensures BaseMeltValueAt(p, weightGrams, copperPercent, nickelPercent) >= 0.0
  {
    var pounds := weightGrams / GramsPerPound;
    assert pounds >= 0.0;
    var share := copperPercent / 100.0 * p.copper + nickelPercent / 100.0 * p.nickel;
    assert share >= 0.0;
  }

  /** `CalculateMeltValueFromComposition` on a given snapshot: the base-metal formula iff `isBaseMetal`. */
  function MeltValueFromCompositionAt(p: SpotPrices, comp: MetalComposition): (r: Result<real, string>)
    ensures comp.isBaseMetal ==> r == Success(BaseMeltValueAt(p, comp.weightGrams, comp.copperPercent, comp.nickelPercent))
    ensures !comp.isBaseMetal ==> r == MeltValueAt(p, comp.metalType, comp.weight, comp.purity)
  {
    if comp.isBaseMetal then Success(BaseMeltValueAt(p, comp.weightGrams, comp.copperPercent, comp.nickelPercent))
    else MeltValueAt(p, comp.metalType, comp.weight, comp.purity)
  }

  /** An entry of the catalog's shape prices without error, and at no less than 0 under non-negative prices. */
  lemma ShapedEntryMeltValue(p: SpotPrices, c: MetalComposition)
    requires CatalogEntryShape(c)
    ensures MeltValueFromCompositionAt(p, c).Success?
    ensures NonNegativePrices(p) ==> MeltValueFromCompositionAt(p, c).value >= 0.0
  {
    if NonNegativePrices(p) {
      if c.isBaseMetal {
        BaseMeltValueNonNegative(p, c.weightGrams, c.copperPercent, c.nickelPercent);
      } else {
        MeltValueNonNegative(p, c.metalType, c.weight, c.purity);
      }
    }
  }

  /** Every catalog entry prices without error, and at no less than 0 under non-negative prices. */
  lemma CatalogMeltValues(p: SpotPrices, k: string)
    requires k in CommonCompositions
    ensures MeltValueFromCompositionAt(p, CommonCompositions[k]).Success?
    ensures NonNegativePrices(p) ==> MeltValueFromCompositionAt(p, CommonCompositions[k]).value >= 0.0
  {
    CatalogShape();
    ShapedEntryMeltValue(p, CommonCompositions[k]);
  }

  /** A Morgan dollar at $30.00 silver: 0.77344 oz times 90% times 30. */
  lemma MorganDollarMeltValue(p: SpotPrices)
    requires p.silver == 30.0
    ensures MeltValueFromCompositionAt(p, CommonCompositions["Morgan Dollar"]) == Success(20.88288)
  {
    MorganDollarEntry();
  }

  /** A 1964 Washington quarter carries melt value; a 1965 one melts for exactly 0. */
  lemma WashingtonQuarterTransition(p: SpotPrices)
    requires p.silver == 30.0
    ensures MeltValueFromCompositionAt(p, GetCompositionByYear("Washington Quarter", 1964).0) == Success(4.88268)
    ensures MeltValueFromCompositionAt(p, GetCompositionByYear("Washington Quarter", 1965).0) == Success(0.0)
  {
    WashingtonQuarterEras(1964);
    WashingtonQuarterEras(1965);
    PreWarQuarterSilver(p, GetCompositionByYear("Washington Quarter", 1964).0);
    CopperSentinelIsZero(p, GetCompositionByYear("Washington Quarter", 1965).0);
  }

  lemma PreWarQuarterSilver(p: SpotPrices, c: MetalComposition)
    requires p.silver == 30.0
    requires c.metalType == "silver" && c.weight == 0.18084 && c.purity == 90.0 && !c.isBaseMetal
    ensures MeltValueFromCompositionAt(p, c) == Success(4.88268)
  {
  }

  /** A copper entry that is not flagged base metal is worth exactly 0. */
  lemma CopperSentinelIsZero(p: SpotPrices, comp: MetalComposition)
    requires !comp.isBaseMetal && comp.metalType == "copper"
    ensures MeltValueFromCompositionAt(p, comp) == Success(0.0)
  {
  }

  /** A 5 g, 75/25 copper-nickel coin at $5.52 and $6.96 per pound melts for about 6.5 cents. */
  lemma FiveGramNickelMeltValue(p: SpotPrices)
    requires p.copper == 5.52 && p.nickel == 6.96
    ensures BaseMeltValueAt(p, 5.0, 75.0, 25.0) == 29.4 / 453.592
    ensures 0.064 < BaseMeltValueAt(p, 5.0, 75.0, 25.0) < 0.065
  {
  }

  /** A Buffalo nickel at the fallback base-metal prices melts for about 6.5 cents. */
  lemma BuffaloNickelMeltValue(p: SpotPrices)
    requires p.copper == 5.52 && p.nickel == 6.96
    ensures MeltValueFromCompositionAt(p, CommonCompositions["Buffalo Nickel"]) == Success(29.4 / 453.592)
  {
    BuffaloNickelEntry();
    FiveGramNickelMeltValue(p);
  }

  /** The cache shared by every price lookup. */
  class SpotPriceCache {
    var cachedPrices: Option<SpotPrices>
    var lastFetchTime: int

    /** The empty cache: no snapshot, and the zero time. */
    constructor()
      ensures cachedPrices == None && lastFetchTime == 0
    {
      cachedPrices := None;
      lastFetchTime := 0;
    }

    /** The snapshot `GetSpotPrices` returns at `now` given these feed responses. */
    function Snapshot(now: int, goldPrice: Result<seq<GoldPriceItem>, string>,
                      metalsLive: Result<seq<MetalQuote>, string>): (p: SpotPrices)
      reads this
    {
      if IsFresh(cachedPrices, lastFetchTime, now) then cachedPrices.value
      else Refreshed(goldPrice, metalsLive, now)
    }

    /**
     * `GetSpotPrices`: a fresh cache is returned untouched; otherwise the
     * feeds (or the fallback) are installed with `lastFetchTime := now`.
     * Afterwards the cache always holds the returned snapshot.
     */
    method GetSpotPrices(now: int, goldPrice: Result<seq<GoldPriceItem>, string>,
                         metalsLive: Result<seq<MetalQuote>, string>) returns (prices: SpotPrices)
      modifies this
      ensures prices == old(Snapshot(now, goldPrice, metalsLive))
      ensures cachedPrices == Some(prices)
      ensures old(IsFresh(cachedPrices, lastFetchTime, now)) ==> lastFetchTime == old(lastFetchTime)
      ensures !old(IsFresh(cachedPrices, lastFetchTime, now)) ==> lastFetchTime == now
    {
      if cachedPrices.Some? && now - lastFetchTime < CacheDuration {
        return cachedPrices.value;
      }
      var realPrices := FetchRealPrices(goldPrice, metalsLive, now);
      if realPrices.Success? {
        cachedPrices := Some(realPrices.value);
        lastFetchTime := now;
        return realPrices.value;
      }
      prices := FallbackPrices(now);
      cachedPrices := Some(prices);
      lastFetchTime := now;
    }

    /** `UpdateSpotPricesManually`: install the given precious prices with the default base-metal prices. */
    method UpdateSpotPricesManually(gold: real, silver: real, platinum: real, palladium: real, now: int)
      modifies this
      ensures cachedPrices == Some(SpotPrices(gold, silver, platinum, palladium, 5.52, 6.96, now))
      ensures lastFetchTime == now
    {
      cachedPrices := Some(SpotPrices(gold, silver, platinum, palladium, 5.52, 6.96, now));
      lastFetchTime := now;
    }

    /** `CalculateMeltValue`: fetch the snapshot, then price the metal on it. */
    method CalculateMeltValue(metalType: string, weight: real, purity: real, now: int,
                              goldPrice: Result<seq<GoldPriceItem>, string>,
                              metalsLive: Result<seq<MetalQuote>, string>) returns (r: Result<real, string>)
      modifies this
      ensures r == MeltValueAt(old(Snapshot(now, goldPrice, metalsLive)), metalType, weight, purity)
      ensures cachedPrices == Some(old(Snapshot(now, goldPrice, metalsLive)))
      ensures old(IsFresh(cachedPrices, lastFetchTime, now)) ==> lastFetchTime == old(lastFetchTime)
      ensures !old(IsFresh(cachedPrices, lastFetchTime, now)) ==> lastFetchTime == now
    {
      var prices := GetSpotPrices(now, goldPrice, metalsLive);
      r := MeltValueAt(prices, metalType, weight, purity);
    }

    /** `CalculateBaseMeltValue`: fetch the snapshot, then apply the base-metal formula. */
    method CalculateBaseMeltValue(weightGrams: real, copperPercent: real, nickelPercent: real, now: int,
                                  goldPrice: Result<seq<GoldPriceItem>, string>,
                                  metalsLive: Result<seq<MetalQuote>, string>) returns (v: real)
      modifies this
      ensures v == BaseMeltValueAt(old(Snapshot(now, goldPrice, metalsLive)), weightGrams, copperPercent, nickelPercent)
      ensures cachedPrices == Some(old(Snapshot(now, goldPrice, metalsLive)))
      ensures old(IsFresh(cachedPrices, lastFetchTime, now)) ==> lastFetchTime == old(lastFetchTime)
      ensures !old(IsFresh(cachedPrices, lastFetchTime, now)) ==> lastFetchTime == now
    {
      var prices := GetSpotPrices(now, goldPrice, metalsLive);
      v := BaseMeltValueAt(prices, weightGrams, copperPercent, nickelPercent);
    }

    /** `CalculateMeltValueFromComposition`: dispatch on `isBaseMetal`. */
    method CalculateMeltValueFromComposition(comp: MetalComposition, now: int,
                                             goldPrice: Result<seq<GoldPriceItem>, string>,
                                             metalsLive: Result<seq<MetalQuote>, string>) returns (r: Result<real, string>)
      modifies this
      ensures r == MeltValueFromCompositionAt(old(Snapshot(now, goldPrice, metalsLive)), comp)
      ensures cachedPrices == Some(old(Snapshot(now, goldPrice, metalsLive)))
      ensures old(IsFresh(cachedPrices, lastFetchTime, now)) ==> lastFetchTime == old(lastFetchTime)
      ensures !old(IsFresh(cachedPrices, lastFetchTime, now)) ==> lastFetchTime == now
    {
      if comp.isBaseMetal {
        var v := CalculateBaseMeltValue(comp.weightGrams, comp.copperPercent, comp.nickelPercent, now, goldPrice, metalsLive);
        r := Success(v);
      } else {
        r := CalculateMeltValue(comp.metalType, comp.weight, comp.purity, now, goldPrice, metalsLive);
      }
    }
  }

  /**
   * A manual override is what every lookup within the next fifteen minutes
   * sees, whatever the feeds would say.
   */
  method ManualOverrideIsServed(cache: SpotPriceCache, gold: real, silver: real, platinum: real, palladium: real,
                                t: int, later: int, goldPrice: Result<seq<GoldPriceItem>, string>,
                                metalsLive: Result<seq<MetalQuote>, string>) returns (prices: SpotPrices)
    requires later - t < CacheDuration
    modifies cache
    ensures prices == SpotPrices(gold, silver, platinum, palladium, 5.52, 6.96, t)
    ensures cache.cachedPrices == Some(prices) && cache.lastFetchTime == t
  {
    cache.UpdateSpotPricesManually(gold, silver, platinum, palladium, t);
    prices := cache.GetSpotPrices(later, goldPrice, metalsLive);
  }

  /** With both feeds down, a stale or empty cache is refilled with the fallback snapshot. */
  method BothFeedsDown(cache: SpotPriceCache, now: int, goldError: string, metalsError: string)
      returns (prices: SpotPrices)
    requires !IsFresh(cache.cachedPrices, cache.lastFetchTime, now)
    modifies cache
    ensures prices == FallbackPrices(now)
    ensures cache.cachedPrices == Some(prices) && cache.lastFetchTime == now
  {
    prices := cache.GetSpotPrices(now, Failure(goldError), Failure(metalsError));
  }
}

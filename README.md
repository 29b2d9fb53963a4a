# Coin valuation engine — a Dafny model

This project models the valuation core of a coin-collection service. The core has four parts.

- **Composition catalog** (`compositions.go`). A constant table maps canonical coin names to their metal content. `GetComposition` first tries the name as given. If that misses, it strips a leading year/mint-mark token and a trailing grade token, then tries again.
- **Year-range resolver** (`year_based_compositions.go`). Some coin types changed alloy over time. For these, an ordered rule table gives the composition for a year: the first range that contains the year, else the type's default. Every other type falls back to the catalog.
- **Spot-price oracle and melt arithmetic** (`spotprices.go`).
  - A price cache with a 15-minute lifetime.
  - An ordered choice between two price feeds, then fixed fallback prices.
  - A manual override.
  - The precious-metal formula: ounces × purity × price per ounce.
  - The base-metal formula: grams → pounds × alloy share × price per pound.
- **OCR year extractor and coin-detail rules** (`coin_classifier.py`, in the image service).
  - A three-tier year parser for OCR text.
  - The detail record built for a coin key and year.
  - The minimum value the hybrid classifier sets for pre-1965 silver coins.

## Files

- `wrappers.dfy`: the `Option` and `Result` types.
- `ascii.dfy`: ASCII character classes and the string operations the source uses.
  - Character classes: Go's `\s`, `\d` and `[A-Z]`, and Python's word characters.
  - Python's `upper`, `lower`, single-character `replace`, and substring `in`.
- `coin_name.dfy`: the two regular expressions of `normalizeCoinType`.
  - Each is written as an explicit scanner.
  - Each is proved to find the match Go's leftmost-first engine finds.
- `compositions.dfy`: the catalog and `GetComposition`.
- `year_based.dfy`: the rule table and `GetCompositionByYear`.
- `spot_prices.dfy`: the feed parsing, the cache class and the melt formulas.
- `coin_classifier.dfy`: `extract_year_from_ocr`, `get_coin_details` and the value floor of `classify_coin_hybrid`.

## Modelling notes

- **Time and fetching.** Time is an integer count of nanoseconds, passed to each call. Each price feed is passed in already decoded: the list of items or records it returned, or the error message that replaced them.
- **Arithmetic.** Prices and weights are `real`, so rounding is not modelled.
- **Regular expressions.**
  - Go's `^\d{4}[-\s]?[A-Z]?\s*` takes the longest prefix it can: `CoinName.YearPrefixLength` is proved to return that longest prefix.
  - Go's `\s+[A-Z]{2}\d+[A-Z]*$` removes the suffix that starts at the leftmost position where a match begins. `CoinName.GradeSuffixStart` is proved to return that position.
  - Python's `re.search` with `\b` becomes `CoinClassifier.Search`: the leftmost position where the pattern matches.
- **Where the system's written specification and the code disagree, the model follows the code.**
  - The grade token takes exactly two capitals in the code (`[A-Z]{2}`), not two to four. A three-letter grade such as `PRF70` is therefore kept.
  - The specification says normalising twice gives the same result as normalising once. The code does not: each pass removes one grade token (`CoinName.NormalizeNotIdempotent`).
  - The specification has `GetCompositionByYear` skip the rules when the year is not positive. The code checks no such thing; that check is made by its callers in the HTTP handlers. The resolver here treats every integer year alike.
  - The specification has an unsupported metal type price at 0. The code returns an error `unsupported metal type: <name>`, and `SpotPriceOracle.MeltValueAt` does the same.
- **Year with no mint mark.** When the year has no mint mark, `[A-Z]?` consumes the first capital of the coin name. So `"1921 Morgan Dollar"` normalises to `"organ Dollar"` and the catalog lookup misses. The model keeps this behaviour and states it as lemmas.
- **Purity is applied to the catalog weight.** The catalog comment calls `Weight` "troy ounces of pure silver", yet the melt formula multiplies it by purity again. The model follows the formula as written, so a Morgan dollar at $30 silver gives 20.88288.

## Model

| member | source | states |
|---|---|---|
| Ascii.UpperCase | image-service/app/coin_classifier.py:188 | Python `str.upper()` on ASCII text: same length, each letter upper-cased |
| Ascii.LowerCase | image-service/app/coin_classifier.py:258 | Python `str.lower()` on ASCII text: same length, each letter lower-cased |
| Ascii.ReplaceChar | image-service/app/coin_classifier.py:201 | Python `str.replace` of one character: same length; every occurrence of `from` becomes `to`, every other character is kept |
| Ascii.Contains | image-service/app/coin_classifier.py:268 | Python substring `t in s`: true exactly when `t` occurs in `s` at some index |
| CoinName.YearPrefixLength | backend/internal/metals/compositions.go:472 | the part `^\d{4}[-\s]?[A-Z]?\s*` removes: 0 when no prefix of the name matches, otherwise the longest matching prefix |
| CoinName.GradeSuffixStart | backend/internal/metals/compositions.go:474 | where `\s+[A-Z]{2}\d+[A-Z]*$` starts matching: the suffix from there is spaces, two capitals, digits, capitals to the end; no earlier position starts a match; the length when none does |
| CoinName.NormalizeCoinType | backend/internal/metals/compositions.go:470-476 | never lengthens the name; a name with neither a year prefix nor a grade suffix comes back unchanged |
| CoinName.NoYearPrefix | backend/internal/metals/compositions.go:472 | a name that does not open with a digit loses no prefix |
| CoinName.SevenCharYearPrefix | backend/internal/metals/compositions.go:472 | four digits, a dash or space, a capital and one space before a non-space: exactly those seven characters are removed |
| CoinName.SixCharYearPrefix | backend/internal/metals/compositions.go:472 | four digits, a dash or space and a capital before a non-space: the capital is removed with the year |
| CoinName.NoGradeSuffix | backend/internal/metals/compositions.go:474 | a name ending in neither a capital nor a digit loses no suffix |
| CoinName.OneSpaceGradeSuffix | backend/internal/metals/compositions.go:474 | one space, two capitals, digits and trailing capitals after a non-space: the suffix removed starts at that space |
| CoinName.ThreeCapitalsNoGradeSuffix | backend/internal/metals/compositions.go:474 | three capitals before the trailing digits: no suffix is removed |
| CoinName.NormalizeCertificationTitle | backend/internal/metals/compositions.go:456-458 | "1921-S Peace Dollar MS67" normalises to "Peace Dollar" |
| CoinName.NormalizeGradeWithDesignation | backend/internal/metals/compositions.go:473-474 | letters after the grade number go with the grade: "Peace Dollar PR70DCAM" becomes "Peace Dollar" |
| CoinName.NormalizeKeepsThreeLetterGrade | backend/internal/metals/compositions.go:474 | a grade token with three capitals is not removed: "Morgan Dollar PRF70" is unchanged |
| CoinName.NormalizeYearWithoutMintMark | backend/internal/metals/compositions.go:472 | with no mint mark, the optional capital takes the name's first letter: "1921 Morgan Dollar" becomes "organ Dollar" |
| CoinName.NormalizeNotIdempotent | backend/internal/metals/compositions.go:474 | one pass removes one grade token: "X AB1 CD2" becomes "X AB1", then "X" |
| CoinName.NormalizeMintMarkedKennedy | backend/internal/metals/compositions.go:472-474 | "1964-D Kennedy Half Dollar" normalises to "Kennedy Half Dollar" |
| Compositions.GetComposition | backend/internal/metals/compositions.go:449-467 | an exact key returns its entry and is found; otherwise the normalised name's entry, if any; found exactly when one of the two names is a key; a miss returns the zero composition |
| Compositions.GetAllCompositions | backend/internal/metals/compositions.go:478-480 | the catalog itself: same keys, and each key is found as its own entry |
| Compositions.CatalogShape | backend/internal/metals/compositions.go:20-447 | each name starts with a capital or `$`. A base-metal entry is a 5 g copper-nickel coin: non-negative shares that sum to 100, no precious weight. A gold or silver entry has weight > 0 and purity in (0, 100]. A plain copper entry has weight and purity 0 |
| Compositions.NotACatalogKey | backend/internal/metals/compositions.go:20-447 | a name that does not start with a capital or `$` is not a catalog key |
| Compositions.LookupCertificationTitle | backend/internal/metals/compositions.go:456-463 | the certification title "1921-S Peace Dollar MS67" is found as the Peace Dollar entry |
| Compositions.LookupYearWithoutMintMarkMisses | backend/internal/metals/compositions.go:458-466 | "1921 Morgan Dollar" is not found and yields the zero composition |
| Compositions.MorganDollarEntry | backend/internal/metals/compositions.go:22-28 | the Morgan dollar entry is silver, 0.77344 oz, 90% |
| Compositions.BuffaloNickelEntry | backend/internal/metals/compositions.go:200-210 | the Buffalo nickel entry is a 5 g base-metal coin, 75% copper and 25% nickel |
| YearBased.FirstCovering | backend/internal/metals/year_based_compositions.go:249-253 | the index of the first range in declaration order that contains the year; no earlier range contains it; the length when none does |
| YearBased.FindRules | backend/internal/metals/year_based_compositions.go:246-247 | the index of the first rule set whose type equals the name exactly; the length when none does |
| YearBased.Resolve | backend/internal/metals/year_based_compositions.go:249-255 | a rule set gives the composition of the first range that contains the year, or its default when no range contains it |
| YearBased.GetCompositionByYear | backend/internal/metals/year_based_compositions.go:244-261 | a registered type is found for every year and resolved by its rule set; an unregistered type gets exactly `GetComposition` |
| YearBased.TableWellFormed | backend/internal/metals/year_based_compositions.go:17-241 | the table lists each type once; in every rule set each range has start ≤ end and the ranges are pairwise disjoint |
| YearBased.FirstCoveringUnique | backend/internal/metals/year_based_compositions.go:249-253 | with disjoint ranges, the first range containing the year is the only one |
| YearBased.UniqueMatch | backend/internal/metals/year_based_compositions.go:246-255 | for a registered type, any range that contains the year decides the result |
| YearBased.WashingtonQuarterEras | backend/internal/metals/year_based_compositions.go:55-77 | 1932–1964 gives 0.18084 oz of silver at 90%; every other year gives the clad default with weight 0 |
| YearBased.KennedyHalfDollarEras | backend/internal/metals/year_based_compositions.go:19-52 | 1964 gives 0.36169 oz at 90%; 1965–1970 gives 0.14792 oz at 40%; every other year, including years before 1964, gives the clad default |
| YearBased.RooseveltDimeEras | backend/internal/metals/year_based_compositions.go:80-102 | 1946–1964 gives 0.07234 oz at 90%; otherwise clad |
| YearBased.JeffersonNickelEras | backend/internal/metals/year_based_compositions.go:105-131 | every coin of 1942–1945 is 35% silver, 0.05626 oz; any other year gives the 5 g, 75/25 base-metal default |
| YearBased.LincolnCentNeverPrecious | backend/internal/metals/year_based_compositions.go:134-189 | every year gives copper with no precious weight |
| YearBased.EisenhowerDollarEras | backend/internal/metals/year_based_compositions.go:192-214 | 1971–1976 gives 0.31625 oz at 40%; otherwise clad |
| YearBased.DefaultOnlyTypes | backend/internal/metals/year_based_compositions.go:216-240 | Susan B. Anthony and Sacagawea dollars have no ranges, so every year gives their default, found |
| YearBased.NoisyNameSkipsYearRules | backend/internal/metals/year_based_compositions.go:247-260 | type matching is exact: "1964-D Kennedy Half Dollar" in 1971 skips the rules and gets the catalog's 90% silver Kennedy entry |
| YearBased.NotRegistered | backend/internal/metals/year_based_compositions.go:17-241 | a name that does not start with a capital or `$` has no rule set |
| SpotPriceOracle.FallbackPrices | backend/internal/metals/spotprices.go:47-56 | the fixed snapshot: gold 2650, silver 30.50, platinum and palladium 950, copper 5.52, nickel 6.96 |
| SpotPriceOracle.ParseGoldPriceOrg | backend/internal/metals/spotprices.go:101-120 | succeeds exactly when the first item has non-zero gold and silver; then uses those two prices with platinum and palladium 950, copper 5.52, nickel 6.96; an empty list and a decoding error fail with their messages |
| SpotPriceOracle.GoldPriceOrgUsesFirstItem | backend/internal/metals/spotprices.go:105-106 | items after the first never change the outcome |
| SpotPriceOracle.LastQuoteLastRecordWins | backend/internal/metals/spotprices.go:145-160 | a metal's price is that of the last record naming it |
| SpotPriceOracle.LastQuoteUnseen | backend/internal/metals/spotprices.go:144 | a metal no record names keeps price 0 |
| SpotPriceOracle.MetalsLiveIgnoresUnknown | backend/internal/metals/spotprices.go:146-159 | a record naming none of the six metals changes nothing |
| SpotPriceOracle.ParseMetalsLive | backend/internal/metals/spotprices.go:144-166 | succeeds with the folded snapshot exactly when the folded gold and silver are non-zero; otherwise fails with "incomplete price data" |
| SpotPriceOracle.FetchMetalsLive | backend/internal/metals/spotprices.go:144-166 | the record loop computes exactly `ParseMetalsLive` |
| SpotPriceOracle.RealPrices | backend/internal/metals/spotprices.go:64-76 | goldprice.org's snapshot when it succeeds, else metals.live's; fails only when both fail, with "all price sources failed" |
| SpotPriceOracle.FetchRealPrices | backend/internal/metals/spotprices.go:64-76 | consults metals.live only after goldprice.org fails, and computes exactly `RealPrices` |
| SpotPriceOracle.Refreshed | backend/internal/metals/spotprices.go:39-61 | a refresh installs the live snapshot, or the fallback when both feeds fail; either way gold and silver are non-zero |
| SpotPriceOracle.CacheBoundary | backend/internal/metals/spotprices.go:32-37 | a snapshot is served one nanosecond before it turns 15 minutes old; at 15 minutes, or with no snapshot, a refresh is made |
| SpotPriceOracle.MeltValueAt | backend/internal/metals/spotprices.go:175-197 | succeeds exactly for the six known metals. Gold, silver, platinum and palladium give weight × purity/100 × that price. Copper and nickel give 0. Any other name fails with "unsupported metal type: " and the name |
| SpotPriceOracle.MeltValueNonNegative | backend/internal/metals/spotprices.go:194-195 | with non-negative weight, purity and prices, the melt value is ≥ 0 |
| SpotPriceOracle.BaseMeltValueAt | backend/internal/metals/spotprices.go:223-230 | grams / 453.592 × (copper% × copper price + nickel% × nickel price) |
| SpotPriceOracle.BaseMeltValueNonNegative | backend/internal/metals/spotprices.go:224-230 | with non-negative mass, shares and prices, the base melt value is ≥ 0 |
| SpotPriceOracle.MeltValueFromCompositionAt | backend/internal/metals/spotprices.go:235-240 | the base-metal formula exactly when the entry is base metal, the precious-metal path otherwise |
| SpotPriceOracle.ShapedEntryMeltValue | backend/internal/metals/spotprices.go:235-240 | an entry of catalog shape never fails to price, and prices at ≥ 0 under non-negative prices |
| SpotPriceOracle.CatalogMeltValues | backend/internal/metals/spotprices.go:235-240 | every catalog entry prices without error, at ≥ 0 under non-negative prices |
| SpotPriceOracle.MorganDollarMeltValue | backend/internal/metals/spotprices.go:194-195 | a Morgan dollar at $30.00 silver is worth 20.88288 |
| SpotPriceOracle.WashingtonQuarterTransition | backend/internal/metals/spotprices.go:185-195 | at $30.00 silver a 1964 Washington quarter is worth 4.88268; a 1965 one is worth exactly 0 |
| SpotPriceOracle.CopperSentinelIsZero | backend/internal/metals/spotprices.go:185-189 | a copper entry not flagged as base metal is worth exactly 0 |
| SpotPriceOracle.FiveGramNickelMeltValue | backend/internal/metals/spotprices.go:223-230 | 5 g of 75/25 copper-nickel at $5.52 and $6.96 per pound is 29.4/453.592, between 0.064 and 0.065 |
| SpotPriceOracle.BuffaloNickelMeltValue | backend/internal/metals/spotprices.go:235-237 | the Buffalo nickel entry at those prices melts for 29.4/453.592 |
| SpotPriceOracle.SpotPriceCache.constructor | backend/internal/metals/spotprices.go:29-30 | the cache starts with no snapshot and the zero time |
| SpotPriceOracle.SpotPriceCache.GetSpotPrices | backend/internal/metals/spotprices.go:34-62 | a fresh snapshot is returned and the fetch time is kept. Otherwise the refreshed snapshot is returned and the fetch time becomes now. Either way the cache then holds the returned snapshot |
| SpotPriceOracle.SpotPriceCache.UpdateSpotPricesManually | backend/internal/metals/spotprices.go:200-211 | the cache becomes the four given prices with copper 5.52 and nickel 6.96, and the fetch time becomes now |
| SpotPriceOracle.SpotPriceCache.CalculateMeltValue | backend/internal/metals/spotprices.go:169-198 | the melt value on the snapshot `GetSpotPrices` yields. Afterwards the cache holds that snapshot, and the fetch time is kept when the cache was fresh and becomes now otherwise |
| SpotPriceOracle.SpotPriceCache.CalculateBaseMeltValue | backend/internal/metals/spotprices.go:217-231 | the base-metal formula on the snapshot `GetSpotPrices` yields. The cache and the fetch time end as `GetSpotPrices` leaves them: kept when fresh, now otherwise |
| SpotPriceOracle.SpotPriceCache.CalculateMeltValueFromComposition | backend/internal/metals/spotprices.go:235-240 | the composition's melt value on the snapshot `GetSpotPrices` yields, dispatched on `isBaseMetal`. The cache and the fetch time end as `GetSpotPrices` leaves them: kept when fresh, now otherwise |
| SpotPriceOracle.ManualOverrideIsServed | backend/internal/metals/spotprices.go:200-211 | after a manual update, a lookup less than 15 minutes later returns exactly the manual snapshot, whatever the feeds say |
| SpotPriceOracle.BothFeedsDown | backend/internal/metals/spotprices.go:47-61 | with both feeds failing, a stale or empty cache is refilled with the fallback snapshot at the current time |
| CoinClassifier.WideYearRange | image-service/app/coin_classifier.py:182 | the whole-word year pattern (alternatives `1[7-9]\d{2}`, `20\d{2}`, `21\d{2}`) matches four digits exactly when their value is 1700–2199 |
| CoinClassifier.NarrowYearRange | image-service/app/coin_classifier.py:210 | the embedded year pattern (alternatives `18[7-9]\d`, `19[0-3]\d`, `194\d`, `195\d`, `196\d`) matches four digits exactly when their value is 1870–1969 |
| CoinClassifier.Search | image-service/app/coin_classifier.py:182 | `re.search`: the leftmost position where the pattern, with its word boundaries, matches; none when no position does |
| CoinClassifier.SearchYear | image-service/app/coin_classifier.py:182-184 | a reported year lies in 1700–2199 (whole-word pattern) or 1870–1969 (embedded pattern); none exactly when nothing matches |
| CoinClassifier.SearchYearFirst | image-service/app/coin_classifier.py:182-184 | a match with none before it is the year reported |
| CoinClassifier.ApplyReplacements | image-service/app/coin_classifier.py:200-201 | applying the replacements in turn keeps the length |
| CoinClassifier.ApplyReplacementsPointwise | image-service/app/coin_classifier.py:200-201 | the replacements act on each position independently |
| CoinClassifier.ReplacementsOnChar | image-service/app/coin_classifier.py:191-201 | on a character that is not lower-case, the thirteen replacements map O to 0, I and the vertical bar to 1, B to 8, S to 5, Z to 2, and leave everything else; the lower-case keys never fire |
| CoinClassifier.CleanedText | image-service/app/coin_classifier.py:188-201 | the cleaned text has the raw text's length |
| CoinClassifier.CleanedTextAt | image-service/app/coin_classifier.py:188-201 | each cleaned character is the raw character upper-cased and then mapped as above |
| CoinClassifier.CleanOcrText | image-service/app/coin_classifier.py:188-201 | the replacement loop computes exactly the cleaned text |
| CoinClassifier.OcrYear | image-service/app/coin_classifier.py:174-214 | any year found lies in 1700–2199 |
| CoinClassifier.ExtractYearFromOcr | image-service/app/coin_classifier.py:174-214 | computes exactly `OcrYear`, so any year returned lies in 1700–2199 |
| CoinClassifier.OcrWholeWordYear | image-service/app/coin_classifier.py:181-184 | the first whole-word year in the raw text is the result |
| CoinClassifier.OcrCleanedYear | image-service/app/coin_classifier.py:186-206 | when the raw text has no whole-word year, the first one in the cleaned text is the result |
| CoinClassifier.OcrEmbeddedYear | image-service/app/coin_classifier.py:208-212 | when neither text has a whole-word year, the first embedded 1870–1969 year of the raw text is the result |
| CoinClassifier.OcrNoYear | image-service/app/coin_classifier.py:214 | when no tier matches, there is no year |
| CoinClassifier.OcrRepairsMisreads | image-service/app/coin_classifier.py:186-206 | "I9O5" reads as 1905 |
| CoinClassifier.OcrDateWithAttachedMintMark | image-service/app/coin_classifier.py:208-212 | "1878D" fails both word-bounded tiers and reads as 1878 through the third |
| CoinClassifier.TablesShareKeys | image-service/app/coin_classifier.py:56-102 | the denomination and base-value tables have the same keys, and no base value is negative |
| CoinClassifier.CoinKey | image-service/app/coin_classifier.py:258 | same length; each space becomes `_` and every other character is lower-cased |
| CoinClassifier.CoinKeyOfDisplayName | image-service/app/coin_classifier.py:56-58 | "Morgan Dollar" has key "morgan_dollar", whose denomination is "$1" |
| CoinClassifier.GetCoinDetails | image-service/app/coin_classifier.py:247-275 | the details hold the key's denomination and base value, or "Unknown" and 0 for an unknown key. A non-zero year before 1965 with a dollar, half, quarter or dime key gives "90% Silver, 10% Copper" and silver content true. A year from 1965 on gives "Copper-Nickel Clad" and false. Otherwise neither field is set |
| CoinClassifier.Max | image-service/app/coin_classifier.py:241 | Python `max` of two numbers: at least both, and equal to one of them |
| CoinClassifier.ClassifyCoinHybrid | image-service/app/coin_classifier.py:229-245 | type and denomination are kept, and the estimate never goes down. Without OCR text or an extracted year the result is the CLIP result. With a year, the year is recorded. Before 1965, a type containing "dollar" gets at least $30; otherwise a $0.50, $0.25 or $0.10 coin gets at least $5. In every other case the estimate is unchanged |

## Left out

- HTTP requests, body reading and JSON decoding in `spotprices.go` are not modelled. Each feed's outcome is a parameter: the decoded items or records, or the error message.
- `time.Now()` is read several times during one Go refresh. The model reads the clock once per call as `now`, and uses it for both `UpdatedAt` and the fetch time.
- The cache globals are unsynchronised, so concurrent requests race on them. The model is single-threaded.
- `float64` rounding is not modelled: prices and weights are `real`, and the zero checks on prices are exact.
- `GetSpotPrices` always returns a nil error, so the model returns only the snapshot. The unreachable error branches of the three calculators are therefore not modelled.
- Console logging of prices and warnings is not modelled.
- The `MetalsAPIResponse` type is declared in `spotprices.go` but never used, so it is not modelled.
- The `Description` strings of compositions carry no behaviour and are not modelled.
- The `year <= 0` guard in front of `GetCompositionByYear` lives in the HTTP handlers, which are not part of this model.
- `classify_coin_with_clip` and `load_clip_model` (CLIP inference) are not modelled. The CLIP result is a parameter holding only the fields the value floor reads or writes. Its other dictionary keys pass through unchanged and are not modelled.
- The `COIN_TYPES` prompt texts feed only CLIP and are not modelled.
- CoinClassifier.ExtractYearFromOcr: text is treated as ASCII. Python's Unicode `\d`, `\b` and `str.upper()` behaviour on other characters is not modelled. For example, `str.upper()` turns "ß" into "SS", which changes the length.
- CoinClassifier.CoinKey: `str.lower()` is modelled on ASCII only, so `GetCoinDetails` keys are ASCII-lower-cased. Python also lower-cases non-ASCII capitals (the Kelvin sign becomes "k"), which the model leaves unchanged. Every key in the two tables is ASCII.
- The HTTP handlers, the database layer, the PCGS client and scraper, the service's entry points and the FastAPI/OpenCV/Tesseract plumbing of the image service are not part of this model.

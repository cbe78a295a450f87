# Investment discovery front-end: search service, catalog and portfolio pages

This project models the deterministic core of a React front-end where users
browse investment strategies. The front-end lists categories and
sub-categories, shows product cards and opens a portfolio details page.
Products come either from a search index or from a built-in mock catalog.

The model covers four parts:

- **Search service** (`AlgoliaService`, over `Sequences`, `Text` and `Sorting`):
  - the category-to-tag map and the OR filter built from it;
  - the four tag spellings tried for a sub-category, and the probe loop that picks the first spelling with hits;
  - the conversion of an index record into a product (risk band, minimum amount, category label, sub-category id);
  - the similar-portfolio query: the top three allocations by weight, the return band, and the exclusion of the hits carrying the queried external id;
  - the sorted inventory of distinct tags.

  The search index is a function parameter. `probe(filter, size)` is the number of hits of one query. `lookup` and `search` return the hits of a query.
- **Mock catalog** (`MockData`, with the grouping in `CategoryRows`):
  - the six categories, the 33 sub-categories and the 19 products, as literal constants;
  - proofs that the sub-category ids are spelled `<category>::<slug>` and are unique, and that the products are numbered `1`, `2`, … with known sub-categories;
  - `getCategoryRows`: filtering by sub-category, grouping by category label in first-seen order, and the slug used as row id.
- **Product card** (`ProductCard`): the ticker abbreviation, the placeholder colour, the `toFixed(1)` performance text with its sign and colour, and the 7-point evolution chart.
- **Portfolio details page** (`PortfolioDetails`, applied to the mock catalog in `PortfolioPage`):
  - the lookup by id and the "not found" view;
  - the similar and related lists;
  - the ticker fallback;
  - the year-to-date series, the current performance and the chart path commands.

`Math.random()` is a parameter `draw: nat -> real`: `draw(i)` is the i-th value the code consumes. Stateful code is modelled as methods:

- the probe loop;
- the Map grouping;
- the in-place stable sort;
- the Set accumulation of tags;
- the point-building loops.

Each method is proved equal to a specification function, and the promised properties are proved about those functions.

## Model

| member | source | states |
|---|---|---|
| AlgoliaService.CategoryTagMapWellFormed | src/services/algoliaService.ts:77-84 | the tag map has exactly the six category keys, and every key lists at least one tag, each starting with `c:` for its key `c` |
| AlgoliaService.CategorySearchCases | src/services/algoliaService.ts:86-93 | an own key of the tag map searches with the OR filter of its tags; a name inherited from `Object.prototype` whose `length` is not 0 (such as "constructor" or "__proto__") throws a TypeError at `tags.map`; every other name, including "toString" and "valueOf" (`length` 0), falls back to the plain search |
| AlgoliaService.OrFilterRoundTrip | src/services/algoliaService.ts:91-93 | for non-empty tags without spaces, splitting the parenthesised filter on ` OR ` and unquoting each `tags:"…"` term gives back the tags in order |
| AlgoliaService.TagCandidatesOfWellFormedId | src/services/algoliaService.ts:292-297 | for an id `c::slug`, the candidates are the id itself, `c:slug`, `slug` and `c_slug`, in that order |
| AlgoliaService.TagCandidatesWithoutSeparator | src/services/algoliaService.ts:292-297 | for an id without `::`, the replace and the join leave the id unchanged and `split('::')[1]` is `undefined` |
| AlgoliaService.FirstHit | src/services/algoliaService.ts:299-307 | the chosen index is the first candidate whose probe has hits, all earlier candidates had none, and there is no index exactly when no candidate has hits |
| AlgoliaService.FindWorkingTag | src/services/algoliaService.ts:291-308 | returns the first candidate with hits, or null when all four have none; each probe asks for `min(hitsPerPage, 5)` hits |
| AlgoliaService.SubcategoryFilter | src/services/algoliaService.ts:97-106 | the filter is `tags:"t"` for the working tag `t` when it is truthy, and the empty general search otherwise; a non-empty filter had hits when probed |
| AlgoliaService.RiskOf | src/services/algoliaService.ts:333 | high exactly above 5, medium exactly in (2, 5], low exactly at or below 2 |
| AlgoliaService.RiskOfMonotone | src/services/algoliaService.ts:333 | more rebalancing activity never gives a lower risk band |
| AlgoliaService.MinimumAmount | src/services/algoliaService.ts:335 | at least 100; above 100 exactly when the capital is at least 10100, and then it is the floor of 1% of the capital |
| AlgoliaService.CategoryLabel | src/services/algoliaService.ts:336 | the label is "Other" or a non-empty text without ':' |
| AlgoliaService.CategoryLabelWithoutColon | src/services/algoliaService.ts:336 | without any tag containing ':', the label is "Other" |
| AlgoliaService.CategoryLabelOfFirstColonTag | src/services/algoliaService.ts:336 | the label is the text before the first ':' of the first tag that contains one |
| AlgoliaService.CategoryLabelOfLeadingColon | src/services/algoliaService.ts:336 | when that tag starts with ':', the empty prefix is falsy and the label is "Other" |
| AlgoliaService.SubCategoryIdOf | src/services/algoliaService.ts:337 | the first tag containing `::` when there is one; otherwise the first tag, or "" for no tags |
| AlgoliaService.ConvertedProductFacts | src/services/algoliaService.ts:327-349 | the product id reads back as the record's numeric id; the type is "Strategy"; the minimum is at least 100; the label is "Other" or has no ':'; the sub-category is empty or one of the tags; a missing profile image becomes the default image |
| AlgoliaService.ConvertedIdsDistinct | src/services/algoliaService.ts:329 | records with different numeric ids give products with different text ids |
| AlgoliaService.HeavierFirstIsConsistent | src/services/algoliaService.ts:237 | the comparator `b.fraction - a.fraction` induces a strict weak order |
| AlgoliaService.TopAllocations | src/services/algoliaService.ts:236-238 | at most three allocations, exactly `min(3, n)` of them, all taken from the input |
| AlgoliaService.TopAllocationsOrdered | src/services/algoliaService.ts:236-238 | the chosen allocations are in non-increasing order of weight |
| AlgoliaService.TopAllocationsOutweighRest | src/services/algoliaService.ts:236-238 | every chosen allocation weighs at least as much as every allocation left out |
| AlgoliaService.TopAllocationsKeepTies | src/services/algoliaService.ts:237-238 | allocations of equal weight are chosen in their original order, because the sort is stable |
| AlgoliaService.SimilarityQueryFor | src/services/algoliaService.ts:241-256 | the return band is 0.1 wide and holds the base's last-month return strictly inside; there is one optional filter per tag and per chosen ticker |
| AlgoliaService.SimilarityFiltersNameTagsAndTickers | src/services/algoliaService.ts:250-253 | the optional filters are `tags:t` for each base tag, then `currentAllocation.ticker:x` for each chosen ticker, in order |
| AlgoliaService.ExcludeExternalId | src/services/algoliaService.ts:260 | no hit carrying the queried external id remains, every other hit remains as often as it occurred, and the order is kept |
| AlgoliaService.GetSimilarPortfolios | src/services/algoliaService.ts:209-262 | with no base hit the empty response is returned; otherwise the similarity query for the first base hit is issued, with the allocations sorted in place, and its hits not carrying the queried external id are returned; a first hit with a different external id is therefore not removed |
| AlgoliaService.CodePointOrderIsConsistent | src/services/algoliaService.ts:321 | the default string order of `sort()` is a strict weak order |
| AlgoliaService.AddAll | src/services/algoliaService.ts:317 | adding to the Set keeps the earlier entries first, adds exactly the new tags, and never repeats one |
| AlgoliaService.TagsInOrder | src/services/algoliaService.ts:313-319 | the Set holds each tag of each hit exactly once |
| AlgoliaService.AvailableTags | src/services/algoliaService.ts:311-324 | the result is the Set's contents sorted by the default string order |
| AlgoliaService.AvailableTagsSpec | src/services/algoliaService.ts:311-324 | the result is strictly increasing, so it has no repeats, and holds exactly the tags that occur in the hits |
| Text.IntToStringRoundTrip | src/services/algoliaService.ts:329 | the decimal text of an integer reads back as that integer |
| Text.IntToStringInjective | src/services/algoliaService.ts:329 | different integers have different decimal texts |
| Text.SplitJoin | src/services/algoliaService.ts:92 | splitting a joined text on the separator gives back the pieces when no piece contains the separator or ends with one of its characters |
| Sorting.SortInPlace | src/services/algoliaService.ts:237 | the array ends holding the stable sort of its old contents |
| Sorting.Sort | src/services/algoliaService.ts:237 | the sort keeps the length and is a permutation of the input |
| Sorting.SortSorted | src/services/algoliaService.ts:237 | under a consistent comparator the sort's result is sorted |
| Sorting.SortStable | src/services/algoliaService.ts:237 | equivalent elements keep their relative order |
| MockData.CategoryIdsAre | src/data/mockData.ts:3-52 | the category ids are sector, thesis, stage, geo, horizon and composition, in that order |
| MockData.SubCategoriesWellFormed | src/data/mockData.ts:54-99 | every sub-category is `c::slug` for its own category `c`, which is one of the six, and no id occurs twice |
| MockData.DifferentCategoriesDifferentIds | src/data/mockData.ts:54-99 | sub-categories spelled under different categories never share an id |
| MockData.ProductsListed | src/data/mockData.ts:101-138 | the products are numbered `1`, `2`, … in catalog order, and each names a listed sub-category |
| MockData.ProductsWellFormed | src/data/mockData.ts:101-138 | every product's sub-category is listed, and no two products share an id |
| MockData.GetCategoryRows | src/data/mockData.ts:140-158 | the rows are the grouping of the catalog entries of that sub-category |
| MockData.RowsHoldSubCategory | src/data/mockData.ts:141 | every product in a row belongs to the requested sub-category |
| MockData.UnknownSubCategoryHasNoRows | src/data/mockData.ts:141 | an id that is not a listed sub-category gets no rows |
| CategoryRows.CollectGroups | src/data/mockData.ts:144-150 | the Map's keys are the category labels in first-insertion order, and each key maps to the products with that label in input order |
| CategoryRows.GroupIntoRows | src/data/mockData.ts:144-157 | the rows are one row per label, in the Map's key order |
| CategoryRows.Labels | src/data/mockData.ts:144-150 | the labels have no repeats and are exactly the labels the products carry |
| CategoryRows.RowsOf | src/data/mockData.ts:153-157 | there is one row per label, and row i is titled with label i and holds that label's products |
| CategoryRows.DropWhitespace | src/data/mockData.ts:154 | removes exactly the leading run of whitespace |
| CategoryRows.CollapseWhitespace | src/data/mockData.ts:154 | no whitespace is left, and each character is a '-' or comes from the input |
| CategoryRows.Slug | src/data/mockData.ts:154 | the id has no whitespace and no upper-case ASCII letter, and it is no longer than the label |
| CategoryRows.CollapseWithoutWhitespace | src/data/mockData.ts:154 | a text without whitespace is left unchanged |
| CategoryRows.SlugOfWord | src/data/mockData.ts:154 | the id of a single word is that word in lower case |
| CategoryRows.SlugOfWords | src/data/mockData.ts:154 | a run of whitespace between words becomes a single '-' |
| CategoryRows.SlugIdempotent | src/data/mockData.ts:154 | applying the id transformation again changes nothing |
| CategoryRows.RowsPartition | src/data/mockData.ts:145-150 | the rows together hold every product exactly once |
| CategoryRows.RowsByLabel | src/data/mockData.ts:144-157 | each row holds exactly the products whose label is its title, in input order, and no two rows share a title |
| CategoryRows.RowProductIn | src/data/mockData.ts:149 | a product in a row comes from the input and carries the row's title |
| CategoryRows.EveryLabelHasRow | src/data/mockData.ts:145-150 | every product's label has a row |
| CategoryRows.RowsEmptyIff | src/data/mockData.ts:144-157 | there are no rows exactly when there are no products |
| CategoryRows.LabelsFirstSeen | src/data/mockData.ts:144-153 | when a label's row comes first, that label was seen earlier in the input |
| ProductCard.GenerateTicker | src/components/ProductCard.tsx:11-17 | at most four UTF-16 code units: the longest such prefix of the upper-cased first word, so a surrogate pair can be cut in half |
| ProductCard.TickerHasNoSpace | src/components/ProductCard.tsx:14 | the ticker contains no space code unit |
| ProductCard.TickerOfBasicName | src/components/ProductCard.tsx:11-17 | for a name in the basic multilingual plane, the ticker is the upper-cased start of the name, at most four characters, stopping at the first space |
| ProductCard.TickerSplitsSurrogatePair | src/components/ProductCard.tsx:14 | for "abc" followed by U+1F600 the ticker is "ABC" and a lone high surrogate 0xD83D |
| ProductCard.TickerOfFirstWord | src/components/ProductCard.tsx:13-16 | only the first word matters, so a trailing "ETF" or "Fund" changes nothing |
| ProductCard.ImagePlaceholder | src/components/ProductCard.tsx:35-39 | the colour is the palette entry at the UTF-16 length of the label modulo 6 |
| ProductCard.PlaceholderByLength | src/components/ProductCard.tsx:35-39 | labels whose lengths agree modulo 6 get the same colour |
| ProductCard.PlaceholderCycles | src/components/ProductCard.tsx:37-38 | appending six more UTF-16 code units to a label does not change its colour |
| Text.Utf16OfBasic | src/components/ProductCard.tsx:14 | text of the basic multilingual plane is encoded one code unit per character, each equal to the character |
| ProductCard.Utf16LengthOfBasic | src/components/ProductCard.tsx:37 | for characters of the basic multilingual plane, the length is the character count |
| ProductCard.ToFixed1 | src/components/ProductCard.tsx:21 | the sign matches the number's, and the tenths are within half a tenth of its magnitude |
| ProductCard.Fixed1Text | src/components/ProductCard.tsx:21 | the text has one digit after the point and starts with '-' exactly for a negative value |
| ProductCard.Fixed1TextRoundTrip | src/components/ProductCard.tsx:21 | the text reads back as the sign and tenths it was written from |
| ProductCard.PerformanceColor | src/components/ProductCard.tsx:30-32 | green exactly when the text reads as at least zero, and red otherwise |
| ProductCard.NegativeZeroLabel | src/components/ProductCard.tsx:84 | a value in (-0.05, 0) is written "-0.0" and labelled with both signs, "+-" |
| ProductCard.PerformanceLabel | src/components/ProductCard.tsx:84 | the label starts with '+' exactly for a non-negative text and with '-' exactly for a negative one, then digits, ending in '%' |
| ProductCard.LabelsAgreeExceptNegativeZero | src/components/ProductCard.tsx:84 | apart from "-0.0", the corrected label equals the label as written |
| ProductCard.GenerateChartPath | src/components/ProductCard.tsx:47-55 | seven commands, a move then lines; x runs evenly from 0 to 184; y is 2 plus 42 times the draw, so it lies in [2, 44) |
| PortfolioDetails.FindPortfolio | src/pages/PortfolioDetails.tsx:26 | no portfolio without an id; no portfolio exactly when no catalog entry has the id; otherwise a catalog entry with that id |
| PortfolioDetails.FindPortfolioById | src/pages/PortfolioDetails.tsx:26 | in a catalog with unique ids, looking up an entry's id finds that entry |
| PortfolioDetails.SimilarPortfolios | src/pages/PortfolioDetails.tsx:56-58 | at most four catalog entries, each with a different id and the same category; when fewer than four, every such entry is present |
| PortfolioDetails.RelatedPortfolios | src/pages/PortfolioDetails.tsx:61-63 | at most four catalog entries other than the portfolio; when fewer than four, every other entry is present |
| PortfolioDetails.ListsInCatalogOrder | src/pages/PortfolioDetails.tsx:56-63 | both lists keep catalog order |
| PortfolioDetails.SimilarAreFirst | src/pages/PortfolioDetails.tsx:56-58 | a similar entry with fewer than four similar entries before it is shown |
| PortfolioDetails.RelatedAreFirst | src/pages/PortfolioDetails.tsx:61-63 | another entry with fewer than four other entries before it is shown |
| PortfolioDetails.SimilarAreRelated | src/pages/PortfolioDetails.tsx:56-63 | the related list is never shorter than the similar one |
| PortfolioDetails.DisplayTicker | src/pages/PortfolioDetails.tsx:125 | never empty: the ticker when it is present and non-empty, "PORTFOLIO" otherwise |
| PortfolioDetails.CumulativeChangeBounds | src/pages/PortfolioDetails.tsx:96-98 | with draws in [0, 1), n monthly changes sum to at least -2.4n and to less than 5.6n |
| PortfolioDetails.HeightReversesOrder | src/pages/PortfolioDetails.tsx:101 | a higher value is drawn higher up the chart |
| PortfolioDetails.GenerateYTDData | src/pages/PortfolioDetails.tsx:91-107 | ten points; x is evenly spaced from 0 to 100; each value is 100 plus the running sum of the changes; y is the height of the value |
| PortfolioDetails.CurrentPerformanceBounds | src/pages/PortfolioDetails.tsx:110 | the current performance is the sum of the ten changes, and it lies in [-24, 56) |
| PortfolioDetails.PathCommands | src/pages/PortfolioDetails.tsx:111-113 | one command per point, a move then lines, at the points' coordinates |
| PortfolioDetails.RenderPortfolioDetails | src/pages/PortfolioDetails.tsx:23-113 | "not found" exactly when no catalog id matches; otherwise the page shows the found portfolio with its ticker, similar and related lists, the ten points of the series (x evenly spaced from 0 to 100, the running value, y its height), the current performance and the path through those points |
| PortfolioPage.EveryProductHasPage | src/pages/PortfolioDetails.tsx:26 | every product id of the mock catalog opens its own product's page |
| PortfolioPage.ShowPortfolio | src/pages/PortfolioDetails.tsx:23-39 | over the mock catalog: "not found" exactly for ids no product has; otherwise the page shows a catalog product with that id |

## Left out

- Network access, `async`/`await` and the search client are not modelled. The index is the parameter `probe`/`lookup`/`search`, so a failing request and the `catch` paths are not modelled.
- The other search-service methods (`searchStrategies` itself, `getAllStrategies`, the discovery scoring with `Date.now`) and `blueApiService.ts` are not part of this model.
- `console.log` calls are left out.
- The random metrics of the details page (`generateMetrics`), the random copier count, and the draws they consume are left out. `draw` numbers only the draws of the function being modelled.
- Floating point is modelled as exact reals. NaN, infinities, rounding of `x * 100` and `* 0.01`, and binary ties in `toFixed` are not modelled.
- `expectedReturn` (`toFixed(1)` of `totalReturns * 100`) is not modelled. `ProductCard.ToFixed1` models the one `toFixed(1)` on the card.
- The number-to-text rendering of coordinates inside SVG path strings is not modelled. The paths are modelled as sequences of move/line commands.
- AlgoliaService.ConvertedProductFacts: the fields copied unchanged (name, description, ticker, creator, capital, returns, allocation, external id, history) are not stated one by one. The risk band, minimum, label and sub-category have their own rows above.
- Guards against a missing `tags` or `currentAllocation` field are not modelled. Records are typed, so these fields are always present; an absent field is the empty sequence.
- ProductCard.GenerateTicker: upper-cases ASCII letters only, because Unicode case mapping is not modelled. The slice itself counts UTF-16 code units, as the source does.
- CategoryRows.Slug: lower-cases ASCII letters only, for the same reason. `\s` is JavaScript's whitespace set, written out.
- AlgoliaService.CategorySearchCases: the inherited names are those of `Object.prototype` in a current engine; a polluted or engine-specific prototype is not modelled.
- Record ids are modelled as integers. `toString` of a non-integer id, or of one at or above 1e21 (which prints in exponent form), is not modelled.
- AlgoliaService.AvailableTags: orders by code point. JavaScript orders by UTF-16 code unit, and the two differ only between characters above U+FFFF and characters in U+E000–U+FFFF.
- Icons, colours other than the palette, the JSX markup, navigation and routing are left out. Only the values the page computes are modelled.
- `portfolioAssets` and `copiers` on the details page are fixed display lists that nothing computes with, so they are left out.
- The mock catalog is split into one constant per category, or per sub-category for products. The constants are concatenated in the catalog's order, so `SubCategories` and `InvestmentProducts` are exactly the source's arrays.
- `RenderPortfolioDetails` takes the catalog as a parameter; `ShowPortfolio` applies it to the mock catalog.
- The `id` route parameter is an `Option`: `None` is an absent parameter.

## Findings

| source | as written | input that shows it | evidently intended | confidence | as-written member | corrected member |
|---|---|---|---|---|---|---|
| src/components/ProductCard.tsx:84 | a '+' is prefixed whenever `parseFloat(performance) >= 0`, and "-0.0" parses as negative zero, which is `>= 0` | a random performance in (-0.05, 0), such as -0.04, gives the text "-0.0" and the label "+-0.0%" | one sign: "-0.0%" (or "+0.0%") | not executed; follows from `toFixed` and `parseFloat` semantics | ProductCard.NegativeZeroLabel | ProductCard.PerformanceLabel |

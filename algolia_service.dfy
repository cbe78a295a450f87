/** The search-service layer: how subcategory and category selections become
    filter strings for the hosted search index, how a raw strategy record is
    normalised into a product, the post-processing of a similarity search and
    the tag inventory. The search index itself is an oracle: every query it
    answers is a function parameter. */
module AlgoliaService {
  import opened Wrappers
  import opened Sequences
  import opened Text
  import opened InvestmentTypes
  import opened Sorting

  // ---------------------------------------------------------------------
  // Records returned by the search index

  /** One holding of a strategy. `fraction` is its weight. */
  datatype Allocation = Allocation(ticker: string, sector: Option<string>, fraction: real)

  /** A strategy record as stored in the search index. */
  datatype Strategy = Strategy(
    objectID: string,
    id: int,
    strategyName: string,
    externalId: string,
    createdAt: string,
    publishingDate: string,
    strategyTicker: string,
    accountId: int,
    userUuid: string,
    profileImageUrl: Option<string>,
    strategyDescription: string,
    strategyTagline: string,
    lastRebalanceDate: string,
    averageRebalanceActivity: real,
    countLast7Days: int,
    totalCapital: real,
    creatorHandle: string,
    creatorName: string,
    copiesCount: int,
    lastMonthReturns: real,
    totalReturns: real,
    historicalReturns: seq<real>,
    currentAllocation: seq<Allocation>,
    tags: seq<string>)

  /** The envelope of a search answer. */
  datatype SearchResponse = SearchResponse(
    hits: seq<Strategy>,
    nbHits: nat,
    page: nat,
    nbPages: nat,
    hitsPerPage: nat,
    processingTimeMS: nat,
    exhaustiveNbHits: bool,
    query: string,
    params: string)

  // ---------------------------------------------------------------------
  // Filters by category

  /** The filter term selecting records carrying `tag`: tags:"<tag>". */
  function TagFilter(tag: string): string
  {
    "tags:\"" + tag + "\""
  }

  function TagFilters(tags: seq<string>): (r: seq<string>)
    ensures |r| == |tags| && forall i :: 0 <= i < |tags| ==> r[i] == TagFilter(tags[i])
  {
    seq(|tags|, i requires 0 <= i < |tags| => TagFilter(tags[i]))
  }

  const SectorTags := ["sector:technology_ai", "sector:consumer_trends", "sector:biotech_healthcare",
    "sector:industrials_core", "sector:defense_aerospace", "sector:finance_value", "sector:metals_mining",
    "sector:real_assets"]
  const ThesisTags := ["thesis:innovation_wave", "thesis:long_term_compounders", "thesis:deep_value_recovery",
    "thesis:electrification_pipeline", "thesis:nuclear_cycle", "thesis:commodity_supercycle",
    "thesis:space_economy", "thesis:defense_spending_cycle", "thesis:demographic_trend"]
  const StageTags := ["stage:early_stage", "stage:growth", "stage:established", "stage:mixed"]
  const GeoTags := ["geo:us_focus", "geo:global_multi_region", "geo:commodity_exporters", "geo:china_focus"]
  const HorizonTags := ["horizon:long_term_structural", "horizon:thematic", "horizon:cyclical_repricing",
    "horizon:tactical_opportunity"]
  const CompositionTags := ["composition:single_stocks_only", "composition:mixed_assets", "composition:etf_core",
    "composition:etf_satellite"]

  /** The index tags each application category stands for. */
  const CategoryTagMap: map<string, seq<string>> := map[
    "sector" := SectorTags,
    "thesis" := ThesisTags,
    "stage" := StageTags,
    "geo" := GeoTags,
    "horizon" := HorizonTags,
    "composition" := CompositionTags]

  /** Every tag listed for `category` is spelled "<category>:<slug>". */
  predicate TagsOfCategory(category: string, tags: seq<string>)
  {
    |tags| > 0 && forall k :: 0 <= k < |tags| ==> category + ":" <= tags[k]
  }

  lemma SectorTagsWellFormed() ensures TagsOfCategory("sector", SectorTags) {}
  lemma ThesisTagsWellFormed() ensures TagsOfCategory("thesis", ThesisTags) {}
  lemma StageTagsWellFormed() ensures TagsOfCategory("stage", StageTags) {}
  lemma GeoTagsWellFormed() ensures TagsOfCategory("geo", GeoTags) {}
  lemma HorizonTagsWellFormed() ensures TagsOfCategory("horizon", HorizonTags) {}
  lemma CompositionTagsWellFormed() ensures TagsOfCategory("composition", CompositionTags) {}

  /** The tag map covers the six categories, lists tags for each, and every
      listed tag starts with "<category>:". */
  lemma CategoryTagMapWellFormed()
    ensures CategoryTagMap.Keys == {"sector", "thesis", "stage", "geo", "horizon", "composition"}
    ensures forall c :: c in CategoryTagMap ==> TagsOfCategory(c, CategoryTagMap[c])
  {
    SectorTagsWellFormed();
    ThesisTagsWellFormed();
    StageTagsWellFormed();
    GeoTagsWellFormed();
    HorizonTagsWellFormed();
    CompositionTagsWellFormed();
  }

  /** "(" + the tag filters joined by " OR " + ")". */
  function OrFilter(tags: seq<string>): string
  {
    "(" + Join(TagFilters(tags), " OR ") + ")"
  }

  /** The members every object inherits from `Object.prototype`, which
      `categoryTagMap[category]` also finds, with the `length` of each: a
      method's declared parameter count, and no `length` at all for
      `"__proto__"`, which yields `Object.prototype` itself. */
  const InheritedLengths: map<string, Option<nat>> := map[
    "constructor" := Some(1), "hasOwnProperty" := Some(1), "isPrototypeOf" := Some(1),
    "propertyIsEnumerable" := Some(1), "toLocaleString" := Some(0), "toString" := Some(0),
    "valueOf" := Some(0), "__defineGetter__" := Some(2), "__defineSetter__" := Some(2),
    "__lookupGetter__" := Some(1), "__lookupSetter__" := Some(1), "__proto__" := None]

  /** What `getStrategiesByCategory` asks the search for. */
  datatype CategorySearch =
    | PlainSearch                  // `searchStrategies('', '')`
    | FilteredSearch(filter: string)
    | TypeErrorThrown              // `tags.map` is not a function

  /** `tags = categoryTagMap[category] || []`, then the empty-length test and
      the OR of the tag filters. An inherited member is truthy; a zero
      `length` sends it to the plain search, otherwise `tags.map` throws. */
  function CategorySearchFor(category: string): CategorySearch
  {
    if category in CategoryTagMap then
      var tags := CategoryTagMap[category];
      if |tags| == 0 then PlainSearch else FilteredSearch(OrFilter(tags))
    else if category in InheritedLengths then
      if InheritedLengths[category] == Some(0) then PlainSearch else TypeErrorThrown
    else PlainSearch
  }

  /** Reads the tag back out of a filter term tags:"<tag>". */
  function UnquoteTag(term: string): Option<string>
  {
    if |term| >= 7 && term[..6] == "tags:\"" && term[|term| - 1] == '"' then Some(term[6..|term| - 1])
    else None
  }

  function UnquoteTags(terms: seq<string>): Option<seq<string>>
  {
    if terms == [] then Some([])
    else match (UnquoteTag(terms[0]), UnquoteTags(terms[1..]))
      case (Some(t), Some(ts)) => Some([t] + ts)
      case _ => None
  }

  /** Reads the tags back out of an OR-filter "(tags:"a" OR tags:"b" ...)". */
  function ParseOrFilter(filter: string): Option<seq<string>>
  {
    if |filter| >= 2 && filter[0] == '(' && filter[|filter| - 1] == ')' then
      UnquoteTags(Split(filter[1..|filter| - 1], " OR "))
    else None
  }

  lemma NoSpaceNoOr(x: string)
    requires forall i :: 0 <= i < |x| ==> x[i] != ' '
    ensures !Includes(x, " OR ")
  {
    forall j | 0 <= j < |x| ensures !OccursAt(x, " OR ", j) {
      if j + 4 <= |x| {
        assert x[j..j + 4][0] == x[j];
      }
    }
  }

  lemma {:induction false} UnquoteTagFilters(tags: seq<string>)
    ensures UnquoteTags(TagFilters(tags)) == Some(tags)
  {
    if tags != [] {
      var t := tags[0];
      var f := TagFilter(t);
      assert f[..6] == "tags:\"" && f[|f| - 1] == '"' && f[6..|f| - 1] == t;
      assert UnquoteTag(f) == Some(t);
      var terms := TagFilters(tags);
      assert terms[0] == f;
      assert terms[1..] == TagFilters(tags[1..]);
      UnquoteTagFilters(tags[1..]);
      assert [t] + tags[1..] == tags;
    }
  }

  /** For tags without spaces, the OR-filter reads back as exactly the tags,
      in order: the filter neither loses, adds nor reorders a tag. */
  lemma OrFilterRoundTrip(tags: seq<string>)
    requires |tags| > 0
    requires forall k, i :: 0 <= k < |tags| && 0 <= i < |tags[k]| ==> tags[k][i] != ' '
    ensures ParseOrFilter(OrFilter(tags)) == Some(tags)
  {
    var terms := TagFilters(tags);
    forall k | 0 <= k < |terms|
      ensures !Includes(terms[k], " OR ")
      ensures terms[k] != "" && terms[k][|terms[k]| - 1] !in " OR "
    {
      var t := tags[k];
      assert terms[k] == "tags:\"" + t + "\"";
      NoSpaceNoOr(terms[k]);
    }
    SplitJoin(terms, " OR ");
    var f := OrFilter(tags);
    assert f[1..|f| - 1] == Join(terms, " OR ");
    UnquoteTagFilters(tags);
  }

  /** A known category searches with the OR of its tags, which reads back as
      those tags when they have no spaces (`OrFilterRoundTrip`); a name
      inherited from `Object.prototype` whose `length` is not zero throws;
      every other name falls back to the plain search. */
  lemma CategorySearchCases(category: string)
    ensures var r := CategorySearchFor(category);
      && (r.FilteredSearch? <==> category in CategoryTagMap)
      && (r.FilteredSearch? ==> r.filter == OrFilter(CategoryTagMap[category]))
      && (r.TypeErrorThrown? <==> category in InheritedLengths && InheritedLengths[category] != Some(0))
      && (r.PlainSearch? <==> category !in CategoryTagMap
                              && (category !in InheritedLengths || InheritedLengths[category] == Some(0)))
  {
    if category in CategoryTagMap {
      KnownCategoryHasTags(category);
    }
    if category in InheritedLengths {
      InheritedNotKnown(category);
    }
  }

  lemma InheritedNotKnown(category: string)
    requires category in InheritedLengths
    ensures category !in CategoryTagMap
  {
    CategoryTagMapWellFormed();
  }

  lemma KnownCategoryHasTags(category: string)
    requires category in CategoryTagMap
    ensures |CategoryTagMap[category]| > 0
  {
    CategoryTagMapWellFormed();
  }

  // ---------------------------------------------------------------------
  // Resolving the tag of a subcategory

  /** A spelling to try: a string, or JavaScript's `undefined` (the piece
      after "::" of an id without "::"). */
  datatype Candidate = Tag(text: string) | Undefined {
    /** What a template literal renders for the candidate. */
    function Rendered(): string
    {
      match this
      case Tag(t) => t
      case Undefined => "undefined"
    }

    /** JavaScript truthiness: a non-empty string. */
    predicate Truthy()
    {
      Tag? && text != ""
    }
  }

  /** The four spellings tried for a subcategory id, in order: the id; the id
      with its first "::" replaced by ":"; the second "::"-piece; all pieces
      joined by "_". */
  function TagCandidates(subcategoryId: string): (cs: seq<Candidate>)
    ensures |cs| == 4
  {
    var pieces := Split(subcategoryId, "::");
    [Tag(subcategoryId),
     Tag(ReplaceFirst(subcategoryId, "::", ":")),
     if |pieces| > 1 then Tag(pieces[1]) else Undefined,
     Tag(Join(pieces, "_"))]
  }

  /** The first "::" of `c + "::" + rest` is the one after `c` when `c` has no ':'. */
  lemma FirstSeparatorAfterCategory(c: string, rest: string)
    requires ':' !in c
    ensures IndexOf(c + "::" + rest, "::") == Some(|c|)
  {
    var s := c + "::" + rest;
    assert s[|c|..|c| + 2] == "::";
    assert OccursAt(s, "::", |c|);
    forall j | 0 <= j < |c| ensures !OccursAt(s, "::", j) {
      assert s[j] == c[j];
      assert s[j..j + 2][0] == s[j];
    }
  }

  /** For an id "<c>::<slug>" whose category part has no ':' and whose slug has
      no "::", the candidates are the id, "<c>:<slug>", "<slug>" and "<c>_<slug>". */
  lemma TagCandidatesOfWellFormedId(c: string, slug: string)
    requires ':' !in c && !Includes(slug, "::")
    ensures TagCandidates(c + "::" + slug)
         == [Tag(c + "::" + slug), Tag(c + ":" + slug), Tag(slug), Tag(c + "_" + slug)]
  {
    var id := c + "::" + slug;
    FirstSeparatorAfterCategory(c, slug);
    assert id[..|c|] == c && id[|c| + 2..] == slug;
    assert IndexOf(slug, "::").None?;
    assert Split(slug, "::") == [slug];
    assert Split(id, "::") == [c] + Split(slug, "::");
    assert ReplaceFirst(id, "::", ":") == c + ":" + slug;
    assert Join([c, slug], "_") == c + "_" + Join([slug], "_");
  }

  /** Without "::" in the id, the first, second and fourth candidates are the
      id itself and the third is `undefined`. */
  lemma TagCandidatesWithoutSeparator(id: string)
    requires !Includes(id, "::")
    ensures TagCandidates(id) == [Tag(id), Tag(id), Undefined, Tag(id)]
  {
  }

  /** The probe query sent for a candidate. */
  function ProbeFilter(c: Candidate): string
  {
    TagFilter(c.Rendered())
  }

  function ProbeFilters(cs: seq<Candidate>): (r: seq<string>)
    ensures |r| == |cs| && forall i :: 0 <= i < |cs| ==> r[i] == ProbeFilter(cs[i])
  {
    seq(|cs|, i requires 0 <= i < |cs| => ProbeFilter(cs[i]))
  }

  /** The position of the first candidate whose probe reports hits. `probe`
      answers a filter and a page size with the number of hits returned. */
  function FirstHit(cs: seq<Candidate>, probe: (string, nat) -> nat, size: nat): (k: Option<nat>)
    ensures k.Some? ==> k.value < |cs| && probe(ProbeFilter(cs[k.value]), size) > 0
    ensures k.Some? ==> forall j :: 0 <= j < k.value ==> probe(ProbeFilter(cs[j]), size) == 0
    ensures k.None? ==> forall j :: 0 <= j < |cs| ==> probe(ProbeFilter(cs[j]), size) == 0
  {
    if cs == [] then None
    else if probe(ProbeFilter(cs[0]), size) > 0 then Some(0)
    else match FirstHit(cs[1..], probe, size)
      case None => None
      case Some(k) => Some(k + 1)
  }

  function Min(a: nat, b: nat): nat
  {
    if a < b then a else b
  }

  /** `findWorkingTag`: probes the candidates one at a time with pages of at
      most 5 hits and stops at the first that has hits. `probed` lists the
      filters sent, in order. */
  method FindWorkingTag(subcategoryId: string, hitsPerPage: nat, probe: (string, nat) -> nat)
    returns (working: Option<Candidate>, probed: seq<string>)
    ensures var cs, size := TagCandidates(subcategoryId), Min(hitsPerPage, 5);
      match FirstHit(cs, probe, size)
      case None => working == None && probed == ProbeFilters(cs)
      case Some(k) => working == Some(cs[k]) && probed == ProbeFilters(cs[..k + 1])
  {
    var cs := TagCandidates(subcategoryId);
    var size := Min(hitsPerPage, 5);
    probed := [];
    for i := 0 to |cs|
      invariant probed == ProbeFilters(cs[..i])
      invariant forall j :: 0 <= j < i ==> probe(ProbeFilter(cs[j]), size) == 0
    {
      var filter := ProbeFilter(cs[i]);
      probed := probed + [filter];
      if probe(filter, size) > 0 {
        assert FirstHit(cs, probe, size) == Some(i) by {
          var k := FirstHit(cs, probe, size);
          assert k.Some? && k.value == i;
        }
        return Some(cs[i]), probed;
      }
    }
    assert cs[..|cs|] == cs;
    return None, probed;
  }

  /** `getStrategiesBySubcategory`: the filter of the search it issues, the
      tag filter of the working tag when that tag is a non-empty string, and
      no filter otherwise. */
  method SubcategoryFilter(subcategoryId: string, hitsPerPage: nat, probe: (string, nat) -> nat)
    returns (filter: string, probed: seq<string>)
    ensures var cs, size := TagCandidates(subcategoryId), Min(hitsPerPage, 5);
      match FirstHit(cs, probe, size)
      case None => filter == "" && probed == ProbeFilters(cs)
      case Some(k) =>
        && probed == ProbeFilters(cs[..k + 1])
        && filter == (if cs[k].Truthy() then TagFilter(cs[k].text) else "")
    ensures filter != "" ==> probe(filter, Min(hitsPerPage, 5)) > 0
  {
    var working;
    working, probed := FindWorkingTag(subcategoryId, hitsPerPage, probe);
    if working.Some? && working.value.Truthy() {
      filter := TagFilter(working.value.text);
    } else {
      filter := "";
    }
  }

  // ---------------------------------------------------------------------
  // Normalising a strategy record into a product

  const DefaultProfileImage := "https://d1vuy7y9jvyriv.cloudfront.net/portfolios/default/default.png"

  /** The risk label for an average rebalance activity: above 5 is high,
      above 2 medium, anything else low. */
  function RiskOf(activity: real): (r: Risk)
    ensures r == High <==> activity > 5.0
    ensures r == Medium <==> 2.0 < activity <= 5.0
    ensures r == Low <==> activity <= 2.0
  {
    if activity > 5.0 then High else if activity > 2.0 then Medium else Low
  }

  function RiskRank(r: Risk): nat
  {
    match r
    case Low => 0
    case Medium => 1
    case High => 2
  }

  /** More rebalancing never lowers the risk label. */
  lemma RiskOfMonotone(a: real, b: real)
    requires a <= b
    ensures RiskRank(RiskOf(a)) <= RiskRank(RiskOf(b))
  {
  }

  /** The minimum amount: one percent of the capital, rounded down, but never
      below 100. */
  function MinimumAmount(totalCapital: real): (m: int)
    ensures m >= 100
    ensures m > 100 <==> totalCapital >= 10100.0
    ensures m > 100 ==> m as real <= totalCapital * 0.01 < m as real + 1.0
  {
    var share := (totalCapital * 0.01).Floor;
    if share > 100 then share else 100
  }

  /** The category label: the text before the first ':' of the first tag that
      contains ':', or "Other" when no tag does or that text is empty. */
  predicate HasColon(tag: string)
  {
    Includes(tag, ":")
  }

  function CategoryLabel(tags: seq<string>): (name: string)
    ensures name == "Other" || (name != "" && ':' !in name)
  {
    match Find(tags, HasColon)
    case None => "Other"
    case Some(t) =>
      var head := Before(t, ':');
      if head == "" then "Other" else head
  }

  /** With no ':' in any tag the label is "Other". */
  lemma CategoryLabelWithoutColon(tags: seq<string>)
    requires forall k :: 0 <= k < |tags| ==> ':' !in tags[k]
    ensures CategoryLabel(tags) == "Other"
  {
    forall k | 0 <= k < |tags| ensures !HasColon(tags[k]) {
      IncludesChar(tags[k], ':');
    }
  }

  /** When the first tag with a ':' is "<c>:<rest>" with `c` non-empty and
      free of ':', the label is `c`; tags after it play no part. */
  lemma CategoryLabelOfFirstColonTag(tags: seq<string>, k: nat, c: string, rest: string)
    requires k < |tags| && tags[k] == c + ":" + rest
    requires forall j :: 0 <= j < k ==> ':' !in tags[j]
    requires c != "" && ':' !in c
    ensures CategoryLabel(tags) == c
  {
    forall j | 0 <= j < k ensures !HasColon(tags[j]) {
      IncludesChar(tags[j], ':');
    }
    assert c + ":" + rest == c + [':'] + rest;
    IncludesChar(tags[k], ':');
    FindAt(tags, HasColon, k);
    BeforeOfJoined(c, ':', rest);
  }

  /** When the first tag with a ':' starts with ':', the label is "Other". */
  lemma CategoryLabelOfLeadingColon(tags: seq<string>, k: nat)
    requires k < |tags| && |tags[k]| > 0 && tags[k][0] == ':'
    requires forall j :: 0 <= j < k ==> ':' !in tags[j]
    ensures CategoryLabel(tags) == "Other"
  {
    forall j | 0 <= j < k ensures !HasColon(tags[j]) {
      IncludesChar(tags[j], ':');
    }
    IncludesChar(tags[k], ':');
    FindAt(tags, HasColon, k);
  }

  /** The subcategory id: the first tag containing "::", else the first tag,
      else the empty string. */
  function SubCategoryIdOf(tags: seq<string>): (r: string)
    ensures r == "" || r in tags
    ensures Includes(r, "::") <==> exists k :: 0 <= k < |tags| && Includes(tags[k], "::")
    ensures Includes(r, "::") ==>
      exists k :: 0 <= k < |tags| && tags[k] == r && forall j :: 0 <= j < k ==> !Includes(tags[j], "::")
    ensures !Includes(r, "::") ==> r == (if |tags| > 0 then tags[0] else "")
  {
    match Find(tags, t => Includes(t, "::"))
    case Some(t) => t
    case None =>
      // `tags[0] || ''`: an empty first tag also falls through to ''
      if |tags| > 0 && tags[0] != "" then tags[0] else ""
  }

  /** `convertToInvestmentProduct`'s result. `kind` is the `type` field. */
  datatype ConvertedStrategy = ConvertedStrategy(
    id: string,
    name: string,
    description: string,
    kind: string,
    risk: Risk,
    minimumAmount: int,
    category: string,
    subCategoryId: string,
    ticker: string,
    creatorName: string,
    creatorHandle: string,
    totalCapital: real,
    copiesCount: int,
    lastMonthReturns: real,
    totalReturns: real,
    currentAllocation: seq<Allocation>,
    externalId: string,
    historicalReturns: seq<real>,
    profileImage: string)

  function ConvertToInvestmentProduct(s: Strategy): ConvertedStrategy
  {
    ConvertedStrategy(
      id := IntToString(s.id),
      name := s.strategyName,
      description := s.strategyTagline,
      kind := "Strategy",
      risk := RiskOf(s.averageRebalanceActivity),
      minimumAmount := MinimumAmount(s.totalCapital),
      category := CategoryLabel(s.tags),
      subCategoryId := SubCategoryIdOf(s.tags),
      ticker := s.strategyTicker,
      creatorName := s.creatorName,
      creatorHandle := s.creatorHandle,
      totalCapital := s.totalCapital,
      copiesCount := s.copiesCount,
      lastMonthReturns := s.lastMonthReturns,
      totalReturns := s.totalReturns,
      currentAllocation := s.currentAllocation,
      externalId := s.externalId,
      historicalReturns := s.historicalReturns,
      profileImage := s.profileImageUrl.GetOr(DefaultProfileImage))
  }

  /** What a converted product promises: its id reads back as the record's
      numeric id, so distinct records keep distinct ids; its minimum amount is
      at least 100; a missing image becomes the default one and a present one
      is kept; the label fields are a category label and a tag (or empty). */
  lemma ConvertedProductFacts(s: Strategy)
    ensures var p := ConvertToInvestmentProduct(s);
      && ParseInt(p.id) == Some(s.id)
      && p.minimumAmount >= 100
      && p.profileImage == (if s.profileImageUrl.None? then DefaultProfileImage else s.profileImageUrl.value)
      && (p.category == "Other" || ':' !in p.category)
      && (p.subCategoryId == "" || p.subCategoryId in s.tags)
      && p.kind == "Strategy"
  {
    IntToStringRoundTrip(s.id);
  }

  /** Records with different numeric ids convert to products with different ids. */
  lemma ConvertedIdsDistinct(s: Strategy, t: Strategy)
    requires s.id != t.id
    ensures ConvertToInvestmentProduct(s).id != ConvertToInvestmentProduct(t).id
  {
    if IntToString(s.id) == IntToString(t.id) {
      IntToStringInjective(s.id, t.id);
    }
  }

  // ---------------------------------------------------------------------
  // Similar portfolios

  /** The comparator `b.fraction - a.fraction` as a "must come before"
      relation: the larger fraction goes first. */
  const HeavierFirst: (Allocation, Allocation) -> bool :=
    (x: Allocation, y: Allocation) => x.fraction > y.fraction

  lemma HeavierFirstIsConsistent()
    ensures StrictWeakOrder(HeavierFirst)
  {
  }

  /** The at most three heaviest allocations, heaviest first; they are
      drawn from the input. */
  function TopAllocations(allocations: seq<Allocation>): (top: seq<Allocation>)
    ensures |top| == if |allocations| < 3 then |allocations| else 3
    ensures multiset(top) <= multiset(allocations)
  {
    var sorted := Sort(allocations, HeavierFirst);
    var top := Take(sorted, 3);
    assert sorted == top + sorted[|top|..];
    top
  }

  function Tickers(allocations: seq<Allocation>): (r: seq<string>)
    ensures |r| == |allocations|
    ensures forall k :: 0 <= k < |r| ==> r[k] == allocations[k].ticker
  {
    seq(|allocations|, k requires 0 <= k < |allocations| => allocations[k].ticker)
  }

  /** The top allocations are ordered by weight, heaviest first. */
  lemma TopAllocationsOrdered(allocations: seq<Allocation>)
    ensures var top := TopAllocations(allocations);
      forall i, j :: 0 <= i < j < |top| ==> top[i].fraction >= top[j].fraction
  {
    HeavierFirstIsConsistent();
    SortSorted(allocations, HeavierFirst);
  }

  /** No allocation left out is heavier than one taken. */
  lemma TopAllocationsOutweighRest(allocations: seq<Allocation>)
    ensures var top := TopAllocations(allocations);
      forall x: Allocation, y: Allocation ::
        x in multiset(top) && y in multiset(allocations) - multiset(top) ==> x.fraction >= y.fraction
  {
    var sorted := Sort(allocations, HeavierFirst);
    var top := TopAllocations(allocations);
    HeavierFirstIsConsistent();
    SortSorted(allocations, HeavierFirst);
    SortedSplit(sorted, |top|, HeavierFirst);
    assert sorted[..|top|] == top;
    assert sorted == top + sorted[|top|..];
    assert multiset(allocations) - multiset(top) == multiset(sorted[|top|..]);
  }

  /** Among allocations of equal weight, the earlier ones are taken first. */
  lemma TopAllocationsKeepTies(allocations: seq<Allocation>, v: Allocation)
    ensures Equivalents(TopAllocations(allocations), v, HeavierFirst)
         <= Equivalents(allocations, v, HeavierFirst)
  {
    HeavierFirstIsConsistent();
    EquivalentsOfPrefix(TopAllocations(allocations), Sort(allocations, HeavierFirst), v, HeavierFirst);
    SortStable(allocations, v, HeavierFirst);
  }

  /** The request for strategies resembling `base`: each of its tags and each
      of its three heaviest tickers as an optional filter, and a band of
      plus or minus 0.05 around its last month's returns. */
  datatype SimilarityQuery = SimilarityQuery(
    hitsPerPage: nat,
    optionalFilters: seq<string>,
    minReturn: real,
    maxReturn: real)

  function OptionalFilters(tags: seq<string>, tickers: seq<string>): seq<string>
  {
    seq(|tags|, k requires 0 <= k < |tags| => "tags:" + tags[k])
      + seq(|tickers|, k requires 0 <= k < |tickers| => "currentAllocation.ticker:" + tickers[k])
  }

  function SimilarityQueryFor(base: Strategy, hitsPerPage: nat): (q: SimilarityQuery)
    ensures q.minReturn < base.lastMonthReturns < q.maxReturn
    ensures q.maxReturn - q.minReturn == 0.1
    ensures |q.optionalFilters| == |base.tags| + |TopAllocations(base.currentAllocation)|
  {
    SimilarityQuery(
      hitsPerPage,
      OptionalFilters(base.tags, Tickers(TopAllocations(base.currentAllocation))),
      base.lastMonthReturns - 0.05,
      base.lastMonthReturns + 0.05)
  }

  /** The filters of a similarity query name every tag of the base and the
      tickers of its heaviest allocations, in that order. */
  lemma SimilarityFiltersNameTagsAndTickers(base: Strategy, hitsPerPage: nat)
    ensures var q := SimilarityQueryFor(base, hitsPerPage);
      var top := TopAllocations(base.currentAllocation);
      && (forall k :: 0 <= k < |base.tags| ==> q.optionalFilters[k] == "tags:" + base.tags[k])
      && (forall k :: 0 <= k < |top| ==>
            q.optionalFilters[|base.tags| + k] == "currentAllocation.ticker:" + top[k].ticker)
  {
  }

  function HasExternalId(externalId: string): Strategy -> bool
  {
    (h: Strategy) => h.externalId == externalId
  }

  /** The hits other than the one whose external id is `externalId`. */
  function ExcludeExternalId(hits: seq<Strategy>, externalId: string): (r: seq<Strategy>)
    ensures forall k :: 0 <= k < |r| ==> r[k].externalId != externalId
    ensures forall k :: 0 <= k < |hits| && hits[k].externalId != externalId ==> hits[k] in r
    ensures IsSubsequence(r, hits)
    ensures multiset(r) + multiset(Filter(hits, HasExternalId(externalId))) == multiset(hits)
  {
    var keep := (h: Strategy) => h.externalId != externalId;
    FilterIsSubsequence(hits, keep);
    FilterComplement(hits, keep, HasExternalId(externalId));
    Filter(hits, keep)
  }

  /** The empty answer returned when no base portfolio is found. */
  const EmptyResponse := SearchResponse([], 0, 0, 0, 0, 0, false, "", "")

  /** `getSimilarPortfolios` answers in one of two shapes. */
  datatype SimilarResult = NoBase(response: SearchResponse) | Similar(hits: seq<Strategy>)

  /** Looks up the base portfolio by a one-hit text query for `externalId`,
      sorts its allocations by weight in place, asks for strategies sharing
      its tags and top tickers within its return band, and drops the hit
      with `externalId` itself. `lookup(text, size)` and `search` stand for
      the index. */
  method GetSimilarPortfolios(externalId: string, hitsPerPage: nat,
      lookup: (string, nat) -> seq<Strategy>, search: SimilarityQuery -> seq<Strategy>)
    returns (result: SimilarResult)
    ensures lookup(externalId, 1) == [] ==> result == NoBase(EmptyResponse)
    ensures lookup(externalId, 1) != [] ==>
      var base := lookup(externalId, 1)[0];
      result == Similar(ExcludeExternalId(search(SimilarityQueryFor(base, hitsPerPage)), externalId))
  {
    var baseHits := lookup(externalId, 1);
    if |baseHits| == 0 {
      return NoBase(EmptyResponse);
    }
    var base := baseHits[0];
    var allocations := new Allocation[|base.currentAllocation|](
      k requires 0 <= k < |base.currentAllocation| => base.currentAllocation[k]);
    assert allocations[..] == base.currentAllocation;
    SortInPlace(allocations, HeavierFirst);
    var top := Take(allocations[..], 3);
    assert top == TopAllocations(base.currentAllocation);
    var query := SimilarityQuery(
      hitsPerPage,
      OptionalFilters(base.tags, Tickers(top)),
      base.lastMonthReturns - 0.05,
      base.lastMonthReturns + 0.05);
    assert query == SimilarityQueryFor(base, hitsPerPage);
    var hits := search(query);
    result := Similar(ExcludeExternalId(hits, externalId));
  }

  // ---------------------------------------------------------------------
  // The tag inventory

  /** Default string order, `Array.prototype.sort()` without a comparator,
      compared code point by code point. */
  const CodePointOrder: (string, string) -> bool := (x: string, y: string) => Less(x, y)

  lemma CodePointOrderIsConsistent()
    ensures StrictWeakOrder(CodePointOrder)
  {
    forall x: string, y: string | Less(x, y) ensures !Less(y, x) {
      LessAsymmetric(x, y);
    }
    forall x: string, y: string, z: string | !Less(x, y) && !Less(y, z) ensures !Less(x, z) {
      if x != y && y != z {
        LessTotal(x, y);
        LessTotal(y, z);
        LessTransitive(z, y, x);
        LessAsymmetric(z, x);
      }
    }
  }

  /** Adds each of `ts` to the set `seen` kept as a sequence in insertion
      order, as a JavaScript `Set` does. */
  function AddAll(seen: seq<string>, ts: seq<string>): (r: seq<string>)
    ensures seen <= r
    ensures forall t :: t in r <==> t in seen || t in ts
    ensures Distinct(seen) ==> Distinct(r)
    decreases |ts|
  {
    if ts == [] then seen
    else
      var next := if ts[0] in seen then seen else seen + [ts[0]];
      AddAll(next, ts[1..])
  }

  /** The tags of `hits`, each once, in order of first appearance. */
  function TagsInOrder(hits: seq<Strategy>): (r: seq<string>)
    ensures Distinct(r)
    ensures forall t :: t in r <==> exists k :: 0 <= k < |hits| && t in hits[k].tags
    decreases |hits|
  {
    if hits == [] then []
    else
      var init := hits[..|hits| - 1];
      var r := AddAll(TagsInOrder(init), hits[|hits| - 1].tags);
      assert forall t :: t in r <==> exists k :: 0 <= k < |hits| && t in hits[k].tags by {
        forall t | t in r ensures exists k :: 0 <= k < |hits| && t in hits[k].tags {
          if t !in hits[|hits| - 1].tags {
            var k :| 0 <= k < |init| && t in init[k].tags;
            assert hits[k] == init[k];
          }
        }
        forall t | exists k :: 0 <= k < |hits| && t in hits[k].tags ensures t in r {
          var k :| 0 <= k < |hits| && t in hits[k].tags;
          if k < |hits| - 1 {
            assert init[k] == hits[k];
          }
        }
      }
      r
  }

  /** `debugAvailableTags`: every tag of the first `hitsPerPage` strategies
      of an unfiltered search, each once, in code-unit order. `search(size)`
      stands for the index. */
  method AvailableTags(hitsPerPage: nat, search: nat -> seq<Strategy>) returns (tags: seq<string>)
    ensures tags == Sort(TagsInOrder(search(hitsPerPage)), CodePointOrder)
  {
    var hits := search(hitsPerPage);
    var seen: seq<string> := [];
    for i := 0 to |hits|
      invariant seen == TagsInOrder(hits[..i])
    {
      var strategyTags := hits[i].tags;
      ghost var before := seen;
      for k := 0 to |strategyTags|
        invariant AddAll(before, strategyTags) == AddAll(seen, strategyTags[k..])
      {
        if strategyTags[k] !in seen {
          seen := seen + [strategyTags[k]];
        }
        assert strategyTags[k..][1..] == strategyTags[k + 1..];
      }
      assert hits[..i + 1][..i] == hits[..i];
    }
    assert hits[..|hits|] == hits;
    var sorted := new string[|seen|](k requires 0 <= k < |seen| => seen[k]);
    assert sorted[..] == seen;
    SortInPlace(sorted, CodePointOrder);
    tags := sorted[..];
  }

  /** The tag inventory is strictly increasing (so without repetitions) and
      holds exactly the tags of the hits. */
  lemma AvailableTagsSpec(hits: seq<Strategy>)
    ensures var tags := Sort(TagsInOrder(hits), CodePointOrder);
      && (forall i, j :: 0 <= i < j < |tags| ==> Less(tags[i], tags[j]))
      && (forall t :: t in tags <==> exists k :: 0 <= k < |hits| && t in hits[k].tags)
  {
    var inOrder := TagsInOrder(hits);
    var tags := Sort(inOrder, CodePointOrder);
    CodePointOrderIsConsistent();
    SortSorted(inOrder, CodePointOrder);
    DistinctOfPermutation(inOrder, tags);
    forall i, j | 0 <= i < j < |tags| ensures Less(tags[i], tags[j]) {
      assert !Less(tags[j], tags[i]);
      LessTotal(tags[i], tags[j]);
    }
    forall t ensures t in tags <==> t in inOrder {
      assert t in multiset(tags) <==> t in multiset(inOrder);
    }
  }
}

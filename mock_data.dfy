/** The static catalog (categories, subcategories and products) and the
    grouping of a subcategory's products into rows by their category label. */
module MockData {
  import opened Wrappers
  import opened Sequences
  import opened Text
  import opened InvestmentTypes
  import opened CategoryRows

  // ---------------------------------------------------------------------
  // The catalog (icons and colours are presentation only)

  const Categories: seq<Category> := [
    Category("sector", "Sector", "Dominant Economic Sectors",
      "Used to identify the structural economic theme of the portfolio. This category helps you understand which economic sectors will drive the performance of your investments."),
    Category("thesis", "Thesis", "Core Investment Narrative",
      "This is the layer that explains why the portfolio exists. It represents the central investment hypothesis and the fundamental reasoning behind the strategy."),
    Category("stage", "Stage", "Thesis Maturity Phase",
      "Used to convey the maturity profile of assets without explicitly discussing risk. This helps understand whether investments are in early, growth, or mature phases."),
    Category("geo", "Geo", "Geographic Exposure",
      "Defines where value comes from, not just where the company is listed. This category focuses on the geographical sources of revenue and economic exposure."),
    Category("horizon", "Horizon", "Thesis Maturation Time",
      "Helps communicate time expectations without suggesting returns. This category guides you on the expected timeframe for the investment thesis to materialize."),
    Category("composition", "Composition", "Portfolio Structure",
      "Helps users understand the format and structure of the portfolio, not the risk. This focuses on how the portfolio is constructed and what types of instruments it contains.")
  ]

  const SectorSubCategories: seq<SubCategory> := [
    SubCategory("sector::technology_ai", "Technology & AI", "Tech innovation and artificial intelligence", "sector"),
    SubCategory("sector::consumer_trends", "Consumer Trends", "Evolving consumer behavior & brands", "sector"),
    SubCategory("sector::biotech_healthcare", "Biotech & Healthcare", "Medical breakthroughs & healthcare services", "sector"),
    SubCategory("sector::industrials_core", "Industrials Core", "Manufacturing, infrastructure & logistics", "sector"),
    SubCategory("sector::defense_aerospace", "Defense & Aerospace", "Military contracts & space technology", "sector"),
    SubCategory("sector::finance_value", "Finance & Value", "Banking, insurance & financial services", "sector"),
    SubCategory("sector::metals_mining", "Metals & Mining", "Precious metals, copper, lithium extraction", "sector"),
    SubCategory("sector::real_assets", "Real Assets", "Real estate, infrastructure & tangible assets", "sector")
  ]

  const ThesisSubCategories: seq<SubCategory> := [
    SubCategory("thesis::innovation_wave", "Innovation Wave", "Disruptive technologies reshaping industries", "thesis"),
    SubCategory("thesis::long_term_compounders", "Long-term Compounders", "Quality businesses with sustainable moats", "thesis"),
    SubCategory("thesis::deep_value_recovery", "Deep Value Recovery", "Undervalued assets with turnaround potential", "thesis"),
    SubCategory("thesis::electrification_pipeline", "Electrification Pipeline", "Electric vehicles & energy storage ecosystem", "thesis"),
    SubCategory("thesis::nuclear_cycle", "Nuclear Cycle", "Nuclear energy renaissance & uranium supply", "thesis"),
    SubCategory("thesis::commodity_supercycle", "Commodity Supercycle", "Multi-year commodity price appreciation", "thesis"),
    SubCategory("thesis::space_economy", "Space Economy", "Commercial space ventures & satellite tech", "thesis"),
    SubCategory("thesis::defense_spending_cycle", "Defense Spending Cycle", "Geopolitical tensions driving military spending", "thesis"),
    SubCategory("thesis::demographic_trend", "Demographic Trend", "Aging populations & healthcare demand", "thesis")
  ]

  const StageSubCategories: seq<SubCategory> := [
    SubCategory("stage::early_stage", "Early Stage", "Emerging companies with high growth potential", "stage"),
    SubCategory("stage::growth", "Growth", "Scaling companies with proven business models", "stage"),
    SubCategory("stage::established", "Established", "Mature market leaders with stable returns", "stage"),
    SubCategory("stage::mixed", "Mixed", "Diversified portfolio across all growth stages", "stage")
  ]

  const GeoSubCategories: seq<SubCategory> := [
    SubCategory("geo::us_focus", "US Focus", "American market concentration & exposure", "geo"),
    SubCategory("geo::global_multi_region", "Global Multi-Region", "Diversified international exposure", "geo"),
    SubCategory("geo::commodity_exporters", "Commodity Exporters", "Resource-rich emerging market exposure", "geo"),
    SubCategory("geo::china_focus", "China Focus", "Chinese market & supply chain exposure", "geo")
  ]

  const HorizonSubCategories: seq<SubCategory> := [
    SubCategory("horizon::long_term_structural", "Long-term Structural", "5-10 year mega-trend positioning", "horizon"),
    SubCategory("horizon::thematic", "Thematic", "2-5 year investment themes", "horizon"),
    SubCategory("horizon::cyclical_repricing", "Cyclical Repricing", "1-3 year economic cycle plays", "horizon"),
    SubCategory("horizon::tactical_opportunity", "Tactical Opportunity", "6-18 month market inefficiencies", "horizon")
  ]

  const CompositionSubCategories: seq<SubCategory> := [
    SubCategory("composition::single_stocks_only", "Single Stocks Only", "Individual stock selection strategy", "composition"),
    SubCategory("composition::mixed_assets", "Mixed Assets", "Stocks, bonds, REITs & alternatives", "composition"),
    SubCategory("composition::etf_core", "ETF Core", "ETF-focused portfolio construction", "composition"),
    SubCategory("composition::etf_satellite", "ETF Satellite", "Core holdings with targeted ETF exposure", "composition")
  ]

  const SubCategories: seq<SubCategory> :=
    SectorSubCategories + ThesisSubCategories + StageSubCategories + GeoSubCategories + HorizonSubCategories + CompositionSubCategories

  // The products, in catalog order, listed per subcategory.
  const TechnologyAiProducts: seq<InvestmentProduct> := [
    InvestmentProduct("1", "NVIDIA Corp", "Leading AI chip manufacturer", "Stock", High,
      "Variable", 500, "AI Hardware", "sector::technology_ai", None, Some("NVDA")),
    InvestmentProduct("2", "Microsoft Corp", "Cloud computing & AI services", "Stock", Medium,
      "Variable", 400, "Cloud Computing", "sector::technology_ai", None, Some("MSFT")),
    InvestmentProduct("3", "VanEck Semiconductor ETF", "Semiconductor industry exposure", "ETF", Medium,
      "12-18% annually", 100, "Tech Hardware", "sector::technology_ai", None, Some("SMH"))
  ]

  const BiotechHealthcareProducts: seq<InvestmentProduct> := [
    InvestmentProduct("4", "Moderna Inc", "mRNA technology pioneer", "Stock", High,
      "Variable", 200, "Biotechnology", "sector::biotech_healthcare", None, Some("MRNA")),
    InvestmentProduct("5", "Johnson & Johnson", "Diversified healthcare giant", "Stock", Low,
      "8-10% annually", 300, "Pharmaceuticals", "sector::biotech_healthcare", None, Some("JNJ"))
  ]

  const DefenseAerospaceProducts: seq<InvestmentProduct> := [
    InvestmentProduct("6", "Lockheed Martin", "Defense contractor leader", "Stock", Medium,
      "10-12% annually", 400, "Defense Contractors", "sector::defense_aerospace", None, Some("LMT")),
    InvestmentProduct("7", "SpaceX Ventures Fund", "Private space company exposure", "Fund", High,
      "20-30% annually", 5000, "Space Technology", "sector::defense_aerospace", None, Some("SPACEX"))
  ]

  const InnovationWaveProducts: seq<InvestmentProduct> := [
    InvestmentProduct("8", "ARK Innovation ETF", "Disruptive innovation fund", "ETF", High,
      "15-25% annually", 250, "Innovation Funds", "thesis::innovation_wave", None, Some("ARKK")),
    InvestmentProduct("9", "Tesla Inc", "Electric vehicle & energy innovation", "Stock", High,
      "Variable", 600, "EV Technology", "thesis::innovation_wave", None, Some("TSLA"))
  ]

  const NuclearCycleProducts: seq<InvestmentProduct> := [
    InvestmentProduct("10", "Cameco Corporation", "Uranium mining leader", "Stock", High,
      "Variable", 300, "Uranium Mining", "thesis::nuclear_cycle", None, Some("CCJ")),
    InvestmentProduct("11", "Global X Uranium ETF", "Nuclear energy supply chain", "ETF", High,
      "18-28% annually", 200, "Nuclear Energy", "thesis::nuclear_cycle", None, Some("URA"))
  ]

  const EarlyStageProducts: seq<InvestmentProduct> := [
    InvestmentProduct("12", "Venture Capital Fund III", "Early-stage startup investments", "Fund", High,
      "25-40% annually", 10000, "Venture Capital", "stage::early_stage", None, None),
    InvestmentProduct("13", "Growth Equity Fund", "High-growth private companies", "Fund", High,
      "20-30% annually", 5000, "Growth Equity", "stage::early_stage", None, None)
  ]

  const UsFocusProducts: seq<InvestmentProduct> := [
    InvestmentProduct("14", "S&P 500 ETF", "US large-cap market index", "ETF", Medium,
      "10-12% annually", 100, "US Index Funds", "geo::us_focus", None, None),
    InvestmentProduct("15", "Russell 2000 ETF", "US small-cap exposure", "ETF", Medium,
      "12-15% annually", 150, "Small Cap Index", "geo::us_focus", None, None)
  ]

  const LongTermStructuralProducts: seq<InvestmentProduct> := [
    InvestmentProduct("16", "Infrastructure Fund", "Global infrastructure investments", "Fund", Medium,
      "8-12% annually", 1000, "Infrastructure", "horizon::long_term_structural", None, None),
    InvestmentProduct("17", "Clean Energy Transition", "Renewable energy mega-trend", "ETF", Medium,
      "10-15% annually", 200, "Energy Transition", "horizon::long_term_structural", None, None)
  ]

  const SingleStocksOnlyProducts: seq<InvestmentProduct> := [
    InvestmentProduct("18", "Apple Inc", "Technology ecosystem leader", "Stock", Medium,
      "Variable", 400, "Large Cap Tech", "composition::single_stocks_only", None, None),
    InvestmentProduct("19", "Berkshire Hathaway", "Value investing conglomerate", "Stock", Low,
      "Variable", 300, "Value Stocks", "composition::single_stocks_only", None, None)
  ]

  const InvestmentProducts: seq<InvestmentProduct> :=
    TechnologyAiProducts + BiotechHealthcareProducts + DefenseAerospaceProducts + InnovationWaveProducts + NuclearCycleProducts
    + EarlyStageProducts + UsFocusProducts + LongTermStructuralProducts + SingleStocksOnlyProducts

  // ---------------------------------------------------------------------
  // Referential integrity of the catalog

  /** `s` belongs to `categoryId` and its id is spelled "<categoryId>::<slug>". */
  predicate SpelledUnder(s: SubCategory, categoryId: string)
  {
    s.categoryId == categoryId && categoryId + "::" <= s.id
  }

  predicate UniqueIds(subs: seq<SubCategory>)
  {
    forall i, j :: 0 <= i < j < |subs| ==> subs[i].id != subs[j].id
  }

  predicate AllSpelledUnder(group: seq<SubCategory>, categoryId: string)
  {
    forall k :: 0 <= k < |group| ==> SpelledUnder(group[k], categoryId)
  }

  // One lemma per entry keeps each proof small.
  lemma SectorSpelled0() ensures SpelledUnder(SectorSubCategories[0], "sector") { assert SectorSubCategories[0].id[..8] == "sector::"; }
  lemma SectorSpelled1() ensures SpelledUnder(SectorSubCategories[1], "sector") { assert SectorSubCategories[1].id[..8] == "sector::"; }
  lemma SectorSpelled2() ensures SpelledUnder(SectorSubCategories[2], "sector") { assert SectorSubCategories[2].id[..8] == "sector::"; }
  lemma SectorSpelled3() ensures SpelledUnder(SectorSubCategories[3], "sector") { assert SectorSubCategories[3].id[..8] == "sector::"; }
  lemma SectorSpelled4() ensures SpelledUnder(SectorSubCategories[4], "sector") { assert SectorSubCategories[4].id[..8] == "sector::"; }
  lemma SectorSpelled5() ensures SpelledUnder(SectorSubCategories[5], "sector") { assert SectorSubCategories[5].id[..8] == "sector::"; }
  lemma SectorSpelled6() ensures SpelledUnder(SectorSubCategories[6], "sector") { assert SectorSubCategories[6].id[..8] == "sector::"; }
  lemma SectorSpelled7() ensures SpelledUnder(SectorSubCategories[7], "sector") { assert SectorSubCategories[7].id[..8] == "sector::"; }
  lemma SectorGroupSpelled() ensures AllSpelledUnder(SectorSubCategories, "sector") {
    SectorSpelled0(); SectorSpelled1(); SectorSpelled2(); SectorSpelled3(); SectorSpelled4(); SectorSpelled5(); SectorSpelled6(); SectorSpelled7();
  }

  lemma ThesisSpelled0() ensures SpelledUnder(ThesisSubCategories[0], "thesis") { assert ThesisSubCategories[0].id[..8] == "thesis::"; }
  lemma ThesisSpelled1() ensures SpelledUnder(ThesisSubCategories[1], "thesis") { assert ThesisSubCategories[1].id[..8] == "thesis::"; }
  lemma ThesisSpelled2() ensures SpelledUnder(ThesisSubCategories[2], "thesis") { assert ThesisSubCategories[2].id[..8] == "thesis::"; }
  lemma ThesisSpelled3() ensures SpelledUnder(ThesisSubCategories[3], "thesis") { assert ThesisSubCategories[3].id[..8] == "thesis::"; }
  lemma ThesisSpelled4() ensures SpelledUnder(ThesisSubCategories[4], "thesis") { assert ThesisSubCategories[4].id[..8] == "thesis::"; }
  lemma ThesisSpelled5() ensures SpelledUnder(ThesisSubCategories[5], "thesis") { assert ThesisSubCategories[5].id[..8] == "thesis::"; }
  lemma ThesisSpelled6() ensures SpelledUnder(ThesisSubCategories[6], "thesis") { assert ThesisSubCategories[6].id[..8] == "thesis::"; }
  lemma ThesisSpelled7() ensures SpelledUnder(ThesisSubCategories[7], "thesis") { assert ThesisSubCategories[7].id[..8] == "thesis::"; }
  lemma ThesisSpelled8() ensures SpelledUnder(ThesisSubCategories[8], "thesis") { assert ThesisSubCategories[8].id[..8] == "thesis::"; }
  lemma ThesisGroupSpelled() ensures AllSpelledUnder(ThesisSubCategories, "thesis") {
    ThesisSpelled0(); ThesisSpelled1(); ThesisSpelled2(); ThesisSpelled3(); ThesisSpelled4(); ThesisSpelled5(); ThesisSpelled6(); ThesisSpelled7(); ThesisSpelled8();
  }

  lemma StageSpelled0() ensures SpelledUnder(StageSubCategories[0], "stage") { assert StageSubCategories[0].id[..7] == "stage::"; }
  lemma StageSpelled1() ensures SpelledUnder(StageSubCategories[1], "stage") { assert StageSubCategories[1].id[..7] == "stage::"; }
  lemma StageSpelled2() ensures SpelledUnder(StageSubCategories[2], "stage") { assert StageSubCategories[2].id[..7] == "stage::"; }
  lemma StageSpelled3() ensures SpelledUnder(StageSubCategories[3], "stage") { assert StageSubCategories[3].id[..7] == "stage::"; }
  lemma StageGroupSpelled() ensures AllSpelledUnder(StageSubCategories, "stage") {
    StageSpelled0(); StageSpelled1(); StageSpelled2(); StageSpelled3();
  }

  lemma GeoSpelled0() ensures SpelledUnder(GeoSubCategories[0], "geo") { assert GeoSubCategories[0].id[..5] == "geo::"; }
  lemma GeoSpelled1() ensures SpelledUnder(GeoSubCategories[1], "geo") { assert GeoSubCategories[1].id[..5] == "geo::"; }
  lemma GeoSpelled2() ensures SpelledUnder(GeoSubCategories[2], "geo") { assert GeoSubCategories[2].id[..5] == "geo::"; }
  lemma GeoSpelled3() ensures SpelledUnder(GeoSubCategories[3], "geo") { assert GeoSubCategories[3].id[..5] == "geo::"; }
  lemma GeoGroupSpelled() ensures AllSpelledUnder(GeoSubCategories, "geo") {
    GeoSpelled0(); GeoSpelled1(); GeoSpelled2(); GeoSpelled3();
  }

  lemma HorizonSpelled0() ensures SpelledUnder(HorizonSubCategories[0], "horizon") { assert HorizonSubCategories[0].id[..9] == "horizon::"; }
  lemma HorizonSpelled1() ensures SpelledUnder(HorizonSubCategories[1], "horizon") { assert HorizonSubCategories[1].id[..9] == "horizon::"; }
  lemma HorizonSpelled2() ensures SpelledUnder(HorizonSubCategories[2], "horizon") { assert HorizonSubCategories[2].id[..9] == "horizon::"; }
  lemma HorizonSpelled3() ensures SpelledUnder(HorizonSubCategories[3], "horizon") { assert HorizonSubCategories[3].id[..9] == "horizon::"; }
  lemma HorizonGroupSpelled() ensures AllSpelledUnder(HorizonSubCategories, "horizon") {
    HorizonSpelled0(); HorizonSpelled1(); HorizonSpelled2(); HorizonSpelled3();
  }

  lemma CompositionSpelled0() ensures SpelledUnder(CompositionSubCategories[0], "composition") { assert CompositionSubCategories[0].id[..13] == "composition::"; }
  lemma CompositionSpelled1() ensures SpelledUnder(CompositionSubCategories[1], "composition") { assert CompositionSubCategories[1].id[..13] == "composition::"; }
  lemma CompositionSpelled2() ensures SpelledUnder(CompositionSubCategories[2], "composition") { assert CompositionSubCategories[2].id[..13] == "composition::"; }
  lemma CompositionSpelled3() ensures SpelledUnder(CompositionSubCategories[3], "composition") { assert CompositionSubCategories[3].id[..13] == "composition::"; }
  lemma CompositionGroupSpelled() ensures AllSpelledUnder(CompositionSubCategories, "composition") {
    CompositionSpelled0(); CompositionSpelled1(); CompositionSpelled2(); CompositionSpelled3();
  }

  lemma SectorGroupUnique() ensures UniqueIds(SectorSubCategories) {}
  lemma ThesisGroupUnique() ensures UniqueIds(ThesisSubCategories) {}
  lemma StageGroupUnique() ensures UniqueIds(StageSubCategories) {}
  lemma GeoGroupUnique() ensures UniqueIds(GeoSubCategories) {}
  lemma HorizonGroupUnique() ensures UniqueIds(HorizonSubCategories) {}
  lemma CompositionGroupUnique() ensures UniqueIds(CompositionSubCategories) {}

  /** Ids spelled under two different categories (neither containing ':')
      differ: at the end of the shorter category one id has ':' and the other
      does not, or the categories already differ within their common length. */
  lemma DifferentCategoriesDifferentIds(x: SubCategory, a: string, y: SubCategory, b: string)
    requires SpelledUnder(x, a) && SpelledUnder(y, b)
    requires a != b && ':' !in a && ':' !in b
    ensures x.id != y.id
  {
    assert x.id[..|a| + 2] == a + "::" && y.id[..|b| + 2] == b + "::";
    if |a| < |b| {
      assert x.id[|a|] == ':' && y.id[|a|] == b[|a|];
    } else if |b| < |a| {
      assert y.id[|b|] == ':' && x.id[|b|] == a[|b|];
    } else {
      var i :| 0 <= i < |a| && a[i] != b[i];
      assert x.id[i] == a[i] && y.id[i] == b[i];
    }
  }

  /** `s` is spelled under one of `categoryIds`. */
  predicate UnderOneOf(s: SubCategory, categoryIds: seq<string>)
  {
    exists c :: 0 <= c < |categoryIds| && SpelledUnder(s, categoryIds[c])
  }

  /** Every subcategory of `subs` is spelled under one of `categoryIds`. */
  predicate SpelledUnderSome(subs: seq<SubCategory>, categoryIds: seq<string>)
  {
    forall k :: 0 <= k < |subs| ==> UnderOneOf(subs[k], categoryIds)
  }

  lemma AppendGroup(done: seq<SubCategory>, doneIds: seq<string>, group: seq<SubCategory>, categoryId: string)
    requires SpelledUnderSome(done, doneIds) && UniqueIds(done)
    requires AllSpelledUnder(group, categoryId) && UniqueIds(group)
    requires categoryId !in doneIds && ':' !in categoryId
    requires forall c :: 0 <= c < |doneIds| ==> ':' !in doneIds[c]
    ensures SpelledUnderSome(done + group, doneIds + [categoryId])
    ensures UniqueIds(done + group)
  {
    var all, ids := done + group, doneIds + [categoryId];
    forall k | 0 <= k < |all| ensures UnderOneOf(all[k], ids) {
      if k < |done| {
        assert UnderOneOf(done[k], doneIds);
        var c :| 0 <= c < |doneIds| && SpelledUnder(done[k], doneIds[c]);
        assert ids[c] == doneIds[c];
      } else {
        assert all[k] == group[k - |done|] && ids[|doneIds|] == categoryId;
        assert SpelledUnder(all[k], ids[|doneIds|]);
      }
    }
    forall i, j | 0 <= i < j < |all| ensures all[i].id != all[j].id {
      if j >= |done| && i < |done| {
        assert UnderOneOf(done[i], doneIds);
        var c :| 0 <= c < |doneIds| && SpelledUnder(done[i], doneIds[c]);
        DifferentCategoriesDifferentIds(done[i], doneIds[c], group[j - |done|], categoryId);
      } else if i >= |done| {
        assert all[i] == group[i - |done|] && all[j] == group[j - |done|];
      }
    }
  }

  /** The category ids, in catalog order. */
  function CategoryIds(): (ids: seq<string>)
    ensures |ids| == |Categories|
    ensures forall c :: 0 <= c < |ids| ==> ids[c] == Categories[c].id
  {
    seq(|Categories|, c requires 0 <= c < |Categories| => Categories[c].id)
  }

  lemma CategoryIdsAre()
    ensures CategoryIds() == ["sector", "thesis", "stage", "geo", "horizon", "composition"]
  {
  }

  lemma SingleGroup(group: seq<SubCategory>, categoryId: string)
    requires AllSpelledUnder(group, categoryId)
    ensures SpelledUnderSome(group, [categoryId])
  {
    forall k | 0 <= k < |group| ensures UnderOneOf(group[k], [categoryId]) {
      assert SpelledUnder(group[k], [categoryId][0]);
    }
  }

  /** The six groups, appended in catalog order under the six category ids. */
  lemma GroupsWellFormed()
    ensures SpelledUnderSome(SubCategories, ["sector"] + ["thesis"] + ["stage"] + ["geo"] + ["horizon"] + ["composition"])
    ensures UniqueIds(SubCategories)
  {
    SectorGroupSpelled(); SectorGroupUnique();
    ThesisGroupSpelled(); ThesisGroupUnique();
    StageGroupSpelled(); StageGroupUnique();
    GeoGroupSpelled(); GeoGroupUnique();
    HorizonGroupSpelled(); HorizonGroupUnique();
    CompositionGroupSpelled(); CompositionGroupUnique();
    var done, ids := SectorSubCategories, ["sector"];
    SingleGroup(done, "sector");
    AppendGroup(done, ids, ThesisSubCategories, "thesis");
    done, ids := done + ThesisSubCategories, ids + ["thesis"];
    AppendGroup(done, ids, StageSubCategories, "stage");
    done, ids := done + StageSubCategories, ids + ["stage"];
    AppendGroup(done, ids, GeoSubCategories, "geo");
    done, ids := done + GeoSubCategories, ids + ["geo"];
    AppendGroup(done, ids, HorizonSubCategories, "horizon");
    done, ids := done + HorizonSubCategories, ids + ["horizon"];
    AppendGroup(done, ids, CompositionSubCategories, "composition");
  }

  /** Every subcategory names one of the six categories and is spelled
      "<categoryId>::<slug>" under it, and no two subcategories share an id. */
  lemma SubCategoriesWellFormed()
    ensures SpelledUnderSome(SubCategories, CategoryIds())
    ensures UniqueIds(SubCategories)
  {
    GroupsWellFormed();
    CategoryIdsAre();
    assert CategoryIds() == ["sector"] + ["thesis"] + ["stage"] + ["geo"] + ["horizon"] + ["composition"];
  }

  // ---------------------------------------------------------------------
  // Referential integrity of the products

  /** `id` is the id of a subcategory of the catalog. */
  predicate KnownSubCategory(id: string)
  {
    exists s :: s in SubCategories && s.id == id
  }

  /** Product `k` of `ps` has the id `n + k`, written in decimal, and lies in
      a subcategory of the catalog. */
  predicate ListedFrom(ps: seq<InvestmentProduct>, n: nat)
  {
    forall k :: 0 <= k < |ps| ==> ps[k].id == NatToString(n + k) && KnownSubCategory(ps[k].subCategoryId)
  }

  lemma ListedAppend(a: seq<InvestmentProduct>, b: seq<InvestmentProduct>, n: nat)
    requires ListedFrom(a, n) && ListedFrom(b, n + |a|)
    ensures ListedFrom(a + b, n)
  {
    forall k | 0 <= k < |a + b|
      ensures (a + b)[k].id == NatToString(n + k) && KnownSubCategory((a + b)[k].subCategoryId)
    {
      if k >= |a| {
        assert (a + b)[k] == b[k - |a|];
      }
    }
  }

  /** Product `k` of `group` has the id `n + k`, written in decimal, and
      lies in subcategory `subCategoryId`. */
  predicate ListedUnder(group: seq<InvestmentProduct>, n: nat, subCategoryId: string)
  {
    forall k :: 0 <= k < |group| ==> group[k].id == NatToString(n + k) && group[k].subCategoryId == subCategoryId
  }

  lemma GroupListed(group: seq<InvestmentProduct>, n: nat, s: SubCategory)
    requires ListedUnder(group, n, s.id) && s in SubCategories
    ensures ListedFrom(group, n)
  {
  }

  lemma GroupsInCatalog()
    ensures forall s :: s in SectorSubCategories ==> s in SubCategories
    ensures forall s :: s in ThesisSubCategories ==> s in SubCategories
    ensures forall s :: s in StageSubCategories ==> s in SubCategories
    ensures forall s :: s in GeoSubCategories ==> s in SubCategories
    ensures forall s :: s in HorizonSubCategories ==> s in SubCategories
    ensures forall s :: s in CompositionSubCategories ==> s in SubCategories
  {
  }

  lemma TechnologyAiListed() ensures ListedUnder(TechnologyAiProducts, 1, SectorSubCategories[0].id) {}
  lemma BiotechHealthcareListed() ensures ListedUnder(BiotechHealthcareProducts, 4, SectorSubCategories[2].id) {}
  lemma DefenseAerospaceListed() ensures ListedUnder(DefenseAerospaceProducts, 6, SectorSubCategories[4].id) {}
  lemma InnovationWaveListed() ensures ListedUnder(InnovationWaveProducts, 8, ThesisSubCategories[0].id) {}
  lemma NuclearCycleListed() ensures ListedUnder(NuclearCycleProducts, 10, ThesisSubCategories[4].id) {}
  lemma EarlyStageListed() ensures ListedUnder(EarlyStageProducts, 12, StageSubCategories[0].id) {}
  lemma UsFocusListed() ensures ListedUnder(UsFocusProducts, 14, GeoSubCategories[0].id) {}
  lemma LongTermStructuralListed() ensures ListedUnder(LongTermStructuralProducts, 16, HorizonSubCategories[0].id) {}
  lemma SingleStocksOnlyListed() ensures ListedUnder(SingleStocksOnlyProducts, 18, CompositionSubCategories[0].id) {}

  /** The products are numbered "1", "2", … in catalog order and each lies in
      a subcategory of the catalog. */
  lemma ProductsListed()
    ensures ListedFrom(InvestmentProducts, 1)
  {
    GroupsInCatalog();
    TechnologyAiListed(); GroupListed(TechnologyAiProducts, 1, SectorSubCategories[0]);
    BiotechHealthcareListed(); GroupListed(BiotechHealthcareProducts, 4, SectorSubCategories[2]);
    DefenseAerospaceListed(); GroupListed(DefenseAerospaceProducts, 6, SectorSubCategories[4]);
    InnovationWaveListed(); GroupListed(InnovationWaveProducts, 8, ThesisSubCategories[0]);
    NuclearCycleListed(); GroupListed(NuclearCycleProducts, 10, ThesisSubCategories[4]);
    EarlyStageListed(); GroupListed(EarlyStageProducts, 12, StageSubCategories[0]);
    UsFocusListed(); GroupListed(UsFocusProducts, 14, GeoSubCategories[0]);
    LongTermStructuralListed(); GroupListed(LongTermStructuralProducts, 16, HorizonSubCategories[0]);
    SingleStocksOnlyListed(); GroupListed(SingleStocksOnlyProducts, 18, CompositionSubCategories[0]);
    ListedAppend(TechnologyAiProducts, BiotechHealthcareProducts, 1);
    ListedAppend(TechnologyAiProducts + BiotechHealthcareProducts, DefenseAerospaceProducts, 1);
    ListedAppend(TechnologyAiProducts + BiotechHealthcareProducts + DefenseAerospaceProducts, InnovationWaveProducts, 1);
    ListedAppend(TechnologyAiProducts + BiotechHealthcareProducts + DefenseAerospaceProducts + InnovationWaveProducts, NuclearCycleProducts, 1);
    ListedAppend(TechnologyAiProducts + BiotechHealthcareProducts + DefenseAerospaceProducts + InnovationWaveProducts + NuclearCycleProducts, EarlyStageProducts, 1);
    ListedAppend(TechnologyAiProducts + BiotechHealthcareProducts + DefenseAerospaceProducts + InnovationWaveProducts + NuclearCycleProducts + EarlyStageProducts, UsFocusProducts, 1);
    ListedAppend(TechnologyAiProducts + BiotechHealthcareProducts + DefenseAerospaceProducts + InnovationWaveProducts + NuclearCycleProducts + EarlyStageProducts + UsFocusProducts, LongTermStructuralProducts, 1);
    ListedAppend(TechnologyAiProducts + BiotechHealthcareProducts + DefenseAerospaceProducts + InnovationWaveProducts + NuclearCycleProducts + EarlyStageProducts + UsFocusProducts + LongTermStructuralProducts, SingleStocksOnlyProducts, 1);
  }

  /** Every product lies in a subcategory of the catalog, and no two products
      share an id. */
  lemma ProductsWellFormed()
    ensures forall k :: 0 <= k < |InvestmentProducts| ==> KnownSubCategory(InvestmentProducts[k].subCategoryId)
    ensures forall i, j :: 0 <= i < j < |InvestmentProducts| ==> InvestmentProducts[i].id != InvestmentProducts[j].id
  {
    ProductsListed();
    forall i, j | 0 <= i < j < |InvestmentProducts|
      ensures InvestmentProducts[i].id != InvestmentProducts[j].id
    {
      ParseNatToString(i + 1);
      ParseNatToString(j + 1);
    }
  }

  // ---------------------------------------------------------------------
  // getCategoryRows

  /** The filter of `getCategoryRows`: the product lies in the subcategory. */
  function InSubCategory(subCategoryId: string): InvestmentProduct -> bool
  {
    (p: InvestmentProduct) => p.subCategoryId == subCategoryId
  }

  /** `getCategoryRows(subCategoryId)`: the products of the subcategory, grouped
      into rows by category label. */
  method GetCategoryRows(subCategoryId: string) returns (rows: seq<CategoryRow>)
    ensures rows == RowsOf(Filter(InvestmentProducts, InSubCategory(subCategoryId)))
  {
    var products := Filter(InvestmentProducts, InSubCategory(subCategoryId));
    rows := GroupIntoRows(products);
  }

  /** Every product in a row of `getCategoryRows(subCategoryId)` lies in that
      subcategory and carries the row's label (stated for any catalog). */
  lemma RowsHoldSubCategory(catalog: seq<InvestmentProduct>, subCategoryId: string, i: nat, k: nat)
    requires var rows := RowsOf(Filter(catalog, InSubCategory(subCategoryId)));
      i < |rows| && k < |rows[i].products|
    ensures var row := RowsOf(Filter(catalog, InSubCategory(subCategoryId)))[i];
      row.products[k].subCategoryId == subCategoryId && row.products[k].category == row.title
  {
    var ps := Filter(catalog, InSubCategory(subCategoryId));
    RowProductIn(ps, i, k);
    var j :| 0 <= j < |ps| && ps[j] == RowsOf(ps)[i].products[k];
    assert InSubCategory(subCategoryId)(ps[j]);
  }

  /** An id that names no subcategory of the catalog gets no rows. */
  lemma UnknownSubCategoryHasNoRows(subCategoryId: string)
    requires !KnownSubCategory(subCategoryId)
    ensures RowsOf(Filter(InvestmentProducts, InSubCategory(subCategoryId))) == []
  {
    ProductsWellFormed();
    forall k | 0 <= k < |InvestmentProducts| ensures !InSubCategory(subCategoryId)(InvestmentProducts[k]) {
      assert KnownSubCategory(InvestmentProducts[k].subCategoryId);
    }
    FilterNone(InvestmentProducts, InSubCategory(subCategoryId));
    RowsEmptyIff([]);
  }
}

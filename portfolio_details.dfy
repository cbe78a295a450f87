/** The detail page of one portfolio: the lookup by route id, the lists of
    similar and related portfolios, the year-to-date chart and its path, and
    the ticker shown in the header. `Math.random()` draws are a parameter. */
module PortfolioDetails {
  import opened Wrappers
  import opened Sequences
  import opened InvestmentTypes
  import opened SvgPath

  // ---------------------------------------------------------------------
  // Lookup

  /** The lookup predicate `p.id === id`: an undefined route id equals no
      product id. */
  function HasId(id: Option<string>): InvestmentProduct -> bool
  {
    (p: InvestmentProduct) => id == Some(p.id)
  }

  /** `investmentProducts.find(p => p.id === id)` over `catalog`. */
  function FindPortfolio(catalog: seq<InvestmentProduct>, id: Option<string>): (r: Option<InvestmentProduct>)
    ensures id.None? ==> r.None?
    ensures r.None? <==> forall k :: 0 <= k < |catalog| ==> id != Some(catalog[k].id)
    ensures r.Some? ==> r.value in catalog && id == Some(r.value.id)
  {
    Find(catalog, HasId(id))
  }

  /** When ids are distinct, the page of a product's id shows that product. */
  lemma FindPortfolioById(catalog: seq<InvestmentProduct>, k: nat)
    requires k < |catalog|
    requires forall i, j :: 0 <= i < j < |catalog| ==> catalog[i].id != catalog[j].id
    ensures FindPortfolio(catalog, Some(catalog[k].id)) == Some(catalog[k])
  {
    FindAt(catalog, HasId(Some(catalog[k].id)), k);
  }

  // ---------------------------------------------------------------------
  // Similar and related portfolios

  /** Another product with the same free-text category label. */
  function IsSimilarTo(portfolio: InvestmentProduct): InvestmentProduct -> bool
  {
    (p: InvestmentProduct) => p.id != portfolio.id && p.category == portfolio.category
  }

  /** Another product. */
  function IsOtherThan(portfolio: InvestmentProduct): InvestmentProduct -> bool
  {
    (p: InvestmentProduct) => p.id != portfolio.id
  }

  /** `similarPortfolios`: at most four other products of the same category,
      and all of them when there are fewer than four. */
  function SimilarPortfolios(catalog: seq<InvestmentProduct>, portfolio: InvestmentProduct): (r: seq<InvestmentProduct>)
    ensures |r| <= 4
    ensures forall i :: 0 <= i < |r| ==> r[i] in catalog
    ensures forall i :: 0 <= i < |r| ==> r[i].id != portfolio.id && r[i].category == portfolio.category
    ensures |r| < 4 ==> forall k :: 0 <= k < |catalog| && IsSimilarTo(portfolio)(catalog[k]) ==> catalog[k] in r
  {
    Take(Filter(catalog, IsSimilarTo(portfolio)), 4)
  }

  /** `relatedPortfolios`: at most four other products, and all of them when
      there are fewer than four. */
  function RelatedPortfolios(catalog: seq<InvestmentProduct>, portfolio: InvestmentProduct): (r: seq<InvestmentProduct>)
    ensures |r| <= 4
    ensures forall i :: 0 <= i < |r| ==> r[i] in catalog && r[i].id != portfolio.id
    ensures |r| < 4 ==> forall k :: 0 <= k < |catalog| && catalog[k].id != portfolio.id ==> catalog[k] in r
  {
    Take(Filter(catalog, IsOtherThan(portfolio)), 4)
  }

  /** Both lists keep the catalog's order. */
  lemma ListsInCatalogOrder(catalog: seq<InvestmentProduct>, portfolio: InvestmentProduct)
    ensures IsSubsequence(SimilarPortfolios(catalog, portfolio), catalog)
    ensures IsSubsequence(RelatedPortfolios(catalog, portfolio), catalog)
  {
    var similar := Filter(catalog, IsSimilarTo(portfolio));
    FilterIsSubsequence(catalog, IsSimilarTo(portfolio));
    PrefixOfSubsequence(similar, catalog, |SimilarPortfolios(catalog, portfolio)|);
    var related := Filter(catalog, IsOtherThan(portfolio));
    FilterIsSubsequence(catalog, IsOtherThan(portfolio));
    PrefixOfSubsequence(related, catalog, |RelatedPortfolios(catalog, portfolio)|);
  }

  /** The similar list holds the first similar products in catalog order: one
      with fewer than four similar products before it is in the list. */
  lemma SimilarAreFirst(catalog: seq<InvestmentProduct>, portfolio: InvestmentProduct, k: nat)
    requires k < |catalog| && catalog[k].id != portfolio.id && catalog[k].category == portfolio.category
    requires |Filter(catalog[..k], IsSimilarTo(portfolio))| < 4
    ensures catalog[k] in SimilarPortfolios(catalog, portfolio)
  {
    TakeFilterFirst(catalog, IsSimilarTo(portfolio), 4, k);
  }

  /** The related list holds the first other products in catalog order: one
      with fewer than four other products before it is in the list. */
  lemma RelatedAreFirst(catalog: seq<InvestmentProduct>, portfolio: InvestmentProduct, k: nat)
    requires k < |catalog| && catalog[k].id != portfolio.id
    requires |Filter(catalog[..k], IsOtherThan(portfolio))| < 4
    ensures catalog[k] in RelatedPortfolios(catalog, portfolio)
  {
    TakeFilterFirst(catalog, IsOtherThan(portfolio), 4, k);
  }

  /** The related list is never shorter than the similar one. */
  lemma SimilarAreRelated(catalog: seq<InvestmentProduct>, portfolio: InvestmentProduct)
    ensures |SimilarPortfolios(catalog, portfolio)| <= |RelatedPortfolios(catalog, portfolio)|
  {
    FilterStronger(catalog, IsSimilarTo(portfolio), IsOtherThan(portfolio));
  }

  // ---------------------------------------------------------------------
  // Ticker

  /** `portfolio.ticker || 'PORTFOLIO'`: an absent or empty ticker shows the
      word PORTFOLIO. */
  function DisplayTicker(portfolio: InvestmentProduct): (shown: string)
    ensures shown != ""
    ensures portfolio.ticker.Some? && portfolio.ticker.value != "" ==> shown == portfolio.ticker.value
    ensures portfolio.ticker.None? || portfolio.ticker.value == "" ==> shown == "PORTFOLIO"
  {
    match portfolio.ticker
    case Some(t) => if t != "" then t else "PORTFOLIO"
    case None => "PORTFOLIO"
  }

  // ---------------------------------------------------------------------
  // Year-to-date chart

  /** The month labels; the chart has one point per label. */
  const Months := ["Jan", "Fev", "Mar", "Abr", "Mai", "Jun", "Jul", "Ago", "Set", "Out"]

  /** A chart point: its position in a 100 by 100 box and the index value. */
  datatype Point = Point(x: real, y: real, value: real)

  /** The monthly change of the index: `(Math.random() - 0.3) * 8`. */
  function Change(draw: nat -> real, i: nat): real
  {
    (draw(i) - 0.3) * 8.0
  }

  /** The sum of the first `n` monthly changes. */
  function CumulativeChange(draw: nat -> real, n: nat): real
  {
    if n == 0 then 0.0 else CumulativeChange(draw, n - 1) + Change(draw, n - 1)
  }

  /** Draws in [0, 1) change the index by at least -2.4 and less than 5.6 a
      month. */
  lemma {:induction false} CumulativeChangeBounds(draw: nat -> real, n: nat)
    requires forall i :: 0 <= i < n ==> 0.0 <= draw(i) < 1.0
    ensures -2.4 * n as real <= CumulativeChange(draw, n) <= 5.6 * n as real
    ensures n > 0 ==> CumulativeChange(draw, n) < 5.6 * n as real
  {
    if n > 0 {
      CumulativeChangeBounds(draw, n - 1);
    }
  }

  /** The height of a value: 120 at the top of the box, 80 at the bottom. */
  function Height(value: real): real
  {
    (120.0 - value) / 40.0 * 100.0
  }

  /** A larger value is drawn higher, that is, at a smaller `y`. */
  lemma HeightReversesOrder(a: real, b: real)
    ensures a < b <==> Height(b) < Height(a)
  {
  }

  /** `generateYTDData`: starting from 100, the index moves by one random
      change a month; month `i` sits at `x = i / 9 * 100`. `draw(i)` is the
      `Math.random()` value drawn for month `i`. */
  method GenerateYTDData(draw: nat -> real) returns (points: seq<Point>)
    ensures |points| == |Months| == 10
    ensures forall i :: 0 <= i < |points| ==> points[i].x == i as real / 9.0 * 100.0
    ensures forall i :: 0 <= i < |points| ==> points[i].value == 100.0 + CumulativeChange(draw, i + 1)
    ensures forall i :: 0 <= i < |points| ==> points[i].y == Height(points[i].value)
    ensures points[0].x == 0.0 && points[9].x == 100.0
    ensures forall i, j :: 0 <= i < j < |points| ==> points[i].x < points[j].x
  {
    points := [];
    var currentValue := 100.0;
    for i := 0 to |Months|
      invariant |points| == i
      invariant currentValue == 100.0 + CumulativeChange(draw, i)
      invariant forall k :: 0 <= k < i ==> points[k].x == k as real / 9.0 * 100.0
      invariant forall k :: 0 <= k < i ==> points[k].value == 100.0 + CumulativeChange(draw, k + 1)
      invariant forall k :: 0 <= k < i ==> points[k].y == Height(points[k].value)
    {
      var change := (draw(i) - 0.3) * 8.0;
      currentValue := currentValue + change;
      points := points + [Point(i as real / (|Months| - 1) as real * 100.0, (120.0 - currentValue) / 40.0 * 100.0, currentValue)];
    }
  }

  /** `currentPerformance`: the last value's gain over 100. */
  function CurrentPerformance(points: seq<Point>): real
    requires |points| > 0
  {
    points[|points| - 1].value - 100.0
  }

  /** The current performance is the sum of all ten changes, so draws in
      [0, 1) keep it within [-24, 56). */
  lemma CurrentPerformanceBounds(draw: nat -> real, points: seq<Point>)
    requires |points| == 10
    requires forall i :: 0 <= i < |points| ==> points[i].value == 100.0 + CumulativeChange(draw, i + 1)
    requires forall i :: 0 <= i < 10 ==> 0.0 <= draw(i) < 1.0
    ensures CurrentPerformance(points) == CumulativeChange(draw, 10)
    ensures -24.0 <= CurrentPerformance(points) < 56.0
  {
    CumulativeChangeBounds(draw, 10);
  }

  /** `pathData`: a move to the first point and a line to each later one. */
  function PathCommands(points: seq<Point>): (path: seq<Command>)
    ensures |path| == |points| && IsPolyline(path)
    ensures forall i :: 0 <= i < |points| ==> path[i].x == points[i].x && path[i].y == points[i].y
  {
    seq(|points|, i requires 0 <= i < |points| =>
      if i == 0 then MoveTo(points[i].x, points[i].y) else LineTo(points[i].x, points[i].y))
  }

  // ---------------------------------------------------------------------
  // The page

  /** What the page shows: the not-found view, or the portfolio's details. */
  datatype Page =
    | NotFound
    | Details(portfolio: InvestmentProduct, ticker: string,
              similar: seq<InvestmentProduct>, related: seq<InvestmentProduct>,
              ytd: seq<Point>, currentPerformance: real, path: seq<Command>)

  /** The page for the route id `id` over `catalog`: the not-found view when
      no product has that id, and nothing else computed; otherwise the product
      with its lists, chart and ticker. */
  method RenderPortfolioDetails(catalog: seq<InvestmentProduct>, id: Option<string>, draw: nat -> real)
    returns (page: Page)
    ensures page.NotFound? <==> forall k :: 0 <= k < |catalog| ==> id != Some(catalog[k].id)
    ensures page.Details? ==>
      && FindPortfolio(catalog, id) == Some(page.portfolio)
      && page.ticker == DisplayTicker(page.portfolio)
      && page.similar == SimilarPortfolios(catalog, page.portfolio)
      && page.related == RelatedPortfolios(catalog, page.portfolio)
      && |page.ytd| == 10
      && (forall i :: 0 <= i < 10 ==> page.ytd[i].x == i as real / 9.0 * 100.0)
      && (forall i :: 0 <= i < 10 ==> page.ytd[i].value == 100.0 + CumulativeChange(draw, i + 1))
      && (forall i :: 0 <= i < 10 ==> page.ytd[i].y == Height(page.ytd[i].value))
      && page.currentPerformance == CumulativeChange(draw, 10)
      && page.path == PathCommands(page.ytd)
  {
    var found := FindPortfolio(catalog, id);
    if found.None? {
      return NotFound;
    }
    var portfolio := found.value;
    var similar := SimilarPortfolios(catalog, portfolio);
    var related := RelatedPortfolios(catalog, portfolio);
    var ytd := GenerateYTDData(draw);
    var currentPerformance := CurrentPerformance(ytd);
    var path := PathCommands(ytd);
    page := Details(portfolio, DisplayTicker(portfolio), similar, related, ytd, currentPerformance, path);
  }
}

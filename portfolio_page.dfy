/** The detail page over the mock catalog, which is what the route shows. */
module PortfolioPage {
  import opened Wrappers
  import opened InvestmentTypes
  import opened PortfolioDetails
  import MockData

  /** Every product of the mock catalog has its own page, showing it. */
  lemma EveryProductHasPage(k: nat)
    requires k < |MockData.InvestmentProducts|
    ensures FindPortfolio(MockData.InvestmentProducts, Some(MockData.InvestmentProducts[k].id))
         == Some(MockData.InvestmentProducts[k])
  {
    MockData.ProductsWellFormed();
    FindPortfolioById(MockData.InvestmentProducts, k);
  }

  /** The page component: the route id is looked up in the mock catalog. */
  method ShowPortfolio(id: Option<string>, draw: nat -> real) returns (page: Page)
    ensures page.NotFound? <==> forall k :: 0 <= k < |MockData.InvestmentProducts| ==> id != Some(MockData.InvestmentProducts[k].id)
    ensures page.Details? ==> page.portfolio in MockData.InvestmentProducts && id == Some(page.portfolio.id)
    ensures page.Details? ==> page.currentPerformance == CumulativeChange(draw, 10)
  {
    page := RenderPortfolioDetails(MockData.InvestmentProducts, id, draw);
  }
}

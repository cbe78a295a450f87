/** The record shapes shared by the catalog, the search service and the pages. */
module InvestmentTypes {
  import opened Wrappers

  /** A top-level browse category (icon and colour are presentation only). */
  datatype Category = Category(id: string, name: string, description: string, detailedDescription: string)

  /** A subcategory; its id is spelled "<categoryId>::<slug>". */
  datatype SubCategory = SubCategory(id: string, name: string, description: string, categoryId: string)

  /** The three risk labels a product can carry. */
  datatype Risk = Low | Medium | High

  /** A catalog product. `kind` is the record's `type` field. */
  datatype InvestmentProduct = InvestmentProduct(
    id: string,
    name: string,
    description: string,
    kind: string,
    risk: Risk,
    expectedReturn: string,
    minimumAmount: int,
    category: string,
    subCategoryId: string,
    profileImage: Option<string>,
    ticker: Option<string>)

  /** One row of a products page: products sharing a free-text category label. */
  datatype CategoryRow = CategoryRow(id: string, title: string, products: seq<InvestmentProduct>)
}

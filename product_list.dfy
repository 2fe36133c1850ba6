/** The product list page: its row record and its error policy. */
module ProductList {
  import opened Ui
  import opened ListPage

  /** A product as the search call returns it (the fields the page uses). */
  datatype ProductRow = ProductRow(productId: int, sku: string, name: string, category: string)

  /** The bulk-delete prompt lists SKUs. */
  function ToRow(p: ProductRow): Row
  {
    Row(p.productId, p.sku)
  }

  /** A failure without a 401 alerts "Lỗi: " and the error's message, with or without a response. */
  const Policy := ErrorMessage

  /** The row checkbox's filter drops the unchecked id. */
  const Uncheck := ById

  const Separator := ","

  /** Every failure other than a 401 alerts the error message; none throws. */
  lemma ProductErrorsAlertMessage(e: ApiError)
    requires !IsUnauthorized(e)
    ensures ErrorEffects(Policy, e) == [Alert("Lỗi: " + e.message)]
    ensures UnhandledRejection !in ErrorEffects(Policy, e)
  {
  }
}

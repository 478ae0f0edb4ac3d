/**
 * The HTTP-level vocabulary of the two controllers: request/response DTOs, the
 * ApiConstants messages (as opaque constants) and the action results.
 */
module ApiResults {
  import opened Domain

  datatype InsuranceDto = InsuranceDto(productId: int, insuranceValue: real)

  datatype ProductSurchargeDto = ProductSurchargeDto(productTypeId: int, surcharge: real)

  /** The ApiConstants messages; the two with a `{0}` slot carry the product id. */
  datatype ApiMessage =
    | InvalidProductData(productId: int)
    | ProductNotFound(productId: int)
    | ShoppingCartEmpty
    | ShoppingCartProductAreNotEligible
    | InvalidSurchargeData
    | SurchargeSuccessfulSaved
    | ProductIdCanNotBeEmpty

  datatype Body =
    | Insurance(insurance: InsuranceDto)
    | TotalInsurance(totalInsurance: real)
    | Surcharge(productSurcharge: ProductSurchargeDto)
    | Message(message: ApiMessage)

  /** What an action returns: BadRequest, NotFound or Ok with a body, or an exception that
      escapes the action (to the exception middleware, which is not part of this model). */
  datatype ActionResult =
    | BadRequest(message: ApiMessage)
    | NotFound(message: ApiMessage)
    | Ok(body: Body)
    | Unhandled(exception: Exception)
}

/**
 * SurchargeController: guards in front of SurchargeService, and the responses built
 * from its results.
 */
module SurchargeApi {
  import opened Wrappers
  import opened Domain
  import opened Persistence
  import opened Services
  import opened ApiResults

  /** The mapper's field-for-field copy of DTOs into service models. */
  function ToModels(dtos: seq<ProductSurchargeDto>): (r: seq<SurchargeModel>)
    ensures |r| == |dtos|
    ensures forall i :: 0 <= i < |dtos| ==>
              r[i].productTypeId == dtos[i].productTypeId && r[i].surcharge == dtos[i].surcharge
  {
    seq(|dtos|, i requires 0 <= i < |dtos| => SurchargeModel(dtos[i].productTypeId, dtos[i].surcharge))
  }

  /** UploadSurchargeRatesAsync (POST upload): a null or empty list is a BadRequest and
      neither the mapper nor the service runs; otherwise the service is called once and
      the answer is Ok, unless the store throws. */
  method UploadSurchargeRates(service: SurchargeService, surchargeRates: Option<seq<ProductSurchargeDto>>)
    returns (r: ActionResult)
    modifies service.repository
    ensures surchargeRates.None? || surchargeRates.value == [] ==>
              r == BadRequest(InvalidSurchargeData) && unchanged(service.repository)
    ensures surchargeRates.Some? && surchargeRates.value != [] ==>
              var batch := ToEntities(ToModels(surchargeRates.value));
              && service.repository.received == old(service.repository.received) + [batch]
              && (r == Ok(Message(SurchargeSuccessfulSaved)) <==> InsertsDistinct(old(service.repository.table), batch))
              && (r.Ok? ==> service.repository.table == Upsert(old(service.repository.table), batch))
              && (!r.Ok? ==> r == Unhandled(InvalidOperationException)
                             && service.repository.table == old(service.repository.table))
  {
    if surchargeRates.None? || |surchargeRates.value| == 0 {
      return BadRequest(InvalidSurchargeData);
    }
    var models := ToModels(surchargeRates.value);
    var outcome := service.UploadSurchargeRates(Some(models));
    if outcome.Fail? {
      return Unhandled(outcome.error);
    }
    r := Ok(Message(SurchargeSuccessfulSaved));
  }

  /** GetSurchargeForProductTypeAsync (GET {productTypeId}): a non-positive id is a
      BadRequest; otherwise Ok with the requested id and the service's surcharge, 0 when
      none is stored. */
  function GetSurchargeForProductType(service: SurchargeService, productTypeId: int): (r: ActionResult)
    reads service.repository
    ensures productTypeId <= 0 ==> r == BadRequest(ProductIdCanNotBeEmpty)
    ensures productTypeId > 0 ==>
              r == Ok(Surcharge(ProductSurchargeDto(productTypeId,
                                  if productTypeId in service.repository.table
                                  then service.repository.table[productTypeId] else 0.0)))
  {
    if productTypeId <= 0 then BadRequest(ProductIdCanNotBeEmpty)
    else
      var surcharge := service.GetSurchargeForProductType(productTypeId).value;
      Ok(Surcharge(ProductSurchargeDto(productTypeId, surcharge)))
  }
}

/**
 * SurchargeService: input guards in front of the surcharge store.
 */
module Services {
  import opened Wrappers
  import opened Domain
  import opened Persistence

  /** The service-level surcharge record. */
  datatype SurchargeModel = SurchargeModel(productTypeId: int, surcharge: real)

  /** The mapper's field-for-field copy of models into table rows. */
  function ToEntities(models: seq<SurchargeModel>): (r: seq<SurchargeEntity>)
    ensures |r| == |models|
    ensures forall i :: 0 <= i < |models| ==>
              r[i].productTypeId == models[i].productTypeId && r[i].surcharge == models[i].surcharge
  {
    seq(|models|, i requires 0 <= i < |models| => SurchargeEntity(models[i].productTypeId, models[i].surcharge))
  }

  class SurchargeService {
    const repository: SurchargeRepository

    constructor (repository: SurchargeRepository)
      ensures this.repository == repository
    {
      this.repository := repository;
    }

    /** UploadSurchargeRatesAsync: a null or empty list throws ArgumentException without
        touching the store; otherwise the store is called once, with the copied list, and
        whatever it throws propagates. */
    method UploadSurchargeRates(surchargeRates: Option<seq<SurchargeModel>>) returns (r: Outcome<Exception>)
      modifies repository
      ensures surchargeRates.None? || surchargeRates.value == [] ==>
                r == Fail(ArgumentException) && unchanged(repository)
      ensures surchargeRates.Some? && surchargeRates.value != [] ==>
                var batch := ToEntities(surchargeRates.value);
                && repository.received == old(repository.received) + [batch]
                && (r.Pass? <==> InsertsDistinct(old(repository.table), batch))
                && (r.Pass? ==> repository.table == Upsert(old(repository.table), batch))
                && (r.Fail? ==> r.error == InvalidOperationException && repository.table == old(repository.table))
    {
      if surchargeRates.None? || |surchargeRates.value| == 0 {
        return Fail(ArgumentException);
      }
      var entities := ToEntities(surchargeRates.value);
      r := repository.AddSurchargeRates(entities);
    }

    /** GetSurchargeForProductTypeAsync: ids that are not positive throw ArgumentException;
        otherwise the stored surcharge, 0 when none is stored. */
    function GetSurchargeForProductType(productTypeId: int): (r: Result<real, Exception>)
      reads repository
      ensures productTypeId <= 0 ==> r == Failure(ArgumentException)
      ensures productTypeId > 0 && productTypeId !in repository.table ==> r == Success(0.0)
      ensures productTypeId > 0 && productTypeId in repository.table ==> r == Success(repository.table[productTypeId])
    {
      if productTypeId <= 0 then Failure(ArgumentException)
      else Success(repository.GetSurchargeForProductType(productTypeId))
    }
  }
}

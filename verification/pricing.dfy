/**
 * The per-item pricing rule of InsuranceService (CalculateInsuranceValue and the two
 * rule tables it uses), with the constants of BusinessConstants.
 */
module Pricing {
  import opened Wrappers
  import opened Domain
  import opened Categories

  const MinimumInsuredValueThreshold: real := 500.0
  const HighValueInsuredThreshold: real := 2000.0
  const BaseInsuranceValueForLowRange: real := 500.0
  const BaseInsuranceValueForMidRange: real := 1000.0
  const BaseInsuranceValueForHighRange: real := 2000.0
  const AdditionalInsuranceForElectronicsCategory: real := 500.0
  const AdditionalInsuranceForDigitalCameras: real := 500.0

  /** DetermineBaseInsuranceValue: half-open price tiers, the lowest one reserved for
      laptops and smartphones. */
  function DetermineBaseInsuranceValue(salesPrice: real, productTypeName: Option<string>): (r: real)
    ensures r == 500.0 <==> salesPrice < 500.0 && IsLaptopOrSmartPhone(productTypeName)
    ensures r == 1000.0 <==> salesPrice < 2000.0 && !(salesPrice < 500.0 && IsLaptopOrSmartPhone(productTypeName))
    ensures r == 2000.0 <==> salesPrice >= 2000.0
  {
    if salesPrice < MinimumInsuredValueThreshold && IsLaptopOrSmartPhone(productTypeName) then
      BaseInsuranceValueForLowRange
    else if salesPrice < HighValueInsuredThreshold then
      BaseInsuranceValueForMidRange
    else
      BaseInsuranceValueForHighRange
  }

  /** AdditionalInsuranceCost: a flat add-on for laptops and smartphones, and for digital
      cameras outside a cart. */
  function AdditionalInsuranceCost(productTypeName: Option<string>, forCart: bool): (r: real)
    ensures r == 500.0 <==> IsLaptopOrSmartPhone(productTypeName) || (IsDigitalCamera(productTypeName) && !forCart)
    ensures r == 0.0 || r == 500.0
  {
    if IsLaptopOrSmartPhone(productTypeName) then AdditionalInsuranceForElectronicsCategory
    else if IsDigitalCamera(productTypeName) && !forCart then AdditionalInsuranceForDigitalCameras
    else 0.0
  }

  /** The rule cascade once the product type is known: the CanBeInsured gate, the
      sub-500 guard that only laptops escape, then base + surcharge + add-on. */
  function ItemValue(salesPrice: real, productType: ProductType, surcharge: real, forCart: bool): (r: real)
    ensures !productType.canBeInsured ==> r == 0.0
    ensures salesPrice < 500.0 && !IsLaptop(productType.name) ==> r == 0.0
    ensures surcharge >= 0.0 ==> r >= 0.0
  {
    if !productType.canBeInsured then 0.0
    else if salesPrice < MinimumInsuredValueThreshold && !IsLaptop(productType.name) then 0.0
    else
      DetermineBaseInsuranceValue(salesPrice, productType.name)
      + surcharge
      + AdditionalInsuranceCost(productType.name, forCart)
  }

  /** The fetched surcharge of a product type, 0 when the fetch finds none. */
  function SurchargeOrZero(catalog: Catalog, productTypeId: int): (r: real)
    ensures productTypeId !in catalog.surcharges ==> r == 0.0
  {
    match GetSurchargeByProductTypeId(catalog, productTypeId)
    case Some(s) => s
    case None => 0.0
  }

  /** CalculateInsuranceValue: fails with ArgumentNullException when the product or its
      type is missing, and otherwise prices the product with its type's surcharge. */
  function CalculateInsuranceValue(productModel: Option<Product>, catalog: Catalog, forCart: bool)
    : (r: Result<real, Exception>)
    ensures r.Failure? <==> productModel.None? || productModel.value.productType.None?
    ensures r.Failure? ==> r.error == ArgumentNullException
    ensures r.Success? ==> !productModel.value.productType.value.canBeInsured ==> r.value == 0.0
  {
    if productModel.None? || productModel.value.productType.None? then
      Failure(ArgumentNullException)
    else
      var productType := productModel.value.productType.value;
      Success(ItemValue(productModel.value.salesPrice, productType,
                        SurchargeOrZero(catalog, productType.id), forCart))
  }

  // ---------------------------------------------------------------------------
  // Reference definition: the rule table written out per category

  datatype Category = Laptop | Smartphone | DigitalCamera | Other

  /** The category of a product-type name, read off its normal form. */
  function CategoryOf(productTypeName: Option<string>): Category
  {
    if NamedAs(productTypeName, "laptops") then Laptop
    else if NamedAs(productTypeName, "smartphones") then Smartphone
    else if NamedAs(productTypeName, "digitalcameras") then DigitalCamera
    else Other
  }

  /** The premium of an insurable item, before its surcharge, row by row. */
  function TablePremium(category: Category, salesPrice: real, forCart: bool): real
  {
    match category
    case Laptop =>
      if salesPrice < 500.0 then 1000.0 else if salesPrice < 2000.0 then 1500.0 else 2500.0
    case Smartphone =>
      if salesPrice < 500.0 then 0.0 else if salesPrice < 2000.0 then 1500.0 else 2500.0
    case DigitalCamera =>
      if salesPrice < 500.0 then 0.0
      else (if salesPrice < 2000.0 then 1000.0 else 2000.0) + (if forCart then 0.0 else 500.0)
    case Other =>
      if salesPrice < 500.0 then 0.0 else if salesPrice < 2000.0 then 1000.0 else 2000.0
  }

  /** The surcharge is charged exactly on the items that pass the sub-500 guard. */
  predicate SurchargeApplies(category: Category, salesPrice: real)
  {
    category == Laptop || salesPrice >= 500.0
  }

  /** The rule cascade agrees with the table on every input. */
  lemma ItemValueFollowsRateTable(salesPrice: real, productType: ProductType, surcharge: real, forCart: bool)
    ensures ItemValue(salesPrice, productType, surcharge, forCart)
            == if !productType.canBeInsured then 0.0
               else TablePremium(CategoryOf(productType.name), salesPrice, forCart)
                    + (if SurchargeApplies(CategoryOf(productType.name), salesPrice) then surcharge else 0.0)
  {
    CategoryWords(productType.name);
  }

  /** For a fixed type and a non-negative surcharge, a dearer product never gets a lower value. */
  lemma ItemValueMonotoneInPrice(lower: real, higher: real, productType: ProductType, surcharge: real, forCart: bool)
    requires lower <= higher && surcharge >= 0.0
    ensures ItemValue(lower, productType, surcharge, forCart) <= ItemValue(higher, productType, surcharge, forCart)
  {
    ItemValueFollowsRateTable(lower, productType, surcharge, forCart);
    ItemValueFollowsRateTable(higher, productType, surcharge, forCart);
  }

  /** Pricing for a cart differs from pricing alone only by the digital-camera add-on,
      and only for an insurable camera that passes the sub-500 guard. */
  lemma CartPricingDropsCameraAddOn(salesPrice: real, productType: ProductType, surcharge: real)
    ensures ItemValue(salesPrice, productType, surcharge, false)
            == ItemValue(salesPrice, productType, surcharge, true)
               + (if productType.canBeInsured && salesPrice >= 500.0 && IsDigitalCamera(productType.name)
                  then 500.0 else 0.0)
  {
    CategoriesDisjoint(productType.name);
  }

  /** A laptop under 500 with no surcharge is insured for 500 + 500. */
  lemma CheapLaptopExample(salesPrice: real, productType: ProductType)
    requires productType.canBeInsured && IsLaptop(productType.name) && salesPrice < 500.0
    ensures ItemValue(salesPrice, productType, 0.0, false) == 1000.0
  {
    CategoriesDisjoint(productType.name);
  }

  /** A smartphone at 699 with no surcharge is insured for 1000 + 500. */
  lemma SmartphoneAt699Example(productType: ProductType)
    requires productType.canBeInsured && NamedAs(productType.name, "smartphones")
    ensures ItemValue(699.0, productType, 0.0, false) == 1500.0
  {
    CategoryWords(productType.name);
  }

  /** A mid-tier digital camera with no surcharge: 1000 + 500 alone, 1000 in a cart. */
  lemma MidTierCameraExample(salesPrice: real, productType: ProductType)
    requires productType.canBeInsured && IsDigitalCamera(productType.name)
    requires 500.0 <= salesPrice < 2000.0
    ensures ItemValue(salesPrice, productType, 0.0, false) == 1500.0
    ensures ItemValue(salesPrice, productType, 0.0, true) == 1000.0
  {
    CategoriesDisjoint(productType.name);
  }
}

/**
 * InsuranceController: chooses the response from the request and the service result.
 * The service is represented by its specification (Calculate and CartTotal), which the
 * methods of InsuranceService are proved to meet.
 */
module InsuranceApi {
  import opened Wrappers
  import opened Domain
  import opened Categories
  import opened Pricing
  import opened InsuranceService
  import opened ApiResults

  predicate IsValidProductId(productId: int)
  {
    productId > 0
  }

  predicate IsCartEmpty(cartItems: Option<seq<InsuranceDto>>)
  {
    cartItems.None? || cartItems.value == []
  }

  /** The mapper's copy of a request DTO into a fresh InsuranceModel. */
  function ToModel(dto: InsuranceDto): InsuranceState
  {
    InsuranceState(dto.productId, dto.insuranceValue, None)
  }

  function ToModels(dtos: seq<InsuranceDto>): (r: seq<InsuranceState>)
    ensures |r| == |dtos| && forall i :: 0 <= i < |dtos| ==> r[i] == ToModel(dtos[i])
  {
    seq(|dtos|, i requires 0 <= i < |dtos| => ToModel(dtos[i]))
  }

  /** CalculateInsuranceAsync (POST product): a non-positive id is a BadRequest echoing
      the id and the service is not consulted; a null service result is a NotFound
      echoing the id; otherwise Ok with the priced request. */
  function CalculateInsurance(insuranceRequest: InsuranceDto, catalog: Catalog): (r: ActionResult)
    ensures insuranceRequest.productId <= 0 ==> r == BadRequest(InvalidProductData(insuranceRequest.productId))
    ensures insuranceRequest.productId > 0 && !Resolvable(catalog, insuranceRequest.productId) ==>
              r == NotFound(ProductNotFound(insuranceRequest.productId))
    ensures insuranceRequest.productId > 0 && Resolvable(catalog, insuranceRequest.productId) ==>
              r == Ok(Insurance(InsuranceDto(insuranceRequest.productId,
                                             ResolvedValue(catalog, insuranceRequest.productId, false))))
  {
    if !IsValidProductId(insuranceRequest.productId) then
      BadRequest(InvalidProductData(insuranceRequest.productId))
    else
      var c := Calculate(ToModel(insuranceRequest), catalog, false);
      if !c.priced then NotFound(ProductNotFound(insuranceRequest.productId))
      else Ok(Insurance(InsuranceDto(c.after.productId, c.after.insuranceValue)))
  }

  /** CalculateCartInsuranceAsync (POST cart): a null or empty cart is a BadRequest and the
      service is not consulted; ids are not checked one by one; a total that is not
      positive is a BadRequest "not eligible"; otherwise Ok with the total. */
  function CalculateCartInsurance(cartItems: Option<seq<InsuranceDto>>, catalog: Catalog): (r: ActionResult)
    ensures IsCartEmpty(cartItems) ==> r == BadRequest(ShoppingCartEmpty)
    ensures !IsCartEmpty(cartItems) ==>
              var total := CartTotal(Some(ToModels(cartItems.value)), catalog);
              && total.Success?
              && (total.value <= 0.0 ==> r == BadRequest(ShoppingCartProductAreNotEligible))
              && (total.value > 0.0 ==> r == Ok(TotalInsurance(total.value)))
  {
    if IsCartEmpty(cartItems) then BadRequest(ShoppingCartEmpty)
    else
      match CartTotal(Some(ToModels(cartItems.value)), catalog)
      case Failure(e) => Unhandled(e)
      case Success(total) =>
        if total <= 0.0 then BadRequest(ShoppingCartProductAreNotEligible)
        else Ok(TotalInsurance(total))
  }

  // ---------------------------------------------------------------------------
  // Carts from the integration scenarios

  /** A cart in which no product can be found (ids -1 and 999999, say) is not eligible:
      nothing is summed and the camera scan throws on the first request. */
  lemma UnknownProductsCartIsNotEligible(cartItems: seq<InsuranceDto>, catalog: Catalog)
    requires cartItems != []
    requires forall i :: 0 <= i < |cartItems| ==> cartItems[i].productId !in catalog.products
    ensures CalculateCartInsurance(Some(cartItems), catalog) == BadRequest(ShoppingCartProductAreNotEligible)
  {
    var models := ToModels(cartItems);
    ZeroSumWhenNothingResolves(models, catalog);
    assert !Typed(AfterAll(models, catalog, true)[0]);
  }

  lemma {:induction false} ZeroSumWhenNothingResolves(items: seq<InsuranceState>, catalog: Catalog)
    requires forall i :: 0 <= i < |items| ==> !Resolvable(catalog, items[i].productId)
    ensures ResolvedSum(items, catalog, true) == 0.0
  {
    if items != [] {
      ZeroSumWhenNothingResolves(items[..|items| - 1], catalog);
    }
  }

  /** A cart of two found products: a mid-tier insurable digital camera and a product
      that cannot be insured, with no surcharges, is insured for 1000 + 500. */
  lemma CameraAndUninsurableCartExample(camera: int, other: int, catalog: Catalog)
    requires Resolvable(catalog, camera) && Resolvable(catalog, other)
    requires catalog.surcharges == map[]
    requires var p := ResolvedProduct(catalog, camera);
             && p.productType.value.canBeInsured && IsDigitalCamera(p.productType.value.name)
             && 500.0 <= p.salesPrice < 2000.0
    requires !ResolvedProduct(catalog, other).productType.value.canBeInsured
    ensures CalculateCartInsurance(Some([InsuranceDto(camera, 0.0), InsuranceDto(other, 0.0)]), catalog)
            == Ok(TotalInsurance(1500.0))
  {
    var items := ToModels([InsuranceDto(camera, 0.0), InsuranceDto(other, 0.0)]);
    var p := ResolvedProduct(catalog, camera);
    MidTierCameraExample(p.salesPrice, p.productType.value);
    assert SurchargeOrZero(catalog, p.productType.value.id) == 0.0;
    assert Contribution(items[0], catalog, true) == 1000.0;
    assert Contribution(items[1], catalog, true) == 0.0;
    assert ResolvedSum(items, catalog, true) == 1000.0 by {
      assert items[..1][..0] == [] && items[..1][0] == items[0];
      assert ResolvedSum(items[..1], catalog, true) == Contribution(items[0], catalog, true);
      assert items[..|items| - 1] == items[..1];
    }
    AllResolvedCart(items, catalog);
    assert IsDigitalCamera(CatalogTypeName(catalog, items[0].productId));
  }

  /** The camera bonus looks at the type name only: one found camera that cannot be
      insured still makes an eligible cart worth 500. */
  lemma UninsurableCameraStillEarnsBonus(camera: int, catalog: Catalog)
    requires Resolvable(catalog, camera)
    requires var t := ResolvedProduct(catalog, camera).productType.value;
             !t.canBeInsured && IsDigitalCamera(t.name)
    ensures CalculateCartInsurance(Some([InsuranceDto(camera, 0.0)]), catalog) == Ok(TotalInsurance(500.0))
  {
    var items := ToModels([InsuranceDto(camera, 0.0)]);
    assert items[..0] == [];
    AllResolvedCart(items, catalog);
    assert IsDigitalCamera(CatalogTypeName(catalog, items[0].productId));
  }

  /** A single found product under 500 that is neither a laptop nor a camera makes a cart
      that is not eligible. */
  lemma CheapProductCartIsNotEligible(productId: int, catalog: Catalog)
    requires Resolvable(catalog, productId)
    requires var p := ResolvedProduct(catalog, productId);
             && p.salesPrice < 500.0 && !IsLaptop(p.productType.value.name)
             && !IsDigitalCamera(p.productType.value.name)
    ensures CalculateCartInsurance(Some([InsuranceDto(productId, 0.0)]), catalog)
            == BadRequest(ShoppingCartProductAreNotEligible)
  {
    var items := ToModels([InsuranceDto(productId, 0.0)]);
    assert items[..0] == [];
    AllResolvedCart(items, catalog);
    assert !IsDigitalCamera(CatalogTypeName(catalog, items[0].productId));
  }

  /** A laptop under 500 without surcharge, priced alone: Ok with 1000. */
  lemma CheapLaptopRequestExample(productId: int, catalog: Catalog)
    requires productId > 0 && Resolvable(catalog, productId) && catalog.surcharges == map[]
    requires var p := ResolvedProduct(catalog, productId);
             && p.salesPrice < 500.0 && p.productType.value.canBeInsured && IsLaptop(p.productType.value.name)
    ensures CalculateInsurance(InsuranceDto(productId, 0.0), catalog)
            == Ok(Insurance(InsuranceDto(productId, 1000.0)))
  {
    var p := ResolvedProduct(catalog, productId);
    CheapLaptopExample(p.salesPrice, p.productType.value);
  }

  /** A smartphone at 699 without surcharge, priced alone: Ok with 1500. */
  lemma SmartphoneRequestExample(productId: int, catalog: Catalog)
    requires productId > 0 && Resolvable(catalog, productId) && catalog.surcharges == map[]
    requires var p := ResolvedProduct(catalog, productId);
             && p.salesPrice == 699.0 && p.productType.value.canBeInsured
             && NamedAs(p.productType.value.name, "smartphones")
    ensures CalculateInsurance(InsuranceDto(productId, 0.0), catalog)
            == Ok(Insurance(InsuranceDto(productId, 1500.0)))
  {
    var p := ResolvedProduct(catalog, productId);
    SmartphoneAt699Example(p.productType.value);
  }
}

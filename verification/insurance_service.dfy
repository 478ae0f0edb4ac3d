/**
 * The calculation methods of InsuranceService: one request at a time
 * (CalculateInsuranceAsync, which fills in the request object step by step) and a
 * whole cart (CalculateTotalInsuranceForCartAsync with ApplyCameraSurcharge).
 */
module InsuranceService {
  import opened Wrappers
  import opened Domain
  import opened Categories
  import opened Pricing

  /** The value held by an InsuranceModel object at one moment. */
  datatype InsuranceState = InsuranceState(productId: int, insuranceValue: real, productModel: Option<Product>)

  /** An insurance request, which the calculation fills in place. */
  class InsuranceModel {
    var productId: int
    var insuranceValue: real
    var productModel: Option<Product>

    constructor (productId: int, insuranceValue: real)
      ensures State() == InsuranceState(productId, insuranceValue, None)
    {
      this.productId := productId;
      this.insuranceValue := insuranceValue;
      this.productModel := None;
    }

    function State(): InsuranceState
      reads this
    {
      InsuranceState(productId, insuranceValue, productModel)
    }
  }

  /** The catalog knows both the product and its product type. */
  predicate Resolvable(catalog: Catalog, productId: int)
  {
    productId in catalog.products && catalog.products[productId].productTypeId in catalog.productTypes
  }

  /** The resolved product, with its product type filled in. */
  function ResolvedProduct(catalog: Catalog, productId: int): (p: Product)
    requires Resolvable(catalog, productId)
    ensures p.productTypeId == catalog.products[productId].productTypeId
    ensures p.productType == Some(catalog.productTypes[p.productTypeId])
  {
    var product := catalog.products[productId];
    product.(productType := Some(catalog.productTypes[product.productTypeId]))
  }

  /** What the catalog prices a resolvable product at. */
  function ResolvedValue(catalog: Catalog, productId: int, forCart: bool): real
    requires Resolvable(catalog, productId)
  {
    var product := ResolvedProduct(catalog, productId);
    var productType := product.productType.value;
    ItemValue(product.salesPrice, productType, SurchargeOrZero(catalog, productType.id), forCart)
  }

  /** One run of CalculateInsuranceAsync on a request: its new state, and whether it
      returned the request (true) or null (false). */
  datatype Calculation = Calculation(after: InsuranceState, priced: bool)

  function Calculate(s: InsuranceState, catalog: Catalog, forCart: bool): (c: Calculation)
    ensures c.after.productId == s.productId
    ensures c.priced <==> Resolvable(catalog, s.productId)
    ensures c.priced ==> c.after == InsuranceState(s.productId, ResolvedValue(catalog, s.productId, forCart),
                                                   Some(ResolvedProduct(catalog, s.productId)))
    ensures !c.priced ==> c.after.insuranceValue == s.insuranceValue
    ensures !c.priced && s.productId in catalog.products ==> c.after.productModel == Some(catalog.products[s.productId])
    ensures s.productId !in catalog.products ==> c.after == s
  {
    match GetProductById(catalog, s.productId)
    case None => Calculation(s, false)
    case Some(product) =>
      match GetProductTypeById(catalog, product.productTypeId)
      case None => Calculation(s.(productModel := Some(product)), false)
      case Some(productType) =>
        var model := Some(product.(productType := Some(productType)));
        assert CalculateInsuranceValue(model, catalog, forCart).Success?;
        Calculation(InsuranceState(s.productId, CalculateInsuranceValue(model, catalog, forCart).value, model), true)
  }

  /** CalculateInsuranceAsync: null request -> ArgumentNullException; unknown product or
      product type -> null (after recording whatever was found); otherwise the request,
      with its product, product type and insurance value filled in. */
  method CalculateInsurance(request: InsuranceModel?, catalog: Catalog, forCart: bool)
    returns (r: Result<Option<InsuranceModel>, Exception>)
    modifies request
    ensures request == null ==> r == Failure(ArgumentNullException)
    ensures request != null ==>
              var c := Calculate(old(request.State()), catalog, forCart);
              request.State() == c.after && r == Success(if c.priced then Some(request) else None)
  {
    if request == null {
      return Failure(ArgumentNullException);
    }
    var product := GetProductById(catalog, request.productId);
    if product.None? {
      return Success(None);
    }
    request.productModel := product;
    var productType := GetProductTypeById(catalog, product.value.productTypeId);
    if productType.None? {
      return Success(None);
    }
    request.productModel := Some(product.value.(productType := productType));
    var value := CalculateInsuranceValue(request.productModel, catalog, forCart);
    assert value.Success?;  // the product type was just filled in: no ArgumentNullException
    request.insuranceValue := value.value;
    return Success(Some(request));
  }

  // ---------------------------------------------------------------------------
  // Cart

  /** The contribution of one request to the cart sum: its value when it was priced,
      nothing when the service returned null for it. */
  function Contribution(s: InsuranceState, catalog: Catalog, forCart: bool): (v: real)
    ensures Resolvable(catalog, s.productId) ==> v == ResolvedValue(catalog, s.productId, forCart)
    ensures !Resolvable(catalog, s.productId) ==> v == 0.0
  {
    var c := Calculate(s, catalog, forCart);
    if c.priced then c.after.insuranceValue else 0.0
  }

  /** Sum of the contributions of the requests, in list order. */
  function ResolvedSum(items: seq<InsuranceState>, catalog: Catalog, forCart: bool): real
  {
    if items == [] then 0.0
    else ResolvedSum(items[..|items| - 1], catalog, forCart) + Contribution(items[|items| - 1], catalog, forCart)
  }

  /** The states of all requests after the calculation has run on each. */
  function AfterAll(items: seq<InsuranceState>, catalog: Catalog, forCart: bool): (r: seq<InsuranceState>)
    ensures |r| == |items|
    ensures forall i :: 0 <= i < |items| ==> r[i] == Calculate(items[i], catalog, forCart).after
  {
    seq(|items|, i requires 0 <= i < |items| => Calculate(items[i], catalog, forCart).after)
  }

  /** Reading request.ProductModel.ProductType.Name does not throw. */
  predicate Typed(s: InsuranceState)
  {
    s.productModel.Some? && s.productModel.value.productType.Some?
  }

  predicate IsCameraItem(s: InsuranceState)
  {
    Typed(s) && IsDigitalCamera(s.productModel.value.productType.value.name)
  }

  datatype Scan = FoundCamera | Faulted | NoCamera

  /** The in-order `Any` of ApplyCameraSurcharge: it stops at the first camera, or at the
      first request whose product or product type is null (a NullReferenceException). */
  function CameraScan(items: seq<InsuranceState>): Scan
  {
    if items == [] then NoCamera
    else if !Typed(items[0]) then Faulted
    else if IsCameraItem(items[0]) then FoundCamera
    else CameraScan(items[1..])
  }

  /** The scan finds a camera exactly when some camera comes before every request that
      would throw; it reports no camera only when no request throws and none is a camera. */
  lemma {:induction false} CameraScanSpec(items: seq<InsuranceState>)
    ensures CameraScan(items) == FoundCamera <==>
              exists i :: 0 <= i < |items| && IsCameraItem(items[i]) && forall j :: 0 <= j < i ==> Typed(items[j])
    ensures CameraScan(items) == NoCamera <==> forall i :: 0 <= i < |items| ==> Typed(items[i]) && !IsCameraItem(items[i])
  {
    if items != [] && Typed(items[0]) && !IsCameraItem(items[0]) {
      var rest := items[1..];
      CameraScanSpec(rest);
      assert forall i :: 1 <= i < |items| ==> items[i] == rest[i - 1];
      if CameraScan(rest) == FoundCamera {
        var k :| 0 <= k < |rest| && IsCameraItem(rest[k]) && forall j :: 0 <= j < k ==> Typed(rest[j]);
        assert IsCameraItem(items[k + 1]) && forall j :: 0 <= j < k + 1 ==> Typed(items[j]);
      }
      if exists i :: 0 <= i < |items| && IsCameraItem(items[i]) && forall j :: 0 <= j < i ==> Typed(items[j]) {
        var k :| 0 <= k < |items| && IsCameraItem(items[k]) && forall j :: 0 <= j < k ==> Typed(items[j]);
        assert k > 0;
        assert IsCameraItem(rest[k - 1]) && forall j :: 0 <= j < k - 1 ==> Typed(rest[j]);
      }
    }
  }

  /** ApplyCameraSurcharge: adds the flat camera bonus once when the scan finds a camera;
      an empty list or a fault during the scan leaves the total as it is. */
  function ApplyCameraSurcharge(items: seq<InsuranceState>, total: real): (r: real)
    ensures r == total || r == total + 500.0
    ensures r == total + 500.0 <==> items != [] && CameraScan(items) == FoundCamera
    ensures (forall i :: 0 <= i < |items| ==> Typed(items[i])) ==>
              (r == total + 500.0 <==> exists i :: 0 <= i < |items| && IsCameraItem(items[i]))
  {
    CameraScanSpec(items);
    if items == [] then total
    else match CameraScan(items)
      case FoundCamera => total + AdditionalInsuranceForDigitalCameras
      case _ => total
  }

  /** CalculateTotalInsuranceForCartAsync on request values: a null or empty list is
      rejected; otherwise every request is priced for a cart, the priced ones are summed
      and the camera bonus is applied to the updated requests. */
  function CartTotal(items: Option<seq<InsuranceState>>, catalog: Catalog): (r: Result<real, Exception>)
    ensures r.Failure? <==> items.None? || items.value == []
    ensures r.Failure? ==> r.error == ArgumentException
    ensures r.Success? ==> r.value == ResolvedSum(items.value, catalog, true)
                           || r.value == ResolvedSum(items.value, catalog, true) + 500.0
  {
    if items.None? || items.value == [] then Failure(ArgumentException)
    else Success(ApplyCameraSurcharge(AfterAll(items.value, catalog, true), ResolvedSum(items.value, catalog, true)))
  }

  function States(requests: seq<InsuranceModel>): (r: seq<InsuranceState>)
    reads set q | q in requests
    ensures |r| == |requests|
    ensures forall i :: 0 <= i < |requests| ==> r[i] == requests[i].State()
  {
    seq(|requests|, i requires 0 <= i < |requests| reads set q | q in requests => requests[i].State())
  }

  function Objects(requests: Option<seq<InsuranceModel>>): set<InsuranceModel>
  {
    if requests.None? then {} else set q | q in requests.value
  }

  /** No request object appears twice in the list. */
  predicate Distinct(requests: seq<InsuranceModel>)
  {
    forall i, j :: 0 <= i < j < |requests| ==> requests[i] != requests[j]
  }

  /** CalculateTotalInsuranceForCartAsync, with the concurrent fan-out run in list order. */
  method CalculateTotalInsuranceForCart(requests: Option<seq<InsuranceModel>>, catalog: Catalog)
    returns (r: Result<real, Exception>)
    requires requests.Some? ==> Distinct(requests.value)
    modifies Objects(requests)
    ensures requests.None? ==> r == Failure(ArgumentException)
    ensures requests.Some? ==> r == CartTotal(Some(old(States(requests.value))), catalog)
    ensures requests.Some? ==> States(requests.value) == AfterAll(old(States(requests.value)), catalog, true)
  {
    if requests.None? || |requests.value| == 0 {
      return Failure(ArgumentException);
    }
    var list := requests.value;
    ghost var before := States(list);
    var total := 0.0;
    var i := 0;
    while i < |list|
      invariant 0 <= i <= |list|
      invariant forall j :: 0 <= j < i ==> list[j].State() == Calculate(before[j], catalog, true).after
      invariant forall j :: i <= j < |list| ==> list[j].State() == before[j]
      invariant total == ResolvedSum(before[..i], catalog, true)
    {
      var result := CalculateInsurance(list[i], catalog, true);
      assert result.Success?;  // list elements are never null
      if result.value.Some? {
        total := total + result.value.value.insuranceValue;
      }
      ResolvedSumStep(before, i, catalog, true);
      i := i + 1;
    }
    assert before[..i] == before;
    assert States(list) == AfterAll(before, catalog, true);
    r := Success(ApplyCameraSurcharge(States(list), total));
  }

  // ---------------------------------------------------------------------------
  // Properties of the cart total

  /** The running sum after one more request. */
  lemma ResolvedSumStep(items: seq<InsuranceState>, i: nat, catalog: Catalog, forCart: bool)
    requires i < |items|
    ensures ResolvedSum(items[..i + 1], catalog, forCart)
            == ResolvedSum(items[..i], catalog, forCart) + Contribution(items[i], catalog, forCart)
  {
    assert items[..i + 1][..i] == items[..i];
  }

  lemma {:induction false} ResolvedSumAppend(u: seq<InsuranceState>, v: seq<InsuranceState>, catalog: Catalog, forCart: bool)
    ensures ResolvedSum(u + v, catalog, forCart) == ResolvedSum(u, catalog, forCart) + ResolvedSum(v, catalog, forCart)
  {
    if v == [] {
      assert u + v == u;
    } else {
      assert (u + v)[..|u + v| - 1] == u + v[..|v| - 1];
      ResolvedSumAppend(u, v[..|v| - 1], catalog, forCart);
    }
  }

  lemma MultisetRemoveAt(b: seq<InsuranceState>, k: nat)
    requires k < |b|
    ensures multiset(b[..k] + b[k + 1..]) == multiset(b) - multiset{b[k]}
  {
    assert b == b[..k] + [b[k]] + b[k + 1..];
  }

  lemma ResolvedSumRemoveAt(b: seq<InsuranceState>, k: nat, catalog: Catalog, forCart: bool)
    requires k < |b|
    ensures ResolvedSum(b, catalog, forCart)
            == ResolvedSum(b[..k] + b[k + 1..], catalog, forCart) + Contribution(b[k], catalog, forCart)
  {
    assert b == b[..k] + [b[k]] + b[k + 1..];
    ResolvedSumAppend(b[..k] + [b[k]], b[k + 1..], catalog, forCart);
    ResolvedSumAppend(b[..k], [b[k]], catalog, forCart);
    ResolvedSumAppend(b[..k], b[k + 1..], catalog, forCart);
    assert ResolvedSum([b[k]], catalog, forCart) == Contribution(b[k], catalog, forCart);
  }

  /** The sum does not depend on the order of the requests (the fan-out may finish in any order). */
  lemma {:induction false} ResolvedSumPermutation(a: seq<InsuranceState>, b: seq<InsuranceState>, catalog: Catalog, forCart: bool)
    requires multiset(a) == multiset(b)
    ensures ResolvedSum(a, catalog, forCart) == ResolvedSum(b, catalog, forCart)
  {
    if a != [] {
      var n := |a|;
      var x := a[n - 1];
      assert x in multiset(b);
      var k :| 0 <= k < |b| && b[k] == x;
      MultisetRemoveAt(a, n - 1);
      MultisetRemoveAt(b, k);
      assert a[..n - 1] + a[n..] == a[..n - 1];
      ResolvedSumPermutation(a[..n - 1], b[..k] + b[k + 1..], catalog, forCart);
      ResolvedSumRemoveAt(b, k, catalog, forCart);
    }
  }

  /** With non-negative surcharges the sum is never negative. */
  lemma {:induction false} ResolvedSumNonNegative(items: seq<InsuranceState>, catalog: Catalog, forCart: bool)
    requires forall k :: k in catalog.surcharges ==> catalog.surcharges[k] >= 0.0
    ensures ResolvedSum(items, catalog, forCart) >= 0.0
  {
    if items != [] {
      ResolvedSumNonNegative(items[..|items| - 1], catalog, forCart);
    }
  }

  /** With non-negative surcharges a cart total is never negative. */
  lemma CartTotalNonNegative(items: seq<InsuranceState>, catalog: Catalog)
    requires items != []
    requires forall k :: k in catalog.surcharges ==> catalog.surcharges[k] >= 0.0
    ensures CartTotal(Some(items), catalog).Success? && CartTotal(Some(items), catalog).value >= 0.0
  {
    ResolvedSumNonNegative(items, catalog, true);
  }

  /** When every request resolves, the total is the sum plus one bonus of 500 if any
      product type is named a digital camera, however many there are and whatever their
      own value or insurability. */
  lemma AllResolvedCart(items: seq<InsuranceState>, catalog: Catalog)
    requires items != []
    requires forall i :: 0 <= i < |items| ==> Resolvable(catalog, items[i].productId)
    ensures CartTotal(Some(items), catalog)
            == Success(ResolvedSum(items, catalog, true)
                       + if exists i :: 0 <= i < |items| && IsDigitalCamera(CatalogTypeName(catalog, items[i].productId))
                         then 500.0 else 0.0)
  {
    var after := AfterAll(items, catalog, true);
    assert forall i :: 0 <= i < |items| ==> Typed(after[i]);
    assert forall i :: 0 <= i < |items| ==>
      (IsCameraItem(after[i]) <==> IsDigitalCamera(CatalogTypeName(catalog, items[i].productId)));
  }

  /** The name of a resolvable product's type in the catalog. */
  function CatalogTypeName(catalog: Catalog, productId: int): Option<string>
    requires Resolvable(catalog, productId)
  {
    catalog.productTypes[catalog.products[productId].productTypeId].name
  }

  lemma {:induction false} CameraScanAppendUntyped(items: seq<InsuranceState>, x: InsuranceState)
    requires !Typed(x)
    ensures CameraScan(items + [x]) == if CameraScan(items) == FoundCamera then FoundCamera else Faulted
  {
    if items == [] {
      assert items + [x] == [x];
    } else {
      assert (items + [x])[0] == items[0] && (items + [x])[1..] == items[1..] + [x];
      CameraScanAppendUntyped(items[1..], x);
    }
  }

  /** A request left without a product type at the END of a cart changes nothing. */
  lemma UntypedLastRequestIsIgnored(items: seq<InsuranceState>, x: InsuranceState, catalog: Catalog)
    requires items != []
    requires !Typed(Calculate(x, catalog, true).after)
    ensures CartTotal(Some(items + [x]), catalog) == CartTotal(Some(items), catalog)
  {
    ResolvedSumAppend(items, [x], catalog, true);
    assert ResolvedSum([x], catalog, true) == 0.0;
    assert AfterAll(items + [x], catalog, true) == AfterAll(items, catalog, true) + [Calculate(x, catalog, true).after];
    CameraScanAppendUntyped(AfterAll(items, catalog, true), Calculate(x, catalog, true).after);
    CameraScanSpec(AfterAll(items, catalog, true));
  }

  /** The same request at the FRONT of a cart suppresses the camera bonus altogether:
      the scan throws on it and the sum is returned as it is. */
  lemma UntypedFirstRequestCancelsBonus(x: InsuranceState, items: seq<InsuranceState>, catalog: Catalog)
    requires !Typed(Calculate(x, catalog, true).after)
    ensures CartTotal(Some([x] + items), catalog) == Success(ResolvedSum(items, catalog, true))
  {
    ResolvedSumAppend([x], items, catalog, true);
    assert ResolvedSum([x], catalog, true) == 0.0;
    assert AfterAll([x] + items, catalog, true)[0] == Calculate(x, catalog, true).after;
  }
}

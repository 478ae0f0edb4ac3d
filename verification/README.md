# Insurance pricing engine — a Dafny model

This project models the core of a small insurance pricing service for an online shop,
in these parts:

- **Pricing** (`InsuranceService`, in `categories.dfy`, `pricing.dfy` and
  `insurance_service.dfy`) prices one product:
  - the product and its product type are fetched;
  - a product type that cannot be insured is worth 0;
  - below 500 only laptops are insured;
  - a base value follows the price bands 500 / 1000 / 2000;
  - the product type's surcharge is added;
  - laptops and smartphones add 500, and so do digital cameras when the product is
    priced on its own;
  - product types are recognised by a name comparison that ignores surrounding
    whitespace, spaces and letter case.
- **The cart aggregator**, in the same service, prices every cart item as part of a
  cart and sums the items it could resolve. It then adds a flat 500 camera bonus when
  its scan of the cart finds a digital camera.
- **The surcharge store** (`SurchargeRepository`, `surcharge_repository.dfy`) keeps one
  surcharge per product type. An upload batch is applied as an upsert and saved in one
  go. A lookup returns 0 when no row is stored.
- **The surcharge service** (`SurchargeService`, `surcharge_service.dfy`) guards the
  store against empty uploads and non-positive ids.
- **The two HTTP controllers** (`insurance_controller.dfy`, `surcharge_controller.dfy`)
  turn requests and service results into `Ok`, `BadRequest` and `NotFound` responses.

## How the model is built

- Prices and surcharges are exact decimals, so they are modelled as `real`.
- The product catalog and the remote surcharge endpoint are one value, `Domain.Catalog`:
  three maps keyed by id. A missing key stands for every way a fetch can come back
  empty.
- Operations that change objects in place are methods over classes:
  - `InsuranceService.CalculateInsurance` fills in a request object.
  - `InsuranceService.CalculateTotalInsuranceForCart` runs a loop over the request
    objects.
  - `Persistence.SurchargeRepository.AddSurchargeRates` works on the stored table.
  - The upload paths of the service and of the surcharge controller are methods too.
- Each method is proved against a pure function (`Calculate`, `CartTotal`, `Upsert`).
  The lemmas are stated about those functions.
- The insurance controller is modelled as functions over that specification.
- Exceptions are results: `Failure(e)` or `Fail(e)`. `ActionResult.Unhandled(e)` is an
  exception that leaves a controller.

Behaviour of the code worth knowing, which the model reproduces:

- The sub-500 guard (`Insurance.Service/Services/InsuranceService.cs:85`) runs before the
  base tiers, and only laptops escape it. So a smartphone under 500 is worth 0, and the
  low base tier of 500 "for laptops and smartphones" (line 101) is only ever reached by
  laptops (`Pricing.ItemValueFollowsRateTable`).
- The cart's camera bonus is not a predicate over the whole cart.
  - The code scans the requests in order and stops at the first digital camera.
  - A request left without a product type (its product or type was not found) makes
    the scan throw. The exception is caught, and the sum is returned without the bonus.
  - So the bonus depends on item order (`UntypedLastRequestIsIgnored`,
    `UntypedFirstRequestCancelsBonus`).
  - The bonus looks only at the type's name, so a camera that cannot be insured still
    earns it (`UninsurableCameraStillEarnsBonus`).
- Type names are normalised by trimming, removing spaces and lower-casing.
  - "Digital cameras" and "Smart phones" match.
  - The singular "Digital camera" and "Laptop" do not match
    (`DigitalCameraSingularDoesNotMatch`, `LaptopSingularDoesNotMatch`).
- An upload batch is not validated for negative surcharges.
  - A batch that repeats a product type id not yet stored adds two new rows for one
    key. The data context refuses this, so nothing of the batch is saved.
  - Repeating an id that is already stored is accepted, and the last value wins.
- The cart endpoint does not check item ids. A cart whose items cannot be found is
  rejected as "not eligible", not as invalid input.

## Model

| member | source | states |
|---|---|---|
| Categories.SingleMatch | Insurance.Service/Services/InsuranceService.cs:164-173 | a name matches one category word exactly when it is present, non-empty and its normal form (trimmed, spaces removed, lower-cased) equals the word in lower case |
| Categories.IgnoreCaseOnLowered | Insurance.Service/Services/InsuranceService.cs:169-172 | once the name is lower-cased, the case-insensitive comparison with a word is equality with the lower-cased word |
| Categories.CategoryWords | Insurance.Service/Services/InsuranceService.cs:149-162 | laptop iff the normal form is "laptops"; digital camera iff "digitalcameras"; laptop-or-smartphone iff "laptops" or "smartphones" |
| Categories.CategoriesDisjoint | Insurance.Service/Constants/BusinessConsts.cs:11-13 | no name is both a laptop/smartphone and a digital camera, and every laptop is a laptop-or-smartphone |
| Categories.SpaceInsensitive | Insurance.Service/Services/InsuranceService.cs:169 | inserting a space anywhere in a name leaves its normal form unchanged |
| Categories.CaseInsensitive | Insurance.Service/Services/InsuranceService.cs:169 | two names that differ only in letter case have the same normal form |
| Categories.SameNormalFormSameCategory | Insurance.Service/Services/InsuranceService.cs:164-173 | names with the same normal form fall in the same categories |
| Categories.DigitalCamerasMatches | Insurance.Service/Services/InsuranceService.cs:159-162 | "Digital cameras" is a digital camera |
| Categories.DigitalCameraSingularDoesNotMatch | Insurance.Service/Services/InsuranceService.cs:159-162 | "Digital camera" is not a digital camera |
| Categories.SmartPhonesMatches | Insurance.Service/Services/InsuranceService.cs:149-152 | "Smart phones" is a laptop-or-smartphone |
| Categories.PaddedUpperCaseLaptops | Insurance.Service/Services/InsuranceService.cs:154-157 | " LAPTOPS " is a laptop |
| Categories.LaptopSingularDoesNotMatch | Insurance.Service/Services/InsuranceService.cs:154-157 | "Laptop" is not a laptop |
| Pricing.DetermineBaseInsuranceValue | Insurance.Service/Services/InsuranceService.cs:97-105 | base is 500 iff price < 500 and laptop-or-smartphone; 1000 iff price < 2000 and not that case; 2000 iff price >= 2000 |
| Pricing.AdditionalInsuranceCost | Insurance.Service/Services/InsuranceService.cs:107-115 | the add-on is 500 iff laptop-or-smartphone, or digital camera outside a cart; otherwise 0 |
| Pricing.ItemValue | Insurance.Service/Services/InsuranceService.cs:81-94 | 0 for a type that cannot be insured; 0 below 500 unless a laptop; never negative for a non-negative surcharge |
| Pricing.SurchargeOrZero | Insurance.Service/Services/InsuranceService.cs:92 | a product type without a fetched surcharge contributes 0 |
| Pricing.CalculateInsuranceValue | Insurance.Service/Services/InsuranceService.cs:74-95 | fails, with ArgumentNullException, exactly when the product or its type is missing; a type that cannot be insured is worth 0 |
| Pricing.ItemValueFollowsRateTable | Insurance.Service/Services/InsuranceService.cs:81-115 | the rule cascade equals an independent per-category rate table (laptop, smartphone, digital camera, other) plus the surcharge where the sub-500 guard lets it through |
| Pricing.ItemValueMonotoneInPrice | Insurance.Service/Services/InsuranceService.cs:85-104 | for one type and a non-negative surcharge, a dearer product never gets a lower value |
| Pricing.CartPricingDropsCameraAddOn | Insurance.Service/Services/InsuranceService.cs:107-115 | pricing alone exceeds pricing in a cart by exactly 500 for an insurable camera at 500 or more, and by 0 otherwise |
| Pricing.CheapLaptopExample | tests/Insurance.Tests/IntegrationTests/InsuranceController.IntegrationTests.cs:30-44 | an insurable laptop under 500 with no surcharge is worth 1000 |
| Pricing.SmartphoneAt699Example | tests/Insurance.Tests/IntegrationTests/InsuranceController.IntegrationTests.cs:48-63 | an insurable smartphone at 699 with no surcharge is worth 1500 |
| Pricing.MidTierCameraExample | Insurance.Service/Services/InsuranceService.cs:97-115 | an insurable camera priced in [500, 2000) with no surcharge is worth 1500 alone and 1000 in a cart |
| InsuranceService.ResolvedProduct | Insurance.Service/Services/InsuranceService.cs:28-33 | the resolved product keeps its product type id and carries the catalog's product type |
| InsuranceService.Calculate | Insurance.Service/Services/InsuranceService.cs:16-44 | the request is priced iff product and type resolve; then it holds the resolved product and its value; otherwise its value is unchanged and it holds the product when one was found; an unknown product leaves it as it was |
| InsuranceService.CalculateInsurance | Insurance.Service/Services/InsuranceService.cs:16-44 | a null request fails with ArgumentNullException; otherwise the object's new state is the specification's, and the method returns the object when priced, null otherwise |
| InsuranceService.Contribution | Insurance.Service/Services/InsuranceService.cs:58-59 | a resolvable request contributes its cart value; any other request contributes 0 |
| InsuranceService.CameraScanSpec | Insurance.Service/Services/InsuranceService.cs:135 | the scan finds a camera iff some item is a camera and every item before it has a type; it finishes without a camera iff every item has a type and none is a camera |
| InsuranceService.ApplyCameraSurcharge | Insurance.Service/Services/InsuranceService.cs:126-143 | the total is unchanged or raised by exactly 500; it is raised iff the list is non-empty and the scan finds a camera; with every item typed, iff some item is a camera |
| InsuranceService.CartTotal | Insurance.Service/Services/InsuranceService.cs:46-68 | fails, with ArgumentException, exactly on a null or empty list; otherwise the sum of the resolved items' cart values, possibly plus 500 |
| InsuranceService.CalculateTotalInsuranceForCart | Insurance.Service/Services/InsuranceService.cs:46-68 | the loop returns the cart total of the requests' original states and leaves every request object in its calculated state |
| InsuranceService.ResolvedSumPermutation | Insurance.Service/Services/InsuranceService.cs:58-59 | the sum of the resolved values does not depend on the order of the requests |
| InsuranceService.CartTotalNonNegative | Insurance.Service/Services/InsuranceService.cs:46-68 | with non-negative surcharges, a non-empty cart's total is never negative |
| InsuranceService.AllResolvedCart | Insurance.Service/Services/InsuranceService.cs:126-136 | when every request resolves, the total is the sum plus one 500 bonus iff some product type is a digital camera |
| InsuranceService.UntypedLastRequestIsIgnored | Insurance.Service/Services/InsuranceService.cs:126-143 | a request left without a type, appended to a cart, changes neither the sum nor the bonus |
| InsuranceService.UntypedFirstRequestCancelsBonus | Insurance.Service/Services/InsuranceService.cs:126-143 | the same request at the front of a cart makes the total the plain sum, with no bonus |
| Persistence.SurchargeRepository.AddSurchargeRates | Surcharge.Repository/SurchargeRepository.cs:26-57 | the batch is recorded as received once; it is saved iff no new key repeats; then the table is the batch's upsert; otherwise InvalidOperationException and the table is unchanged |
| Persistence.SurchargeRepository.GetSurchargeForProductType | Surcharge.Repository/SurchargeRepository.cs:64-70 | the stored surcharge, 0 when no row has the id |
| Persistence.UpsertKeys | Surcharge.Repository/SurchargeRepository.cs:34-53 | the keys after an upload are the old keys plus the batch's keys: no duplicates, no lost rows |
| Persistence.UpsertKeepsOthers | Surcharge.Repository/SurchargeRepository.cs:34-53 | a key the batch does not mention keeps its row, or its absence |
| Persistence.UpsertLastWins | Surcharge.Repository/SurchargeRepository.cs:37-51 | a key the batch mentions holds the surcharge of its last occurrence |
| Persistence.UpsertIdempotent | Surcharge.Repository/SurchargeRepository.cs:26-57 | applying the same batch twice gives the same table as once |
| Persistence.LastIndexOf | Surcharge.Repository/SurchargeRepository.cs:34-53 | finds the position of a key's last occurrence in a batch, after which the key does not appear |
| Persistence.ReuploadIsAccepted | Surcharge.Repository/SurchargeRepository.cs:37-51 | re-uploading a batch that was saved can never be refused |
| Persistence.RepeatedUploadKeepsLatest | Surcharge.Repository/SurchargeRepository.cs:37-51 | two uploads of one key leave one row holding the later surcharge |
| Services.ToEntities | Insurance.Service/Services/SurchargeService.cs:41-42 | the mapping keeps the length and copies each model's id and surcharge |
| Services.SurchargeService.UploadSurchargeRates | Insurance.Service/Services/SurchargeService.cs:34-46 | a null or empty list fails with ArgumentException and leaves the store alone; otherwise the store gets the copied batch once, with its outcome and new table |
| Services.SurchargeService.GetSurchargeForProductType | Insurance.Service/Services/SurchargeService.cs:54-62 | a non-positive id fails with ArgumentException; otherwise the stored surcharge, or 0 |
| InsuranceApi.ToModels | src/Insurance.Api/Controllers/InsuranceController.cs:82 | each cart item becomes a fresh request with the same id and value |
| InsuranceApi.CalculateInsurance | src/Insurance.Api/Controllers/InsuranceController.cs:43-56 | a non-positive id is BadRequest naming it; an id that does not resolve is NotFound naming it; otherwise Ok with the id and its value priced alone |
| InsuranceApi.CalculateCartInsurance | src/Insurance.Api/Controllers/InsuranceController.cs:77-90 | a null or empty cart is BadRequest "empty"; otherwise the service total exists, and a total <= 0 is BadRequest "not eligible" while a positive one is Ok with it |
| InsuranceApi.UnknownProductsCartIsNotEligible | tests/Insurance.Tests/IntegrationTests/InsuranceController.IntegrationTests.cs:184-201 | a non-empty cart in which no product is found is BadRequest "not eligible" |
| InsuranceApi.ZeroSumWhenNothingResolves | Insurance.Service/Services/InsuranceService.cs:58-59 | requests that do not resolve contribute nothing to the sum |
| InsuranceApi.CameraAndUninsurableCartExample | tests/Insurance.Tests/IntegrationTests/InsuranceController.IntegrationTests.cs:120-142 | a mid-tier insurable camera plus an uninsurable product, with no surcharges, is Ok with 1500 |
| InsuranceApi.UninsurableCameraStillEarnsBonus | Insurance.Service/Services/InsuranceService.cs:135-136 | a cart holding one camera that cannot be insured is Ok with 500 |
| InsuranceApi.CheapProductCartIsNotEligible | tests/Insurance.Tests/IntegrationTests/InsuranceController.IntegrationTests.cs:146-164 | one found product under 500 that is neither a laptop nor a camera is BadRequest "not eligible" |
| InsuranceApi.CheapLaptopRequestExample | tests/Insurance.Tests/IntegrationTests/InsuranceController.IntegrationTests.cs:30-44 | an insurable laptop under 500 without surcharge is Ok with 1000 |
| InsuranceApi.SmartphoneRequestExample | tests/Insurance.Tests/IntegrationTests/InsuranceController.IntegrationTests.cs:48-63 | an insurable smartphone at 699 without surcharge is Ok with 1500 |
| SurchargeApi.ToModels | src/Insurance.Api/Controllers/SurchargeController.cs:55 | the mapping keeps the length and copies each DTO's id and surcharge |
| SurchargeApi.UploadSurchargeRates | src/Insurance.Api/Controllers/SurchargeController.cs:48-62 | a null or empty list is BadRequest and the store is untouched; otherwise the store gets the batch once; Ok iff the save succeeds, else the store's exception escapes and the table is unchanged |
| SurchargeApi.GetSurchargeForProductType | src/Insurance.Api/Controllers/SurchargeController.cs:78-95 | a non-positive id is BadRequest; otherwise Ok with the requested id and the stored surcharge, or 0 |

## Left out

- Fetching products, product types and surcharges over HTTP (`BaseApiService`) is replaced by the maps of `Domain.Catalog`. Timeouts, bad status codes and JSON errors all appear as a missing key. `Insurance.Service/Services/Shared/BaseApiService.cs` is not part of this model.
- InsuranceService.CalculateTotalInsuranceForCart: the concurrent pricing of the requests (`Task.WhenAll`) runs sequentially, in list order. Each task writes only its own request, so the order does not change the outcome.
- InsuranceService.CalculateTotalInsuranceForCart: requires the list to hold each request object once. A list holding the same object twice, priced concurrently, is not modelled.
- InsuranceService.CalculateTotalInsuranceForCart: null elements inside the request list are not modelled. A cart body such as `[null]` passes the empty-cart guard and is copied as null. Pricing that element throws ArgumentNullException, which escapes the cart call.
- Services.SurchargeService.UploadSurchargeRates: null elements inside the surcharge list are not modelled. The repository throws NullReferenceException when it reads such an element's product type id.
- SurchargeApi.UploadSurchargeRates: null elements inside the uploaded list are not modelled. They reach the repository, which throws NullReferenceException on them.
- Logging, the global exception middleware, dependency injection and configuration are not modelled. The exception that leaves a controller is returned as `Unhandled`.
- Response messages are constants of `ApiResults.ApiMessage` that carry the product id where the text does. Their text formatting is not modelled.
- The database column's `decimal(18,2)` precision and decimal overflow are not modelled. Money is an exact `real`.
- `ToLower` and `OrdinalIgnoreCase` are modelled on ASCII letters only. Culture-specific and non-ASCII case mapping is not modelled. Trimming uses the full .NET whitespace set, and `Replace(" ", "")` removes only U+0020.
- The object mapper is treated as a field-for-field copy (`Services.ToEntities`, `SurchargeApi.ToModels`, `InsuranceApi.ToModels`). `src/Insurance.Api/Extensions/MappingExtensions.cs` is read only for that.
- The DTO and model classes (InsuranceDto, ProductSurchargeDto, TotalInsuranceResponse, ProductTypeModel, SurchargeEntity, SurchargeModel) are not part of this model as files. Their fields are taken from their use in the modelled code.
- Persistence.SurchargeRepository.AddSurchargeRates: concurrent uploads and database transactions are not modelled. One call is one atomic save, and a refused batch saves nothing.

/**
 * The records the pricing engine reads (Insurance.Service/Models) and the external
 * collaborators it queries: the product catalog and the remote surcharge endpoint.
 */
module Domain {
  import opened Wrappers

  /** A product category as the catalog reports it. `name` is a nullable string. */
  datatype ProductType = ProductType(id: int, name: Option<string>, canBeInsured: bool)

  /** A product as the catalog reports it; `productType` is filled in by the engine once resolved. */
  datatype Product = Product(
    id: int,
    name: Option<string>,
    salesPrice: real,
    productTypeId: int,
    productType: Option<ProductType>)

  /**
   * What the engine can see of the outside world during one calculation: the
   * catalog's products and product types by id, and the surcharge endpoint's rates
   * by product-type id. A key that is absent stands for every way a fetch can come
   * back empty (not found, non-success status, transport or deserialisation failure).
   */
  datatype Catalog = Catalog(
    products: map<int, Product>,
    productTypes: map<int, ProductType>,
    surcharges: map<int, real>)

  /** The exception types the core throws. */
  datatype Exception = ArgumentNullException | ArgumentException | InvalidOperationException

  /** GetProductByIdAsync: the catalog's product, or nothing. */
  function GetProductById(catalog: Catalog, productId: int): Option<Product>
  {
    if productId in catalog.products then Some(catalog.products[productId]) else None
  }

  /** GetProductTypeByIdAsync: the catalog's product type, or nothing. */
  function GetProductTypeById(catalog: Catalog, productTypeId: int): Option<ProductType>
  {
    if productTypeId in catalog.productTypes then Some(catalog.productTypes[productTypeId]) else None
  }

  /** GetSurchargeByProductTypeIdAsync: the configured rate, or nothing. */
  function GetSurchargeByProductTypeId(catalog: Catalog, productTypeId: int): Option<real>
  {
    if productTypeId in catalog.surcharges then Some(catalog.surcharges[productTypeId]) else None
  }
}

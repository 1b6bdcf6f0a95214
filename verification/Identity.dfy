/** Which stock a request is about: products, stock items and units, and the checks made when a
    request is resolved against them (inventory/inventory-identity-resolver.service.ts,
    inventory/stock-item-configuration.service.ts). */
module Identity {
  import opened Common

  /** Validated when a unit is defined: a conversion is greater than zero. */
  type Conversion = x: real | x > 0.0 witness 1.0

  datatype Product = Product(isActive: bool, variants: set<Id>)

  datatype StockItem = StockItem(
    productId: Id,
    variantId: Option<Id>,
    isActive: bool,
    trackInventory: bool,
    trackReservations: bool,
    trackBatches: bool,
    trackExpiry: bool,
    allowUnitConversions: bool,
    baseUnitId: Option<Id>)

  /** The master data a request is resolved against; stockItems are listed in query order. */
  datatype Catalog = Catalog(
    products: map<Id, Product>,
    stockItems: map<Id, StockItem>,
    listing: seq<Id>,
    units: map<(Id, Id), Conversion>)

  datatype Line = Line(
    productId: Id,
    variantId: Option<Id>,
    stockItemId: Option<Id>,
    unitId: Option<Id>,
    quantity: real)

  datatype Resolved = Resolved(
    productId: Id,
    stockItemId: Option<Id>,
    unitId: Option<Id>,
    baseQuantity: real)

  datatype IdentityError =
    | ProductNotFound
    | ProductInactive
    | VariantNotFound
    | QuantityNotPositive
    | StockItemNotFound
    | StockItemOfOtherProduct
    | StockItemOfOtherVariant
    | StockItemNotTracked
    | UnitNotValid

  predicate Usable(item: StockItem, productId: Id, variantId: Option<Id>) {
    item.productId == productId && item.variantId == variantId && item.isActive && item.trackInventory
  }

  /** findFirst over the stock items of a product and variant that are active and tracked. */
  function FirstUsable(catalog: Catalog, listing: seq<Id>, productId: Id, variantId: Option<Id>): Option<Id> {
    if listing == [] then None
    else if listing[0] in catalog.stockItems && Usable(catalog.stockItems[listing[0]], productId, variantId)
    then Some(listing[0])
    else FirstUsable(catalog, listing[1..], productId, variantId)
  }

  function ResolveStockItem(catalog: Catalog, line: Line): Result<Option<Id>, IdentityError> {
    match line.stockItemId
    case Some(s) =>
      if s !in catalog.stockItems then Err(StockItemNotFound)
      else
        var item := catalog.stockItems[s];
        if item.productId != line.productId then Err(StockItemOfOtherProduct)
        else if item.variantId != line.variantId then Err(StockItemOfOtherVariant)
        else if !item.isActive || !item.trackInventory then Err(StockItemNotTracked)
        else Ok(Some(s))
    case None =>
      var ofVariant :=
        if line.variantId.Some? then FirstUsable(catalog, catalog.listing, line.productId, line.variantId)
        else None;
      if ofVariant.Some? then Ok(ofVariant)
      else Ok(FirstUsable(catalog, catalog.listing, line.productId, None))
  }

  function Resolve(catalog: Catalog, line: Line): Result<Resolved, IdentityError> {
    if line.productId !in catalog.products then Err(ProductNotFound)
    else if !catalog.products[line.productId].isActive then Err(ProductInactive)
    else if line.variantId.Some? && line.variantId.value !in catalog.products[line.productId].variants
    then Err(VariantNotFound)
    else if line.quantity <= 0.0 then Err(QuantityNotPositive)
    else
      match ResolveStockItem(catalog, line)
      case Err(e) => Err(e)
      case Ok(stockItemId) =>
        if stockItemId.Some? && line.unitId.Some? && (stockItemId.value, line.unitId.value) in catalog.units
        then
          Ok(Resolved(line.productId, stockItemId, line.unitId,
                      line.quantity * catalog.units[(stockItemId.value, line.unitId.value)]))
        else if line.unitId.Some? then Err(UnitNotValid)
        else Ok(Resolved(line.productId, stockItemId, None, line.quantity))
  }

  /** assertReceiptConfiguration. A request without a unit is not checked at all: the configuration
      is only read once a unit is named. */
  predicate ReceiptAccepted(catalog: Catalog, resolved: Resolved, hasBatchCode: bool, hasExpiry: bool) {
    resolved.stockItemId.Some? && resolved.unitId.Some? && resolved.stockItemId.value in catalog.stockItems ==>
      var item := catalog.stockItems[resolved.stockItemId.value];
      && (!item.allowUnitConversions && item.baseUnitId.Some? ==> resolved.unitId == item.baseUnitId)
      && (item.trackBatches ==> hasBatchCode)
      && (item.trackExpiry ==> hasExpiry)
  }

  predicate ReservationsEnabled(catalog: Catalog, resolved: Resolved) {
    resolved.stockItemId.Some? && resolved.stockItemId.value in catalog.stockItems ==>
      catalog.stockItems[resolved.stockItemId.value].trackReservations
  }

  /** Stock items never change hands: each belongs to the product that owner names. */
  ghost predicate OwnedBy(catalog: Catalog, owner: Id -> Id) {
    forall s :: s in catalog.stockItems ==> catalog.stockItems[s].productId == owner(s)
  }

  lemma {:induction false} FirstUsableIsUsable(catalog: Catalog, listing: seq<Id>, productId: Id, variantId: Option<Id>)
    ensures var found := FirstUsable(catalog, listing, productId, variantId);
      found.Some? ==>
        found.value in catalog.stockItems && Usable(catalog.stockItems[found.value], productId, variantId)
  {
    if listing != [] {
      FirstUsableIsUsable(catalog, listing[1..], productId, variantId);
    }
  }

  /** A resolved request names the requested product, an active tracked stock item of that product
      if it names one at all, and a positive base quantity. */
  lemma ResolvedIsOfTheProduct(catalog: Catalog, line: Line)
    requires Resolve(catalog, line).Ok?
    ensures var r := Resolve(catalog, line).value;
      && r.productId == line.productId
      && r.baseQuantity > 0.0
      && (line.stockItemId.Some? ==> r.stockItemId == line.stockItemId)
      && (r.stockItemId.Some? ==>
            && r.stockItemId.value in catalog.stockItems
            && Usable(catalog.stockItems[r.stockItemId.value], line.productId,
                      catalog.stockItems[r.stockItemId.value].variantId))
  {
    FirstUsableIsUsable(catalog, catalog.listing, line.productId, line.variantId);
    FirstUsableIsUsable(catalog, catalog.listing, line.productId, None);
  }
}

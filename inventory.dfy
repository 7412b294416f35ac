/**
 * The inventory ledger of Services/ProductsService.cs as functions over the
 * product store (a map from product id to product row). Each operation
 * returns the new store, or the error the service throws, in which case the
 * store is left as it was.
 */
module Inventory {
  import opened Wrappers
  import opened Entities
  import opened ErrorCodes

  /** A ledger operation's effect: the new store and the money amount it returns. */
  datatype Posting = Posting(products: map<int, Product>, amount: int)

  /** `GetProductAsync`: only an active product is found. */
  function GetProduct(products: map<int, Product>, id: int): (r: Result<Product, ErrorCode>)
    ensures r.Success? <==> id in products && products[id].isActive
    ensures r.Success? ==> r.value == products[id]
    ensures r.Failure? ==> r.error == NotFound(ProductType, id)
  {
    if id in products && products[id].isActive then Success(products[id])
    else Failure(NotFound(ProductType, id))
  }

  /** `DecreaseReservedQuantity`: lower the reserved count, clamped at zero. */
  function DecreaseReservedQuantity(quantity: int, product: Product): (r: Product)
    ensures r.reservedQuantity >= 0
    ensures r.reservedQuantity >= product.reservedQuantity - quantity
    ensures r.reservedQuantity == 0 || r.reservedQuantity == product.reservedQuantity - quantity
    ensures r == product.(reservedQuantity := r.reservedQuantity)
  {
    var reserved := product.reservedQuantity - quantity;
    product.(reservedQuantity := if reserved < 0 then 0 else reserved)
  }

  /** `ReserveProductAsync` */
  function ReserveProduct(products: map<int, Product>, id: int, quantity: int): (r: Result<Posting, ErrorCode>)
    ensures GetProduct(products, id).Failure? ==> r == Failure(NotFound(ProductType, id))
    ensures GetProduct(products, id).Success? && products[id].availableQuantity < quantity ==>
              r == Failure(Named(ProductQuantityNotAvailable))
    ensures r.Success? <==> GetProduct(products, id).Success? && quantity <= products[id].availableQuantity
    ensures r.Success? ==> id in products && id in r.value.products
    ensures r.Success? ==>
              var p := products[id];
              var p' := r.value.products[id];
              && r.value.products == products[id := p']
              && p' == p.(availableQuantity := p'.availableQuantity, reservedQuantity := p'.reservedQuantity)
              && p'.availableQuantity == p.availableQuantity - quantity
              && p'.OnHandQuantity() == p.OnHandQuantity()
              && r.value.amount == quantity * p.unitPrice
  {
    match GetProduct(products, id)
    case Failure(e) => Failure(e)
    case Success(p) =>
      if p.availableQuantity < quantity then Failure(Named(ProductQuantityNotAvailable))
      else
        var p' := p.(availableQuantity := p.availableQuantity - quantity,
                     reservedQuantity := p.reservedQuantity + quantity);
        Success(Posting(products[id := p'], quantity * p.unitPrice))
  }

  /** `UnreserveProductAsync`: never refuses for lack of reserved stock, it clamps. */
  function UnreserveProduct(products: map<int, Product>, id: int, quantity: int): (r: Result<Posting, ErrorCode>)
    ensures r.Success? <==> GetProduct(products, id).Success?
    ensures r.Failure? ==> r.error == NotFound(ProductType, id)
    ensures r.Success? ==> id in products && id in r.value.products
    ensures r.Success? ==>
              var p := products[id];
              var p' := r.value.products[id];
              && r.value.products == products[id := p']
              && p' == DecreaseReservedQuantity(quantity, p).(availableQuantity := p.availableQuantity + quantity)
              && p'.reservedQuantity >= 0
              && r.value.amount == quantity * p.unitPrice
  {
    match GetProduct(products, id)
    case Failure(e) => Failure(e)
    case Success(p) =>
      var p' := DecreaseReservedQuantity(quantity, p.(availableQuantity := p.availableQuantity + quantity));
      Success(Posting(products[id := p'], quantity * p.unitPrice))
  }

  /** `ShipProductAsync`: shipped stock leaves the reserved count and never returns to available. */
  function ShipProduct(products: map<int, Product>, id: int, quantity: int): (r: Result<map<int, Product>, ErrorCode>)
    ensures r.Success? <==> GetProduct(products, id).Success?
    ensures r.Failure? ==> r.error == NotFound(ProductType, id)
    ensures r.Success? ==>
              && r.value == products[id := DecreaseReservedQuantity(quantity, products[id])]
              && r.value[id].availableQuantity == products[id].availableQuantity
              && r.value[id].unitPrice == products[id].unitPrice
              && r.value[id].reservedQuantity >= 0
  {
    match GetProduct(products, id)
    case Failure(e) => Failure(e)
    case Success(p) => Success(products[id := DecreaseReservedQuantity(quantity, p)])
  }

  /** `UpdateProductAsync`: overwrites the catalogue fields and the available count,
      but never the reserved count or the active flag. */
  function UpdateProduct(products: map<int, Product>, id: int, sku: string, availableQuantity: int, unitPrice: int,
                         category: int, name: string, description: string): (r: Result<map<int, Product>, ErrorCode>)
    ensures r.Success? <==> GetProduct(products, id).Success?
    ensures r.Failure? ==> r.error == NotFound(ProductType, id)
    ensures r.Success? ==> id in products && id in r.value
    ensures r.Success? ==>
              var p := products[id];
              var p' := r.value[id];
              && r.value == products[id := p']
              && p'.reservedQuantity == p.reservedQuantity && p'.isActive && p'.id == p.id
              && p'.availableQuantity == availableQuantity && p'.unitPrice == unitPrice
              && p'.sku == sku && p'.name == name && p'.description == description && p'.category == category
  {
    match GetProduct(products, id)
    case Failure(e) => Failure(e)
    case Success(p) =>
      var p' := p.(unitPrice := unitPrice, name := name, description := description, sku := sku,
                   availableQuantity := availableQuantity, category := category);
      Success(products[id := p'])
  }

  /** `InActiveProductAsync`: a soft delete; afterwards the product is no longer found. */
  function InActiveProduct(products: map<int, Product>, id: int): (r: Result<map<int, Product>, ErrorCode>)
    ensures r.Success? <==> GetProduct(products, id).Success?
    ensures r.Failure? ==> r.error == NotFound(ProductType, id)
    ensures r.Success? ==>
              && r.value == products[id := products[id].(isActive := false)]
              && GetProduct(r.value, id) == Failure(NotFound(ProductType, id))
  {
    match GetProduct(products, id)
    case Failure(e) => Failure(e)
    case Success(p) => Success(products[id := p.(isActive := false)])
  }

  // ---------------------------------------------------------------------------
  // Properties of the ledger.

  /** The stock invariant of a product: neither count is negative. */
  predicate StockInvariant(p: Product) {
    p.availableQuantity >= 0 && p.reservedQuantity >= 0
  }

  /** Reserving q and then unreserving q restores the store and returns the same amount. */
  lemma ReserveThenUnreserve(products: map<int, Product>, id: int, quantity: int)
    requires ReserveProduct(products, id, quantity).Success?
    requires products[id].reservedQuantity >= 0
    ensures var reserved := ReserveProduct(products, id, quantity).value;
            UnreserveProduct(reserved.products, id, quantity) == Success(Posting(products, reserved.amount))
  {
    var reserved := ReserveProduct(products, id, quantity).value;
    assert reserved.products[id := products[id]] == products;
  }

  /** With non-negative quantities every ledger operation keeps the stock invariant
      of every product; shipping keeps it whatever the quantity. */
  lemma LedgerKeepsStockInvariant(products: map<int, Product>, id: int, quantity: int)
    requires forall k :: k in products ==> StockInvariant(products[k])
    ensures ShipProduct(products, id, quantity).Success? ==>
              forall k :: k in ShipProduct(products, id, quantity).value ==>
                StockInvariant(ShipProduct(products, id, quantity).value[k])
    ensures quantity >= 0 && ReserveProduct(products, id, quantity).Success? ==>
              forall k :: k in ReserveProduct(products, id, quantity).value.products ==>
                StockInvariant(ReserveProduct(products, id, quantity).value.products[k])
    ensures quantity >= 0 && UnreserveProduct(products, id, quantity).Success? ==>
              forall k :: k in UnreserveProduct(products, id, quantity).value.products ==>
                StockInvariant(UnreserveProduct(products, id, quantity).value.products[k])
  {
  }

  /** Reserving and unreserving move stock between the two counts: on-hand is conserved
      exactly by reserve, and by unreserve whenever the reserved count covers the quantity. */
  lemma OnHandConserved(products: map<int, Product>, id: int, quantity: int)
    ensures ReserveProduct(products, id, quantity).Success? ==>
              ReserveProduct(products, id, quantity).value.products[id].OnHandQuantity() == products[id].OnHandQuantity()
    ensures UnreserveProduct(products, id, quantity).Success? && quantity <= products[id].reservedQuantity ==>
              UnreserveProduct(products, id, quantity).value.products[id].OnHandQuantity() == products[id].OnHandQuantity()
  {
  }

  /** The source does not refuse a negative quantity: reserving -1 of a product with
      nothing reserved drives its reserved count below zero. */
  lemma NegativeReserveBreaksStockInvariant()
    ensures var p := Product(1, "sku", "name", "", 0, 500, 10, 0, true);
            var r := ReserveProduct(map[1 := p], 1, -1);
            r.Success? && r.value.products[1].reservedQuantity == -1 && !StockInvariant(r.value.products[1])
  {
  }
}

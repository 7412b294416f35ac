/**
 * Services/ProductsService.cs: the product store updated in place. Each method
 * is proved to leave the store exactly as the matching Inventory function says.
 */
module Products {
  import opened Wrappers
  import opened Entities
  import opened ErrorCodes
  import Inventory

  class ProductsService {
    /** The product table, keyed by product id (active and soft-deleted rows alike). */
    var products: map<int, Product>

    constructor (products: map<int, Product>)
      ensures this.products == products
    {
      this.products := products;
    }

    /** `GetProductAsync` */
    method GetProduct(id: int) returns (r: Result<Product, ErrorCode>)
      ensures r == Inventory.GetProduct(products, id)
    {
      if id in products && products[id].isActive {
        r := Success(products[id]);
      } else {
        r := Failure(NotFound(ProductType, id));
      }
    }

    /** `ReserveProductAsync`: returns the reserved amount, quantity times unit price. */
    method ReserveProduct(id: int, quantityToReserve: int) returns (r: Result<int, ErrorCode>)
      modifies this
      ensures match Inventory.ReserveProduct(old(products), id, quantityToReserve)
              case Success(posting) => products == posting.products && r == Success(posting.amount)
              case Failure(e) => products == old(products) && r == Failure(e)
    {
      var found := GetProduct(id);
      if found.Failure? {
        return Failure(found.error);
      }
      var product := found.value;
      if product.availableQuantity < quantityToReserve {
        return Failure(Named(ProductQuantityNotAvailable));
      }
      product := product.(availableQuantity := product.availableQuantity - quantityToReserve);
      product := product.(reservedQuantity := product.reservedQuantity + quantityToReserve);
      products := products[id := product];
      r := Success(quantityToReserve * product.unitPrice);
    }

    /** `UnreserveProductAsync`: returns the released amount, quantity times unit price. */
    method UnreserveProduct(id: int, quantityToUnreserve: int) returns (r: Result<int, ErrorCode>)
      modifies this
      ensures match Inventory.UnreserveProduct(old(products), id, quantityToUnreserve)
              case Success(posting) => products == posting.products && r == Success(posting.amount)
              case Failure(e) => products == old(products) && r == Failure(e)
    {
      var found := GetProduct(id);
      if found.Failure? {
        return Failure(found.error);
      }
      var product := found.value;
      product := product.(availableQuantity := product.availableQuantity + quantityToUnreserve);
      product := Inventory.DecreaseReservedQuantity(quantityToUnreserve, product);
      products := products[id := product];
      r := Success(quantityToUnreserve * product.unitPrice);
    }

    /** `ShipProductAsync` */
    method ShipProduct(id: int, quantityToShip: int) returns (r: Result<(), ErrorCode>)
      modifies this
      ensures match Inventory.ShipProduct(old(products), id, quantityToShip)
              case Success(shipped) => products == shipped && r == Success(())
              case Failure(e) => products == old(products) && r == Failure(e)
    {
      var found := GetProduct(id);
      if found.Failure? {
        return Failure(found.error);
      }
      var product := Inventory.DecreaseReservedQuantity(quantityToShip, found.value);
      products := products[id := product];
      r := Success(());
    }

    /** `UpdateProductAsync`: returns the updated product. */
    method UpdateProduct(id: int, sku: string, availableQuantity: int, unitPrice: int,
                         category: int, name: string, description: string)
      returns (r: Result<Product, ErrorCode>)
      modifies this
      ensures match Inventory.UpdateProduct(old(products), id, sku, availableQuantity, unitPrice, category, name, description)
              case Success(updated) => products == updated && r == Success(products[id])
              case Failure(e) => products == old(products) && r == Failure(e)
    {
      var found := GetProduct(id);
      if found.Failure? {
        return Failure(found.error);
      }
      var product := found.value.(unitPrice := unitPrice, name := name, description := description, sku := sku,
                                  availableQuantity := availableQuantity, category := category);
      products := products[id := product];
      r := Success(product);
    }

    /** `InActiveProductAsync` */
    method InActiveProduct(id: int) returns (r: Result<(), ErrorCode>)
      modifies this
      ensures match Inventory.InActiveProduct(old(products), id)
              case Success(after) => products == after && r == Success(())
              case Failure(e) => products == old(products) && r == Failure(e)
    {
      var found := GetProduct(id);
      if found.Failure? {
        return Failure(found.error);
      }
      products := products[id := found.value.(isActive := false)];
      r := Success(());
    }
  }
}

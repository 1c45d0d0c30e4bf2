/**
  Firestore as the endpoints see it: the ids of the `businesses`
  collection, each business's `products` sub-collection keyed by
  (business id, product id), and the `orders` collection.
 */
module Store {
  import opened Records

  class Database {
    var businesses: set<string>
    var products: map<(string, string), Product>
    var orders: map<string, Order>

    constructor (businesses: set<string>, products: map<(string, string), Product>, orders: map<string, Order>)
      ensures this.businesses == businesses && this.products == products && this.orders == orders
    {
      this.businesses := businesses;
      this.products := products;
      this.orders := orders;
    }

    /** `set` (or `update`) of the document `orders/id`. */
    method SetOrder(id: string, o: Order)
      modifies this
      ensures orders == old(orders)[id := o]
      ensures businesses == old(businesses) && products == old(products)
    {
      orders := orders[id := o];
    }

    /** `set` of the document `businesses/businessId/products/productId`. */
    method SetProduct(businessId: string, productId: string, p: Product)
      modifies this
      ensures products == old(products)[(businessId, productId) := p]
      ensures businesses == old(businesses) && orders == old(orders)
    {
      products := products[(businessId, productId) := p];
    }
  }
}

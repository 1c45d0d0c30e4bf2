/**
  The stored records shared by the order and product endpoints, as
  Firestore holds them, and the order request they start from. Prices and
  fees are integers (for example cents); a JavaScript number that may be
  NaN is a `Numeric`.
 */
module Records {
  import opened Common

  /** A JavaScript number that is either an integer value or NaN. */
  datatype Numeric = Num(value: int) | NaN {
    /** `+`: NaN as soon as one side is NaN. */
    function Plus(other: Numeric): (r: Numeric)
      ensures r.Num? <==> Num? && other.Num?
      ensures r.Num? ==> r.value == value + other.value
    {
      if Num? && other.Num? then Num(value + other.value) else NaN
    }

    /** `*` by an integer quantity. */
    function Times(k: int): (r: Numeric)
      ensures r.Num? <==> Num?
      ensures r.Num? ==> r.value == value * k
    {
      if Num? then Num(value * k) else NaN
    }
  }

  /**
    A stored field that arithmetic reads: whether `typeof v === "number"`,
    and `Number(v)`, the value `*` and `+` use. A stored NaN is a number
    whose conversion is NaN; null, "" and false convert to 0, a numeric
    string to its value, and undefined or any other string to NaN.
   */
  datatype StoredNumber = StoredNumber(isNumber: bool, converted: Numeric)

  datatype Location = Location(lat: real, lng: real)

  /** One element of `items` in an order request; `productId` and `specialNotes` are "" when falsy. */
  datatype RequestItem = RequestItem(productId: string, quantity: int, specialNotes: string)

  /**
    The JSON body of an order request. Strings are "" when falsy; `items`
    is None when it is not an array; `deliveryFee` is None when falsy;
    `location` is None when falsy.
   */
  datatype OrderRequest = OrderRequest(
    businessId: string,
    customerId: string,
    customerName: string,
    customerPhone: string,
    items: Option<seq<RequestItem>>,
    deliveryFee: Option<int>,
    location: Option<Location>,
    instructions: string,
    deliveryType: string)

  /** One validated line of a stored order. */
  datatype OrderItem = OrderItem(productId: string, name: string, quantity: int, price: StoredNumber, specialNotes: string)

  /** A document of the `orders` collection. */
  datatype Order = Order(
    orderId: string,
    businessId: string,
    customerId: string,
    customerName: string,
    customerPhone: string,
    items: seq<OrderItem>,
    total: Numeric,
    deliveryFee: int,
    location: Option<Location>,
    instructions: string,
    comprobanteUrl: string,
    reference: string,
    status: string,
    deliveryType: string,
    seenByOwner: bool,
    createdAt: int)

  /**
    A document of a business's `products` sub-collection. `name` is "" when
    falsy; `price` is the stored value as arithmetic reads it;
    `preparationTime` is NaN when it is not a number;
    `size` and `productType` (the stored `type`) are None for null.
   */
  datatype Product = Product(
    id: string,
    businessId: string,
    name: string,
    price: StoredNumber,
    description: string,
    category: string,
    preparationTime: Numeric,
    specialNotes: string,
    date: int,
    ingredients: seq<string>,
    available: bool,
    size: Option<string>,
    productType: Option<string>,
    imageUrl: string)

  const Pending: string := "pending"
  const Accepted: string := "accepted"
  const Rejected: string := "rejected"

  /** The order statuses the endpoints ever write. */
  predicate KnownStatus(status: string) {
    status == Pending || status == Accepted || status == Rejected
  }

  /** Every stored order has a status the endpoints write. */
  predicate KnownStatuses(orders: map<string, Order>) {
    forall id :: id in orders ==> KnownStatus(orders[id].status)
  }

  /** `subtotal += price * quantity` over the validated items, starting from 0. */
  function Subtotal(items: seq<OrderItem>): Numeric {
    if items == [] then Num(0)
    else
      var last := items[|items| - 1];
      Subtotal(items[..|items| - 1]).Plus(last.price.converted.Times(last.quantity))
  }

  /** Adding a line adds its `price * quantity` to the subtotal. */
  lemma SubtotalSnoc(lines: seq<OrderItem>, line: OrderItem)
    ensures Subtotal(lines + [line]) == Subtotal(lines).Plus(line.price.converted.Times(line.quantity))
  {
    assert (lines + [line])[..|lines|] == lines;
  }

  /** The subtotal is NaN exactly when some item's price converts to NaN. */
  lemma {:induction false} SubtotalNaN(items: seq<OrderItem>)
    ensures Subtotal(items).NaN? <==> exists k :: 0 <= k < |items| && items[k].price.converted.NaN?
  {
    if items != [] {
      var n := |items| - 1;
      SubtotalNaN(items[..n]);
      assert forall k :: 0 <= k < n ==> items[..n][k] == items[k];
    }
  }

  /** The subtotal of a concatenation is the sum of the subtotals: the order of items does not matter for grouping. */
  lemma {:induction false} SubtotalAppend(a: seq<OrderItem>, b: seq<OrderItem>)
    ensures Subtotal(a + b) == Subtotal(a).Plus(Subtotal(b))
  {
    if b == [] {
      assert a + b == a;
    } else {
      var n := |b| - 1;
      assert (a + b)[..|a + b| - 1] == a + b[..n];
      SubtotalAppend(a, b[..n]);
    }
  }

  /**
    The order both create endpoints write: the request's fields, the
    validated items, `total = subtotal + (deliveryFee || 0)`, no proof yet,
    not seen by the owner, `pending`, and a location only for delivery.
   */
  function NewOrder(req: OrderRequest, orderId: string, items: seq<OrderItem>, subtotal: Numeric, now: int): (o: Order)
    ensures o.orderId == orderId && o.items == items && o.createdAt == now
    ensures && o.businessId == req.businessId && o.customerId == req.customerId
            && o.customerName == req.customerName && o.customerPhone == req.customerPhone
            && o.instructions == req.instructions && o.deliveryType == req.deliveryType
    ensures o.status == Pending && !o.seenByOwner
    ensures o.comprobanteUrl == "" && o.reference == ""
    ensures o.deliveryFee == req.deliveryFee.GetOr(0)
    ensures o.total == subtotal.Plus(Num(o.deliveryFee))
    ensures o.location.Some? <==> req.deliveryType == "delivery" && req.location.Some?
    ensures req.deliveryType == "delivery" ==> o.location == req.location
  {
    var fee := req.deliveryFee.GetOr(0);
    Order(
      orderId := orderId,
      businessId := req.businessId,
      customerId := req.customerId,
      customerName := req.customerName,
      customerPhone := req.customerPhone,
      items := items,
      total := subtotal.Plus(Num(fee)),
      deliveryFee := fee,
      location := if req.deliveryType == "delivery" then req.location else None,
      instructions := req.instructions,
      comprobanteUrl := "",
      reference := "",
      status := Pending,
      deliveryType := req.deliveryType,
      seenByOwner := false,
      createdAt := now)
  }
}

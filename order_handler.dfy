/**
  The stand-alone order handler of api/orders/create.js. It differs from
  the router's `POST /create`: it checks the HTTP method, does not check
  `deliveryType` or `location`, rejects with 500 a product whose stored
  price does not have type number, and names an unnamed product "Sin nombre".
 */
module OrderHandler {
  import opened Common
  import opened Records
  import opened Store
  import OrderRoutes
  import Items

  /** The JSON payload of a 201 reply. */
  datatype HandlerBody = Created(success: bool, message: string, order: Order)

  const BusinessIdRequired: string := "businessId requerido"
  const CustomerIdRequired: string := "customerId requerido"
  const NoItems: string := "Debe incluir al menos un producto"
  const BusinessNotFound: string := "Negocio no encontrado"
  const InvalidItem: string := "Producto inválido en items"
  const OrderCreated: string := "Pedido creado exitosamente"
  const InternalError: string := "Error interno al crear pedido"
  const Unnamed: string := "Sin nombre"

  function ProductNotFound(productId: string): string {
    "Producto " + productId + " no encontrado"
  }

  function BadProductData(productId: string): string {
    "Datos inválidos para el producto " + productId
  }

  /** The field checks, in the order they run; None when all pass. */
  function RequestError(req: OrderRequest): (r: Option<Failure>)
    ensures r.None? <==> req.businessId != "" && req.customerId != "" && OrderRoutes.HasItems(req)
    ensures req.businessId == "" ==> r == Some(Failure(BAD_REQUEST, BusinessIdRequired))
    ensures req.businessId != "" && req.customerId == "" ==> r == Some(Failure(BAD_REQUEST, CustomerIdRequired))
    ensures req.businessId != "" && req.customerId != "" && !OrderRoutes.HasItems(req) ==>
              r == Some(Failure(BAD_REQUEST, NoItems))
  {
    if req.businessId == "" then Some(Failure(BAD_REQUEST, BusinessIdRequired))
    else if req.customerId == "" then Some(Failure(BAD_REQUEST, CustomerIdRequired))
    else if !OrderRoutes.HasItems(req) then Some(Failure(BAD_REQUEST, NoItems))
    else None
  }

  /** One iteration of the item loop: item checks, product lookup, the `typeof` test on the price, and the validated line. */
  function CheckItem(products: map<(string, string), Product>, businessId: string, item: RequestItem): (r: Result<OrderItem>)
    ensures r.Err? <==> || item.productId == "" || item.quantity <= 0
                        || (businessId, item.productId) !in products
                        || !products[(businessId, item.productId)].price.isNumber
    ensures item.productId == "" || item.quantity <= 0 ==> r == Err(Failure(BAD_REQUEST, InvalidItem))
    ensures item.productId != "" && item.quantity > 0 && (businessId, item.productId) !in products ==>
              r == Err(Failure(NOT_FOUND, ProductNotFound(item.productId)))
    ensures (&& item.productId != "" && item.quantity > 0 && (businessId, item.productId) in products
             && !products[(businessId, item.productId)].price.isNumber) ==>
              r == Err(Failure(INTERNAL_ERROR, BadProductData(item.productId)))
    ensures r.Ok? ==> var p := products[(businessId, item.productId)];
                      && r.value.productId == item.productId && r.value.quantity == item.quantity
                      && r.value.price == p.price && r.value.price.isNumber
                      && r.value.name == (if p.name == "" then Unnamed else p.name)
                      && r.value.name != ""
                      && r.value.specialNotes == item.specialNotes
  {
    if item.productId == "" || item.quantity <= 0 then
      Err(Failure(BAD_REQUEST, InvalidItem))
    else if (businessId, item.productId) !in products then
      Err(Failure(NOT_FOUND, ProductNotFound(item.productId)))
    else
      var p := products[(businessId, item.productId)];
      if !p.price.isNumber then
        Err(Failure(INTERNAL_ERROR, BadProductData(item.productId)))
      else
        Ok(OrderItem(item.productId, if p.name == "" then Unnamed else p.name, item.quantity, p.price, item.specialNotes))
  }

  /** The item check of this handler against the stored products of one business. */
  function Checker(products: map<(string, string), Product>, businessId: string): Items.Check {
    item => CheckItem(products, businessId, item)
  }

  /**
    The item loop: stops at the first item that fails, otherwise collects
    the lines and adds `price * quantity` to the subtotal.
   */
  method ValidateItems(db: Database, businessId: string, items: seq<RequestItem>)
    returns (r: Result<seq<OrderItem>>, subtotal: Numeric)
    ensures r == Items.ValidatedItems(Checker(db.products, businessId), items)
    ensures r.Ok? ==> subtotal == Subtotal(r.value)
  {
    ghost var check := Checker(db.products, businessId);
    var lines: seq<OrderItem> := [];
    subtotal := Num(0);
    var i := 0;
    while i < |items|
      invariant 0 <= i <= |items|
      invariant Items.ValidatedItems(check, items[..i]) == Ok(lines)
      invariant subtotal == Subtotal(lines)
    {
      var item := items[i];
      Items.ValidatedItemsNext(check, items, i);
      if item.productId == "" || item.quantity <= 0 {
        r := Err(Failure(BAD_REQUEST, InvalidItem));
        Items.ValidatedItemsFailFast(check, items, i + 1);
        return;
      }
      if (businessId, item.productId) !in db.products {
        r := Err(Failure(NOT_FOUND, ProductNotFound(item.productId)));
        Items.ValidatedItemsFailFast(check, items, i + 1);
        return;
      }
      var product := db.products[(businessId, item.productId)];
      if !product.price.isNumber {
        r := Err(Failure(INTERNAL_ERROR, BadProductData(item.productId)));
        Items.ValidatedItemsFailFast(check, items, i + 1);
        return;
      }
      var name := if product.name == "" then Unnamed else product.name;
      var line := OrderItem(item.productId, name, item.quantity, product.price, item.specialNotes);
      SubtotalSnoc(lines, line);
      subtotal := subtotal.Plus(product.price.converted.Times(item.quantity));
      lines := lines + [line];
      i := i + 1;
    }
    assert items[..i] == items;
    r := Ok(lines);
  }

  /** What the handler makes of a POST body: the new order, or the failure reply. */
  function CreateOutcome(businesses: set<string>, products: map<(string, string), Product>,
                         req: OrderRequest, orderId: string, now: int): Result<Order>
  {
    match RequestError(req)
    case Some(f) => Err(f)
    case None =>
      if req.businessId !in businesses then Err(Failure(NOT_FOUND, BusinessNotFound))
      else
        match Items.ValidatedItems(Checker(products, req.businessId), req.items.value)
        case Err(f) => Err(f)
        case Ok(lines) => Ok(NewOrder(req, orderId, lines, Subtotal(lines), now))
  }

  /**
    An order is created exactly when the fields are valid, the business
    exists and every item passes; every line's stored price then has type
    number, and the total is the sum of stored price × quantity plus the
    fee. The `typeof` test lets a stored NaN through, and the total is NaN
    exactly when some line's price is.
   */
  lemma CreateOutcomeOk(businesses: set<string>, products: map<(string, string), Product>,
                        req: OrderRequest, orderId: string, now: int)
    ensures var r := CreateOutcome(businesses, products, req, orderId, now);
            r.Ok? <==> && RequestError(req).None? && req.businessId in businesses
                       && forall k :: 0 <= k < |req.items.value| ==> CheckItem(products, req.businessId, req.items.value[k]).Ok?
    ensures var r := CreateOutcome(businesses, products, req, orderId, now);
            r.Ok? ==> && r.value.status == Pending && |r.value.items| == |req.items.value|
                      && (forall k :: 0 <= k < |req.items.value| ==>
                            r.value.items[k] == CheckItem(products, req.businessId, req.items.value[k]).value)
                      && (forall k :: 0 <= k < |r.value.items| ==> r.value.items[k].price.isNumber)
                      && (forall k :: 0 <= k < |req.items.value| ==> (req.businessId, req.items.value[k].productId) in products)
                      && r.value.total == Items.RequestSubtotal(products, req.businessId, req.items.value).Plus(Num(req.deliveryFee.GetOr(0)))
  {
    if RequestError(req).None? && req.businessId in businesses {
      var check := Checker(products, req.businessId);
      Items.ValidatedItemsOk(check, req.items.value);
      if Items.ValidatedItems(check, req.items.value).Ok? {
        Items.SubtotalOfRequest(check, products, req.businessId, req.items.value);
      }
    }
  }

  /**
    The type test lets a stored NaN through, and the total of a created
    order is NaN exactly when one of its stored prices is.
   */
  lemma CreateOutcomeNaN(businesses: set<string>, products: map<(string, string), Product>,
                         req: OrderRequest, orderId: string, now: int)
    ensures var r := CreateOutcome(businesses, products, req, orderId, now);
            r.Ok? ==> (r.value.total.NaN? <==> exists k :: 0 <= k < |r.value.items| && r.value.items[k].price.converted.NaN?)
  {
    var r := CreateOutcome(businesses, products, req, orderId, now);
    if r.Ok? {
      SubtotalNaN(r.value.items);
    }
  }

  /**
    Validation runs in order: a field failure, then a missing business
    (before any item), then the first failing item. A 500 comes only from
    a stored price whose type is not number.
   */
  lemma CreateOutcomeErr(businesses: set<string>, products: map<(string, string), Product>,
                         req: OrderRequest, orderId: string, now: int)
    ensures var r := CreateOutcome(businesses, products, req, orderId, now);
            && (RequestError(req).Some? ==> r == Err(RequestError(req).value))
            && (RequestError(req).None? && req.businessId !in businesses ==> r == Err(Failure(NOT_FOUND, BusinessNotFound)))
            && (RequestError(req).None? && req.businessId in businesses && r.Err? ==>
                  exists k :: && 0 <= k < |req.items.value|
                              && (forall j :: 0 <= j < k ==> CheckItem(products, req.businessId, req.items.value[j]).Ok?)
                              && CheckItem(products, req.businessId, req.items.value[k]) == Err(r.failure))
            && (r.Err? && r.failure.status == INTERNAL_ERROR ==>
                  exists k :: && 0 <= k < |req.items.value|
                              && (req.businessId, req.items.value[k].productId) in products
                              && !products[(req.businessId, req.items.value[k].productId)].price.isNumber)
  {
    if RequestError(req).None? && req.businessId in businesses
       && Items.ValidatedItems(Checker(products, req.businessId), req.items.value).Err? {
      Items.ValidatedItemsFirstFailure(Checker(products, req.businessId), req.items.value);
    }
  }

  /**
    Where both variants accept a request against the same store, they
    write the same order except for the names of unnamed products: the
    same lines, prices, quantities and total.
   */
  lemma AgreesWithRouter(businesses: set<string>, products: map<(string, string), Product>,
                         req: OrderRequest, orderId: string, now: int)
    requires CreateOutcome(businesses, products, req, orderId, now).Ok?
    requires OrderRoutes.CreateOutcome(businesses, products, req, orderId, now).Ok?
    ensures var mine := CreateOutcome(businesses, products, req, orderId, now).value;
            var theirs := OrderRoutes.CreateOutcome(businesses, products, req, orderId, now).value;
            && mine.total == theirs.total
            && |mine.items| == |theirs.items|
            && (forall k :: 0 <= k < |mine.items| ==> mine.items[k].(name := theirs.items[k].name) == theirs.items[k])
            && mine.(items := theirs.items) == theirs
  {
    CreateOutcomeOk(businesses, products, req, orderId, now);
    OrderRoutes.CreateOutcomeOk(businesses, products, req, orderId, now);
    var items := req.items.value;
    var mine := Items.ValidatedItems(Checker(products, req.businessId), items).value;
    var theirs := Items.ValidatedItems(OrderRoutes.Checker(products, req.businessId), items).value;
    assert CreateOutcome(businesses, products, req, orderId, now).value
           == NewOrder(req, orderId, mine, Subtotal(mine), now);
    assert OrderRoutes.CreateOutcome(businesses, products, req, orderId, now).value
           == NewOrder(req, orderId, theirs, Subtotal(theirs), now);
  }

  /**
    The handler: 405 for any method but POST; a missing body lands in the
    catch block; otherwise the new order is written under the generated id
    on success and nothing is written otherwise.
   */
  method Handle(db: Database, httpMethod: string, body: Option<OrderRequest>, orderId: string, now: int)
    returns (reply: Reply<HandlerBody>)
    modifies db
    ensures httpMethod != "POST" ==> reply == Reply(METHOD_NOT_ALLOWED, Error(MethodNotAllowed)) && db.orders == old(db.orders)
    ensures httpMethod == "POST" && body.None? ==> reply == Reply(INTERNAL_ERROR, Error(InternalError)) && db.orders == old(db.orders)
    ensures httpMethod == "POST" && body.Some? ==>
              var r := CreateOutcome(old(db.businesses), old(db.products), body.value, orderId, now);
              && (r.Ok? ==> reply == Reply(CREATED, Data(Created(true, OrderCreated, r.value)))
                            && db.orders == old(db.orders)[orderId := r.value])
              && (r.Err? ==> reply == FailureReply(r.failure) && db.orders == old(db.orders))
    ensures db.businesses == old(db.businesses) && db.products == old(db.products)
  {
    if httpMethod != "POST" {
      return Reply(METHOD_NOT_ALLOWED, Error(MethodNotAllowed));
    }
    if body.None? {
      return Reply(INTERNAL_ERROR, Error(InternalError));
    }
    var req := body.value;
    var invalid := RequestError(req);
    if invalid.Some? {
      return FailureReply(invalid.value);
    }
    if req.businessId !in db.businesses {
      return Reply(NOT_FOUND, Error(BusinessNotFound));
    }
    var lines, subtotal := ValidateItems(db, req.businessId, req.items.value);
    if lines.Err? {
      return FailureReply(lines.failure);
    }
    var order := NewOrder(req, orderId, lines.value, subtotal, now);
    db.SetOrder(orderId, order);
    reply := Reply(CREATED, Data(Created(true, OrderCreated, order)));
  }
}

/**
  The Express router of api/orders.js: `POST /create` (validation, the
  item loop and the new order), `PATCH /:orderId/status` and
  `PATCH /:orderId/proof`. Document ids and `Date.now()` are parameters.
 */
module OrderRoutes {
  import opened Common
  import opened Records
  import opened Store
  import Items

  /** The JSON payload of a successful reply. */
  datatype RouteBody = Created(message: string, order: Order) | Ack(success: bool, message: string)

  const BusinessIdRequired: string := "businessId requerido"
  const CustomerIdRequired: string := "customerId requerido"
  const NoItems: string := "Debe incluir al menos un producto"
  const BadDeliveryType: string := "deliveryType inválido"
  const LocationRequired: string := "location requerido para delivery"
  const BusinessNotFound: string := "Negocio no encontrado"
  const InvalidItem: string := "Producto inválido en items"
  const OrderCreated: string := "Pedido creado exitosamente"
  const MissingProof: string := "Faltan datos del comprobante"
  const OrderNotFound: string := "Pedido no encontrado"
  const NotAccepted: string := "Solo puedes subir comprobante si el pedido está aceptado"
  const ProofSaved: string := "Comprobante guardado correctamente"
  const BadStatus: string := "Estado inválido"

  function ProductNotFound(productId: string): string {
    "Producto " + productId + " no encontrado"
  }

  /** `items` is an array with at least one element. */
  predicate HasItems(req: OrderRequest) {
    req.items.Some? && |req.items.value| > 0
  }

  /** The field checks of `POST /create`, in the order they run; None when all pass. */
  function RequestError(req: OrderRequest): (r: Option<Failure>)
    ensures r.None? <==> && req.businessId != "" && req.customerId != "" && HasItems(req)
                         && (req.deliveryType == "delivery" || req.deliveryType == "pickup")
                         && (req.deliveryType == "delivery" ==> req.location.Some?)
    ensures r.Some? ==> r.value.status == BAD_REQUEST
    ensures req.businessId == "" ==> r == Some(Failure(BAD_REQUEST, BusinessIdRequired))
    ensures req.businessId != "" && req.customerId == "" ==> r == Some(Failure(BAD_REQUEST, CustomerIdRequired))
    ensures req.businessId != "" && req.customerId != "" && !HasItems(req) ==> r == Some(Failure(BAD_REQUEST, NoItems))
    ensures (&& req.businessId != "" && req.customerId != "" && HasItems(req)
             && req.deliveryType != "delivery" && req.deliveryType != "pickup") ==>
              r == Some(Failure(BAD_REQUEST, BadDeliveryType))
    ensures (&& req.businessId != "" && req.customerId != "" && HasItems(req)
             && req.deliveryType == "delivery" && req.location.None?) ==>
              r == Some(Failure(BAD_REQUEST, LocationRequired))
  {
    if req.businessId == "" then Some(Failure(BAD_REQUEST, BusinessIdRequired))
    else if req.customerId == "" then Some(Failure(BAD_REQUEST, CustomerIdRequired))
    else if !HasItems(req) then Some(Failure(BAD_REQUEST, NoItems))
    else if req.deliveryType != "delivery" && req.deliveryType != "pickup" then Some(Failure(BAD_REQUEST, BadDeliveryType))
    else if req.deliveryType == "delivery" && req.location.None? then Some(Failure(BAD_REQUEST, LocationRequired))
    else None
  }

  /** One iteration of the item loop: the item checks, the product lookup, and the validated line. */
  function CheckItem(products: map<(string, string), Product>, businessId: string, item: RequestItem): (r: Result<OrderItem>)
    ensures r.Err? <==> item.productId == "" || item.quantity <= 0 || (businessId, item.productId) !in products
    ensures item.productId == "" || item.quantity <= 0 ==> r == Err(Failure(BAD_REQUEST, InvalidItem))
    ensures item.productId != "" && item.quantity > 0 && (businessId, item.productId) !in products ==>
              r == Err(Failure(NOT_FOUND, ProductNotFound(item.productId)))
    ensures r.Ok? ==> var p := products[(businessId, item.productId)];
                      && r.value.productId == item.productId && r.value.quantity == item.quantity
                      && r.value.name == p.name && r.value.price == p.price
                      && r.value.specialNotes == item.specialNotes
  {
    if item.productId == "" || item.quantity <= 0 then
      Err(Failure(BAD_REQUEST, InvalidItem))
    else if (businessId, item.productId) !in products then
      Err(Failure(NOT_FOUND, ProductNotFound(item.productId)))
    else
      var p := products[(businessId, item.productId)];
      Ok(OrderItem(item.productId, p.name, item.quantity, p.price, item.specialNotes))
  }

  /** The item check of this endpoint against the stored products of one business. */
  function Checker(products: map<(string, string), Product>, businessId: string): Items.Check {
    item => CheckItem(products, businessId, item)
  }

  /**
    The item loop: stops at the first item that fails, otherwise collects
    the lines and `subtotal += price * quantity`.
   */
  method ValidateItems(db: Database, businessId: string, items: seq<RequestItem>)
    returns (r: Result<seq<OrderItem>>, subtotal: Numeric)
    ensures r == Items.ValidatedItems(Checker(db.products, businessId), items)
    ensures r.Ok? ==> subtotal == Subtotal(r.value)
  {
    ghost var check := Checker(db.products, businessId);
    var lines: seq<OrderItem> := [];
    subtotal := Num(0);
    var i := 0;
    while i < |items|
      invariant 0 <= i <= |items|
      invariant Items.ValidatedItems(check, items[..i]) == Ok(lines)
      invariant subtotal == Subtotal(lines)
    {
      var item := items[i];
      Items.ValidatedItemsNext(check, items, i);
      if item.productId == "" || item.quantity <= 0 {
        r := Err(Failure(BAD_REQUEST, InvalidItem));
        Items.ValidatedItemsFailFast(check, items, i + 1);
        return;
      }
      if (businessId, item.productId) !in db.products {
        r := Err(Failure(NOT_FOUND, ProductNotFound(item.productId)));
        Items.ValidatedItemsFailFast(check, items, i + 1);
        return;
      }
      var product := db.products[(businessId, item.productId)];
      var line := OrderItem(item.productId, product.name, item.quantity, product.price, item.specialNotes);
      SubtotalSnoc(lines, line);
      subtotal := subtotal.Plus(product.price.converted.Times(item.quantity));
      lines := lines + [line];
      i := i + 1;
    }
    assert items[..i] == items;
    r := Ok(lines);
  }

  /** What `POST /create` makes of a request: the new order, or the failure reply. */
  function CreateOutcome(businesses: set<string>, products: map<(string, string), Product>,
                         req: OrderRequest, orderId: string, now: int): Result<Order>
  {
    match RequestError(req)
    case Some(f) => Err(f)
    case None =>
      if req.businessId !in businesses then Err(Failure(NOT_FOUND, BusinessNotFound))
      else
        match Items.ValidatedItems(Checker(products, req.businessId), req.items.value)
        case Err(f) => Err(f)
        case Ok(lines) => Ok(NewOrder(req, orderId, lines, Subtotal(lines), now))
  }

  /**
    An order is created exactly when the fields are valid, the business
    exists and every item passes; it is pending, has one line per
    requested item, each with the stored name and price, and its total is
    the sum of stored price × quantity plus the fee.
   */
  lemma CreateOutcomeOk(businesses: set<string>, products: map<(string, string), Product>,
                        req: OrderRequest, orderId: string, now: int)
    ensures var r := CreateOutcome(businesses, products, req, orderId, now);
            r.Ok? <==> && RequestError(req).None? && req.businessId in businesses
                       && forall k :: 0 <= k < |req.items.value| ==> CheckItem(products, req.businessId, req.items.value[k]).Ok?
    ensures var r := CreateOutcome(businesses, products, req, orderId, now);
            r.Ok? ==> && r.value.status == Pending && r.value.orderId == orderId
                      && |r.value.items| == |req.items.value|
                      && (forall k :: 0 <= k < |req.items.value| ==> (req.businessId, req.items.value[k].productId) in products)
                      && (forall k :: 0 <= k < |req.items.value| ==>
                            r.value.items[k] == CheckItem(products, req.businessId, req.items.value[k]).value)
                      && r.value.total == Items.RequestSubtotal(products, req.businessId, req.items.value).Plus(Num(req.deliveryFee.GetOr(0)))
  {
    if RequestError(req).None? && req.businessId in businesses {
      var check := Checker(products, req.businessId);
      Items.ValidatedItemsOk(check, req.items.value);
      if Items.ValidatedItems(check, req.items.value).Ok? {
        Items.SubtotalOfRequest(check, products, req.businessId, req.items.value);
      }
    }
  }

  /**
    Validation runs in order: a field failure comes before the business
    lookup, which comes before any item; the first failing item decides.
    Every failure is a 400 or a 404.
   */
  lemma CreateOutcomeErr(businesses: set<string>, products: map<(string, string), Product>,
                         req: OrderRequest, orderId: string, now: int)
    ensures var r := CreateOutcome(businesses, products, req, orderId, now);
            && (RequestError(req).Some? ==> r == Err(RequestError(req).value))
            && (RequestError(req).None? && req.businessId !in businesses ==> r == Err(Failure(NOT_FOUND, BusinessNotFound)))
            && (RequestError(req).None? && req.businessId in businesses && r.Err? ==>
                  exists k :: && 0 <= k < |req.items.value|
                              && (forall j :: 0 <= j < k ==> CheckItem(products, req.businessId, req.items.value[j]).Ok?)
                              && CheckItem(products, req.businessId, req.items.value[k]) == Err(r.failure))
            && (r.Err? ==> r.failure.status == BAD_REQUEST || r.failure.status == NOT_FOUND)
  {
    if RequestError(req).None? && req.businessId in businesses
       && Items.ValidatedItems(Checker(products, req.businessId), req.items.value).Err? {
      Items.ValidatedItemsFirstFailure(Checker(products, req.businessId), req.items.value);
    }
  }

  /** `POST /create`: writes the new order under the generated id on success, and nothing otherwise. */
  method CreateOrder(db: Database, req: OrderRequest, orderId: string, now: int) returns (reply: Reply<RouteBody>)
    modifies db
    ensures var r := CreateOutcome(old(db.businesses), old(db.products), req, orderId, now);
            && (r.Ok? ==> reply == Reply(CREATED, Data(Created(OrderCreated, r.value)))
                          && db.orders == old(db.orders)[orderId := r.value])
            && (r.Err? ==> reply == FailureReply(r.failure) && db.orders == old(db.orders))
    ensures db.businesses == old(db.businesses) && db.products == old(db.products)
  {
    var invalid := RequestError(req);
    if invalid.Some? {
      return FailureReply(invalid.value);
    }
    if req.businessId !in db.businesses {
      return Reply(NOT_FOUND, Error(BusinessNotFound));
    }
    var lines, subtotal := ValidateItems(db, req.businessId, req.items.value);
    if lines.Err? {
      return FailureReply(lines.failure);
    }
    var order := NewOrder(req, orderId, lines.value, subtotal, now);
    db.SetOrder(orderId, order);
    reply := Reply(CREATED, Data(Created(OrderCreated, order)));
  }

  /** What `PATCH /:orderId/status` makes of the stored order: the only accepted values are "accepted" and "rejected". */
  function StatusOutcome(orders: map<string, Order>, orderId: string, status: string): (r: Result<Order>)
    ensures r.Ok? <==> (status == Accepted || status == Rejected) && orderId in orders
    ensures status != Accepted && status != Rejected ==> r == Err(Failure(BAD_REQUEST, BadStatus))
    ensures (status == Accepted || status == Rejected) && orderId !in orders ==> r == Err(Failure(NOT_FOUND, OrderNotFound))
    ensures r.Ok? ==> r.value.status == status && r.value.(status := orders[orderId].status) == orders[orderId]
  {
    if status != Accepted && status != Rejected then Err(Failure(BAD_REQUEST, BadStatus))
    else if orderId !in orders then Err(Failure(NOT_FOUND, OrderNotFound))
    else Ok(orders[orderId].(status := status))
  }

  /** `PATCH /:orderId/status`: on success only the status of that order changes. */
  method UpdateStatus(db: Database, orderId: string, status: string) returns (reply: Reply<RouteBody>)
    modifies db
    ensures var r := StatusOutcome(old(db.orders), orderId, status);
            && (r.Ok? ==> reply == Reply(OK, Data(Ack(true, "Pedido " + status)))
                          && db.orders == old(db.orders)[orderId := r.value])
            && (r.Err? ==> reply == FailureReply(r.failure) && db.orders == old(db.orders))
    ensures db.businesses == old(db.businesses) && db.products == old(db.products)
  {
    if status != Accepted && status != Rejected {
      return Reply(BAD_REQUEST, Error(BadStatus));
    }
    if orderId !in db.orders {
      return Reply(NOT_FOUND, Error(OrderNotFound));
    }
    var order := db.orders[orderId];
    db.SetOrder(orderId, order.(status := status));
    reply := Reply(OK, Data(Ack(true, "Pedido " + status)));
  }

  /** What `PATCH /:orderId/proof` makes of the stored order: proof is taken only by an accepted order. */
  function ProofOutcome(orders: map<string, Order>, orderId: string, url: string, reference: string): (r: Result<Order>)
    ensures r.Ok? <==> url != "" && reference != "" && orderId in orders && orders[orderId].status == Accepted
    ensures url == "" || reference == "" ==> r == Err(Failure(BAD_REQUEST, MissingProof))
    ensures url != "" && reference != "" && orderId !in orders ==> r == Err(Failure(NOT_FOUND, OrderNotFound))
    ensures url != "" && reference != "" && orderId in orders && orders[orderId].status != Accepted ==>
              r == Err(Failure(BAD_REQUEST, NotAccepted))
    ensures r.Ok? ==> var o := orders[orderId];
                      && r.value.comprobanteUrl == url && r.value.reference == reference
                      && r.value.(comprobanteUrl := o.comprobanteUrl, reference := o.reference) == o
  {
    if url == "" || reference == "" then Err(Failure(BAD_REQUEST, MissingProof))
    else if orderId !in orders then Err(Failure(NOT_FOUND, OrderNotFound))
    else if orders[orderId].status != Accepted then Err(Failure(BAD_REQUEST, NotAccepted))
    else Ok(orders[orderId].(comprobanteUrl := url, reference := reference))
  }

  /** `PATCH /:orderId/proof`: on success only `comprobanteUrl` and `reference` of that order change. */
  method UploadProof(db: Database, orderId: string, url: string, reference: string) returns (reply: Reply<RouteBody>)
    modifies db
    ensures var r := ProofOutcome(old(db.orders), orderId, url, reference);
            && (r.Ok? ==> reply == Reply(OK, Data(Ack(true, ProofSaved)))
                          && db.orders == old(db.orders)[orderId := r.value])
            && (r.Err? ==> reply == FailureReply(r.failure) && db.orders == old(db.orders))
    ensures db.businesses == old(db.businesses) && db.products == old(db.products)
  {
    if url == "" || reference == "" {
      return Reply(BAD_REQUEST, Error(MissingProof));
    }
    if orderId !in db.orders {
      return Reply(NOT_FOUND, Error(OrderNotFound));
    }
    var order := db.orders[orderId];
    if order.status != Accepted {
      return Reply(BAD_REQUEST, Error(NotAccepted));
    }
    db.SetOrder(orderId, order.(comprobanteUrl := url, reference := reference));
    reply := Reply(OK, Data(Ack(true, ProofSaved)));
  }

  /**
    The lifecycle: a new order takes no proof; once accepted it takes any
    non-empty proof; once rejected it takes none. The status check does
    not look at the current status, so a rejected order can still be
    accepted.
   */
  lemma Lifecycle(orders: map<string, Order>, o: Order, orderId: string, url: string, reference: string)
    requires o.status == Pending && url != "" && reference != ""
    ensures ProofOutcome(orders[orderId := o], orderId, url, reference) == Err(Failure(BAD_REQUEST, NotAccepted))
    ensures var accepted := StatusOutcome(orders[orderId := o], orderId, Accepted).value;
            ProofOutcome(orders[orderId := accepted], orderId, url, reference).Ok?
    ensures var rejected := StatusOutcome(orders[orderId := o], orderId, Rejected).value;
            && ProofOutcome(orders[orderId := rejected], orderId, url, reference) == Err(Failure(BAD_REQUEST, NotAccepted))
            && StatusOutcome(orders[orderId := rejected], orderId, Accepted).Ok?
  {
  }

  /** Creating, accepting or rejecting, and attaching proof all keep every stored status among the known ones. */
  lemma StatusesStayKnown(orders: map<string, Order>, orderId: string, status: string,
                          url: string, reference: string, created: Order)
    requires KnownStatuses(orders) && created.status == Pending
    ensures KnownStatuses(orders[orderId := created])
    ensures StatusOutcome(orders, orderId, status).Ok? ==>
              KnownStatuses(orders[orderId := StatusOutcome(orders, orderId, status).value])
    ensures ProofOutcome(orders, orderId, url, reference).Ok? ==>
              KnownStatuses(orders[orderId := ProofOutcome(orders, orderId, url, reference).value])
  {
  }
}

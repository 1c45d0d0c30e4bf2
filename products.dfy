/**
  The product handler of api/products/create.js: required fields, the
  business check, and the stored record built from the body with its
  defaults and coercions. The document id and `Date.now()` are parameters.
 */
module Products {
  import opened Common
  import opened Records
  import opened Store
  import OrderHandler

  /**
    The JSON body of a product request. `businessId` and `name` are "" when
    falsy. `price` is `Number(price)` (NaN when absent or not numeric).
    A None field was absent and takes its default; `preparationTime` holds
    `Number(preparationTime)` when present; `available` holds the
    truthiness of the value sent; `ingredients` is None when absent or not
    an array; `size` and `productType` are None when absent or null.
   */
  datatype ProductRequest = ProductRequest(
    businessId: string,
    name: string,
    price: Numeric,
    description: Option<string>,
    category: Option<string>,
    preparationTime: Option<Numeric>,
    specialNotes: Option<string>,
    available: Option<bool>,
    ingredients: Option<seq<string>>,
    size: Option<string>,
    productType: Option<string>,
    imageUrl: Option<string>)

  /** The JSON payload of a 201 reply. */
  datatype ProductBody = Created(success: bool, message: string, product: Product)

  const BusinessIdRequired: string := "businessId requerido"
  const NameRequired: string := "name requerido"
  const BusinessNotFound: string := "Negocio no encontrado"
  const ProductCreated: string := "Producto creado exitosamente"
  const InternalError: string := "Error interno"

  /**
    The stored record: a numeric price (0 for NaN), `Number` of the
    preparation time (0 when absent), `[]` for non-array ingredients,
    available unless a falsy value was sent, "" for absent text fields.
   */
  function NewProduct(req: ProductRequest, productId: string, now: int): (p: Product)
    ensures p.id == productId && p.businessId == req.businessId && p.name == req.name && p.date == now
    ensures p.price.isNumber && p.price.converted.Num?
    ensures req.price.Num? ==> p.price.converted == req.price
    ensures req.price.NaN? ==> p.price.converted == Num(0)
    ensures req.preparationTime.None? ==> p.preparationTime == Num(0)
    ensures req.preparationTime.Some? ==> p.preparationTime == req.preparationTime.value
    ensures p.ingredients == (if req.ingredients.Some? then req.ingredients.value else [])
    ensures p.available <==> req.available != Some(false)
    ensures (req.description.None? ==> p.description == "") && (req.category.None? ==> p.category == "")
    ensures (req.specialNotes.None? ==> p.specialNotes == "") && (req.imageUrl.None? ==> p.imageUrl == "")
    ensures (req.description.Some? ==> p.description == req.description.value)
            && (req.category.Some? ==> p.category == req.category.value)
    ensures (req.specialNotes.Some? ==> p.specialNotes == req.specialNotes.value)
            && (req.imageUrl.Some? ==> p.imageUrl == req.imageUrl.value)
    ensures p.size == req.size && p.productType == req.productType
  {
    Product(
      id := productId,
      businessId := req.businessId,
      name := req.name,
      price := StoredNumber(true, if req.price.NaN? then Num(0) else req.price),
      description := req.description.GetOr(""),
      category := req.category.GetOr(""),
      preparationTime := req.preparationTime.GetOr(Num(0)),
      specialNotes := req.specialNotes.GetOr(""),
      date := now,
      ingredients := req.ingredients.GetOr([]),
      available := req.available.GetOr(true),
      size := req.size,
      productType := req.productType,
      imageUrl := req.imageUrl.GetOr(""))
  }

  /** What the handler makes of a POST body: the stored record, or the failure reply. */
  function CreateOutcome(businesses: set<string>, req: ProductRequest, productId: string, now: int): (r: Result<Product>)
    ensures r.Ok? <==> req.businessId != "" && req.name != "" && req.businessId in businesses
    ensures req.businessId == "" ==> r == Err(Failure(BAD_REQUEST, BusinessIdRequired))
    ensures req.businessId != "" && req.name == "" ==> r == Err(Failure(BAD_REQUEST, NameRequired))
    ensures req.businessId != "" && req.name != "" && req.businessId !in businesses ==>
              r == Err(Failure(NOT_FOUND, BusinessNotFound))
  {
    if req.businessId == "" then Err(Failure(BAD_REQUEST, BusinessIdRequired))
    else if req.name == "" then Err(Failure(BAD_REQUEST, NameRequired))
    else if req.businessId !in businesses then Err(Failure(NOT_FOUND, BusinessNotFound))
    else Ok(NewProduct(req, productId, now))
  }

  /**
    The handler: 405 for any method but POST; a missing body lands in the
    catch block with a 500; otherwise the record is stored under
    (businessId, generated id) and the 201 reply carries exactly the
    stored record. Nothing is stored on failure.
   */
  method Handle(db: Database, httpMethod: string, body: Option<ProductRequest>, productId: string, now: int)
    returns (reply: Reply<ProductBody>)
    modifies db
    ensures httpMethod != "POST" ==> reply == Reply(METHOD_NOT_ALLOWED, Error(MethodNotAllowed)) && db.products == old(db.products)
    ensures httpMethod == "POST" && body.None? ==> reply.status == INTERNAL_ERROR && reply.body.Error? && db.products == old(db.products)
    ensures httpMethod == "POST" && body.Some? ==>
              var r := CreateOutcome(old(db.businesses), body.value, productId, now);
              && (r.Ok? ==> && db.products == old(db.products)[(body.value.businessId, productId) := r.value]
                            && reply == Reply(CREATED, Data(Created(true, ProductCreated, db.products[(body.value.businessId, productId)]))))
              && (r.Err? ==> reply == FailureReply(r.failure) && db.products == old(db.products))
    ensures db.businesses == old(db.businesses) && db.orders == old(db.orders)
  {
    if httpMethod != "POST" {
      return Reply(METHOD_NOT_ALLOWED, Error(MethodNotAllowed));
    }
    if body.None? {
      return Reply(INTERNAL_ERROR, Error(InternalError));
    }
    var req := body.value;
    if req.businessId == "" {
      return Reply(BAD_REQUEST, Error(BusinessIdRequired));
    }
    if req.name == "" {
      return Reply(BAD_REQUEST, Error(NameRequired));
    }
    if req.businessId !in db.businesses {
      return Reply(NOT_FOUND, Error(BusinessNotFound));
    }
    var product := NewProduct(req, productId, now);
    db.SetProduct(req.businessId, productId, product);
    reply := Reply(CREATED, Data(Created(true, ProductCreated, product)));
  }

  /**
    A product created here can be ordered through api/orders/create.js:
    its stored price has type number and is not NaN, so the item check never fails with 500 on it,
    and an item of positive quantity for it is accepted with the stored
    name and price.
   */
  lemma CreatedProductIsOrderable(businesses: set<string>, products: map<(string, string), Product>,
                                  req: ProductRequest, productId: string, now: int, item: RequestItem)
    requires CreateOutcome(businesses, req, productId, now).Ok?
    requires item.productId == productId && productId != "" && item.quantity > 0
    ensures var p := CreateOutcome(businesses, req, productId, now).value;
            var check := OrderHandler.CheckItem(products[(req.businessId, productId) := p], req.businessId, item);
            && check.Ok?
            && check.value.name == req.name && check.value.price == p.price
            && check.value.price.converted.Num?
  {
  }
}

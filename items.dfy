/**
  The item loop shared by both order-creation endpoints: every item is
  checked in order against the stored products, the first failing item
  ends the loop, and otherwise each item becomes one validated line. The
  endpoints differ only in the check they apply to one item, so the check
  is a parameter here.
 */
module Items {
  import opened Common
  import opened Records

  /** What one iteration of the loop makes of one requested item. */
  type Check = RequestItem -> Result<OrderItem>

  /** The outcome of the item loop: the validated lines, or the failure of the first item that fails. */
  function ValidatedItems(check: Check, items: seq<RequestItem>): Result<seq<OrderItem>> {
    if items == [] then Ok([])
    else
      match ValidatedItems(check, items[..|items| - 1])
      case Err(f) => Err(f)
      case Ok(lines) =>
        match check(items[|items| - 1])
        case Err(f) => Err(f)
        case Ok(line) => Ok(lines + [line])
  }

  /** Once a prefix fails, the loop's outcome is that failure. */
  lemma {:induction false} ValidatedItemsFailFast(check: Check, items: seq<RequestItem>, n: int)
    requires 0 <= n <= |items|
    requires ValidatedItems(check, items[..n]).Err?
    ensures ValidatedItems(check, items) == ValidatedItems(check, items[..n])
  {
    if n < |items| {
      var m := |items| - 1;
      assert items[..m][..n] == items[..n];
      ValidatedItemsFailFast(check, items[..m], n);
      assert items[..|items|] == items;
    } else {
      assert items[..n] == items;
    }
  }

  /** Success means every item passes; the lines then keep the request's order and count. */
  lemma {:induction false} ValidatedItemsOk(check: Check, items: seq<RequestItem>)
    ensures ValidatedItems(check, items).Ok? <==> forall k :: 0 <= k < |items| ==> check(items[k]).Ok?
    ensures ValidatedItems(check, items).Ok? ==>
              var lines := ValidatedItems(check, items).value;
              && |lines| == |items|
              && forall k :: 0 <= k < |items| ==> lines[k] == check(items[k]).value
  {
    if items != [] {
      var n := |items| - 1;
      ValidatedItemsOk(check, items[..n]);
      assert forall k :: 0 <= k < n ==> items[..n][k] == items[k];
    }
  }

  /** A failure is that of the first failing item. */
  lemma {:induction false} ValidatedItemsFirstFailure(check: Check, items: seq<RequestItem>)
    requires ValidatedItems(check, items).Err?
    ensures exists k :: && 0 <= k < |items|
                        && (forall j :: 0 <= j < k ==> check(items[j]).Ok?)
                        && check(items[k]) == Err(ValidatedItems(check, items).failure)
  {
    var n := |items| - 1;
    var init := items[..n];
    assert forall j :: 0 <= j < n ==> init[j] == items[j];
    if ValidatedItems(check, init).Err? {
      ValidatedItemsFirstFailure(check, init);
    } else {
      ValidatedItemsOk(check, init);
    }
  }

  /** One more item of the loop: the outcome on `items[..i + 1]` from the outcome on `items[..i]`. */
  lemma ValidatedItemsNext(check: Check, items: seq<RequestItem>, i: int)
    requires 0 <= i < |items|
    ensures ValidatedItems(check, items[..i + 1]) ==
              match ValidatedItems(check, items[..i])
              case Err(f) => Err(f)
              case Ok(lines) =>
                match check(items[i])
                case Err(f) => Err(f)
                case Ok(line) => Ok(lines + [line])
  {
    assert items[..i + 1][..i] == items[..i];
  }

  /** `Σ price × quantity` over the request's items, with the stored prices: the reference for the subtotal. */
  function RequestSubtotal(products: map<(string, string), Product>, businessId: string, items: seq<RequestItem>): Numeric
    requires forall k :: 0 <= k < |items| ==> (businessId, items[k].productId) in products
  {
    if items == [] then Num(0)
    else
      var last := items[|items| - 1];
      RequestSubtotal(products, businessId, items[..|items| - 1])
        .Plus(products[(businessId, last.productId)].price.converted.Times(last.quantity))
  }

  /**
    For a check that accepts an item only when its product is stored, and
    then copies the stored price and the requested quantity, a successful
    loop's subtotal is the sum of stored price × requested quantity.
   */
  lemma {:induction false} SubtotalOfRequest(check: Check, products: map<(string, string), Product>,
                                             businessId: string, items: seq<RequestItem>)
    requires forall item :: check(item).Ok? ==>
               && (businessId, item.productId) in products
               && check(item).value.price == products[(businessId, item.productId)].price
               && check(item).value.quantity == item.quantity
    requires ValidatedItems(check, items).Ok?
    ensures forall k :: 0 <= k < |items| ==> (businessId, items[k].productId) in products
    ensures Subtotal(ValidatedItems(check, items).value) == RequestSubtotal(products, businessId, items)
  {
    ValidatedItemsOk(check, items);
    if items != [] {
      var n := |items| - 1;
      var lines := ValidatedItems(check, items).value;
      var init := ValidatedItems(check, items[..n]).value;
      SubtotalOfRequest(check, products, businessId, items[..n]);
      assert lines[..|lines| - 1] == init;
    }
  }
}

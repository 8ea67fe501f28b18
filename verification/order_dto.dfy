/** The request bodies accepted by the order routes and their validation rules. */
module OrderDto {
  import opened Wrappers

  /** One requested line item; JSON numbers are exact reals here. */
  datatype ItemInput = ItemInput(productId: string, quantity: real, price: real)

  /** The body of an order creation: items and nothing else. */
  datatype CreateOrderInput = CreateOrderInput(items: seq<ItemInput>)

  /** `t.Integer({ min: 1 })`: a whole number of at least one. */
  predicate ValidQuantity(q: real)
  {
    q.Floor as real == q && q >= 1.0
  }

  /** `t.Number({ min: 0 })`. */
  predicate ValidPrice(p: real)
  {
    p >= 0.0
  }

  predicate ValidItem(i: ItemInput)
  {
    ValidQuantity(i.quantity) && ValidPrice(i.price)
  }

  /** Every item is valid; the list itself has no length bound. */
  predicate ValidCreate(d: CreateOrderInput)
  {
    forall k :: 0 <= k < |d.items| ==> ValidItem(d.items[k])
  }

  /**
   * Validation of a creation body: the index of the first rejected item, or
   * nothing when the body is accepted.
   */
  function FirstInvalidItem(items: seq<ItemInput>): (r: Option<nat>)
    ensures r.None? <==> ValidCreate(CreateOrderInput(items))
    ensures r.Some? ==> r.value < |items| && !ValidItem(items[r.value])
    ensures r.Some? ==> forall k :: 0 <= k < r.value ==> ValidItem(items[k])
  {
    if items == [] then None
    else if !ValidItem(items[0]) then Some(0)
    else match FirstInvalidItem(items[1..])
      case None => None
      case Some(k) => Some(k + 1)
  }
}

/**
 * The order service: prices a creation request, stores the order with its
 * copied items in status "PENDING", looks orders up and updates their status.
 * The order table is a map from order id to order, held by a class.
 */
module OrderService {
  import opened Wrappers
  import opened OrderDto

  /** The status every new order gets. */
  const InitialStatus := "PENDING"

  /** A stored line item; its quantity is a whole number because the request was validated. */
  datatype OrderItem = OrderItem(productId: string, quantity: int, price: real)

  datatype Order = Order(id: string, status: string, total: real, items: seq<OrderItem>)

  datatype StoreError = NotFound

  /** `acc + item.price * item.quantity`, folded from the left starting at 0. */
  function InputTotal(items: seq<ItemInput>): real
  {
    if items == [] then 0.0
    else InputTotal(items[..|items| - 1]) + items[|items| - 1].price * items[|items| - 1].quantity
  }

  /** The same sum over stored items. */
  function StoredTotal(items: seq<OrderItem>): real
  {
    if items == [] then 0.0
    else StoredTotal(items[..|items| - 1]) + items[|items| - 1].price * (items[|items| - 1].quantity as real)
  }

  /** The mapping `{ productId, quantity, price }` of one validated request item. */
  function ToOrderItem(i: ItemInput): (r: OrderItem)
    requires ValidItem(i)
    ensures r.productId == i.productId && r.quantity as real == i.quantity && r.price == i.price
    ensures r.quantity >= 1 && r.price >= 0.0
  {
    OrderItem(i.productId, i.quantity.Floor, i.price)
  }

  /** `data.items.map(...)`: one stored item per request item, in order, fields unchanged. */
  function CopyItems(items: seq<ItemInput>): (r: seq<OrderItem>)
    requires forall k :: 0 <= k < |items| ==> ValidItem(items[k])
    ensures |r| == |items|
    ensures forall k :: 0 <= k < |r| ==>
      r[k].productId == items[k].productId && r[k].quantity as real == items[k].quantity && r[k].price == items[k].price
    ensures forall k :: 0 <= k < |r| ==> r[k].quantity >= 1 && r[k].price >= 0.0
  {
    if items == [] then []
    else CopyItems(items[..|items| - 1]) + [ToOrderItem(items[|items| - 1])]
  }

  /** The request total is the sum over the stored copies of its items. */
  lemma {:induction false} CopyPreservesTotal(items: seq<ItemInput>)
    requires forall k :: 0 <= k < |items| ==> ValidItem(items[k])
    ensures StoredTotal(CopyItems(items)) == InputTotal(items)
  {
    if items != [] {
      var init := items[..|items| - 1];
      CopyPreservesTotal(init);
      var r := CopyItems(items);
      assert r[..|r| - 1] == CopyItems(init);
    }
  }

  /** With every quantity at least one and every price non-negative, the total is non-negative. */
  lemma {:induction false} StoredTotalNonNegative(items: seq<OrderItem>)
    requires forall k :: 0 <= k < |items| ==> items[k].quantity >= 1 && items[k].price >= 0.0
    ensures StoredTotal(items) >= 0.0
  {
    if items != [] {
      var init := items[..|items| - 1];
      StoredTotalNonNegative(init);
      var last := items[|items| - 1];
      assert last.price * (last.quantity as real) >= 0.0;
    }
  }

  /** The request total of a valid creation body is non-negative, and 0 for no items. */
  lemma InputTotalNonNegative(d: CreateOrderInput)
    requires ValidCreate(d)
    ensures InputTotal(d.items) >= 0.0
    ensures d.items == [] ==> InputTotal(d.items) == 0.0
  {
    CopyPreservesTotal(d.items);
    StoredTotalNonNegative(CopyItems(d.items));
  }

  /** What every stored order satisfies: its total is the sum over its items, all of them valid. */
  ghost predicate WellFormed(o: Order)
  {
    && o.total == StoredTotal(o.items)
    && (forall k :: 0 <= k < |o.items| ==> o.items[k].quantity >= 1 && o.items[k].price >= 0.0)
  }

  /** A well-formed order has a non-negative total. */
  lemma WellFormedTotalNonNegative(o: Order)
    requires WellFormed(o)
    ensures o.total >= 0.0
  {
    StoredTotalNonNegative(o.items);
  }

  /** Keyed by id, orders are distinct, so there are as many stored orders as ids. */
  lemma {:induction false} OrdersCount(m: map<string, Order>)
    requires forall id :: id in m ==> m[id].id == id
    ensures |m.Values| == |m.Keys|
    decreases |m.Keys|
  {
    if m.Keys != {} {
      var id :| id in m.Keys;
      var rest := m - {id};
      OrdersCount(rest);
      assert rest.Keys == m.Keys - {id};
      assert rest.Values == m.Values - {m[id]} by {
        forall o | o in m.Values - {m[id]} ensures o in rest.Values {
          var k :| k in m && m[k] == o;
          assert k != id;
          assert rest[k] == o;
        }
      }
      assert m[id] in m.Values;
    }
  }

  /** The order table: id to order, each order stored under its own id. */
  class OrderStore {
    var orders: map<string, Order>

    ghost predicate Valid()
      reads this
    {
      forall id :: id in orders ==> orders[id].id == id && WellFormed(orders[id])
    }

    constructor ()
      ensures Valid() && orders == map[]
    {
      orders := map[];
    }

    /**
     * `create`: total by the fold over the request items, status "PENDING",
     * items copied one to one; `id` is the fresh id the database assigns.
     */
    method Create(data: CreateOrderInput, id: string) returns (order: Order)
      requires Valid() && ValidCreate(data)
      requires id !in orders
      modifies this
      ensures Valid()
      ensures orders == old(orders)[id := order]
      ensures |orders| == |old(orders)| + 1
      ensures order.id == id && order.status == InitialStatus
      ensures order.total == InputTotal(data.items)
      ensures order.items == CopyItems(data.items)
      ensures order.total == StoredTotal(order.items) && order.total >= 0.0
    {
      var total := InputTotal(data.items);
      order := Order(id, InitialStatus, total, CopyItems(data.items));
      CopyPreservesTotal(data.items);
      WellFormedTotalNonNegative(order);
      orders := orders[id := order];
    }

    /** `getAll`: every stored order, one per id. */
    method GetAll() returns (all: set<Order>)
      requires Valid()
      ensures forall id :: id in orders ==> orders[id] in all
      ensures forall o :: o in all ==> o.id in orders && orders[o.id] == o
      ensures |all| == |orders|
    {
      all := orders.Values;
      OrdersCount(orders);
    }

    /** `getById`: the order stored under `id`, or nothing. */
    method GetById(id: string) returns (found: Option<Order>)
      requires Valid()
      ensures found.Some? <==> id in orders
      ensures found.Some? ==> found.value.id == id && found.value == orders[id]
      ensures found.Some? ==> found.value.total == StoredTotal(found.value.items) && found.value.total >= 0.0
    {
      if id in orders {
        found := Some(orders[id]);
        WellFormedTotalNonNegative(orders[id]);
      } else {
        found := None;
      }
    }

    /**
     * `updateStatus`: the order's status becomes `status`, any string; nothing
     * else changes. Updating a missing id fails and changes nothing.
     */
    method UpdateStatus(id: string, status: string) returns (r: Result<Order, StoreError>)
      requires Valid()
      modifies this
      ensures Valid()
      ensures id !in old(orders) ==> r == Failure(NotFound) && orders == old(orders)
      ensures id in old(orders) ==> r.Success? && orders == old(orders)[id := r.value]
      ensures id in old(orders) ==> r.value == old(orders)[id].(status := status)
      ensures id in old(orders) ==> r.value.status == status && r.value.id == id
      ensures id in old(orders) ==> r.value.total == old(orders)[id].total && r.value.items == old(orders)[id].items
      ensures orders.Keys == old(orders).Keys
      ensures forall other :: other in orders && other != id ==> orders[other] == old(orders)[other]
    {
      if id !in orders {
        return Failure(NotFound);
      }
      var updated := orders[id].(status := status);
      orders := orders[id := updated];
      r := Success(updated);
    }
  }
}

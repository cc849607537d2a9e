/** The nopCommerce order entities the plugin reads and writes, and the
    order store (`IOrderService`) that persists them. The store itself is
    nopCommerce's; only the reads and writes the plugin performs are modelled. */
module Orders {
  import opened Wrappers
  import opened Guids

  datatype PaymentStatus = Pending | Authorized | Paid | PartiallyRefunded | Refunded | Voided

  /** nopCommerce's order statuses; `Undefined` is what an integer cast to the
      enum yields when it names none of them. */
  datatype OrderStatus = Pending | Processing | Complete | Cancelled | Undefined(code: int)

  /** `(OrderStatus)code`, the cast applied to the configured
      OrderStatusAfterPayment setting. */
  function OrderStatusFromCode(code: int): (s: OrderStatus)
    ensures s.Undefined? <==> code !in {10, 20, 30, 40}
  {
    if code == 10 then OrderStatus.Pending
    else if code == 20 then Processing
    else if code == 30 then Complete
    else if code == 40 then Cancelled
    else Undefined(code)
  }

  /** The fields of `Nop.Core.Domain.Orders.Order` the plugin touches. Times
      are counted in ticks; nullable strings are `Option<string>`. The
      plugin keeps its gateway metadata as text in CustomOrderNumber. */
  datatype Order = Order(
    Id: int,
    OrderGuid: Guid,
    PaymentStatus: PaymentStatus,
    OrderStatus: OrderStatus,
    OrderTotal: real,
    CreatedOnUtc: int,
    PaidDateUtc: Option<int>,
    AuthorizationTransactionId: Option<string>,
    AuthorizationTransactionResult: Option<string>,
    CaptureTransactionId: Option<string>,
    CaptureTransactionResult: Option<string>,
    CustomOrderNumber: Option<string>)

  /** The fields of `OrderItem` the plugin sets when it adds a line. */
  datatype OrderItem = OrderItem(
    OrderId: int,
    ProductId: int,
    Quantity: int,
    UnitPriceInclTax: real,
    UnitPriceExclTax: real,
    PriceInclTax: real,
    PriceExclTax: real,
    AttributeDescription: string)

  /** The lines of the order with the given id, in insertion order
      (`GetOrderItemsAsync`). */
  function ItemsOf(items: seq<OrderItem>, orderId: int): (r: seq<OrderItem>)
    ensures |r| <= |items|
    ensures forall i :: 0 <= i < |r| ==> r[i].OrderId == orderId && r[i] in items
    ensures forall it :: it in items && it.OrderId == orderId ==> it in r
  {
    if items == [] then []
    else if items[0].OrderId == orderId then [items[0]] + ItemsOf(items[1..], orderId)
    else ItemsOf(items[1..], orderId)
  }

  /** Filtering distributes over concatenation: the lines of `a + b` for an
      order are its lines in `a` followed by its lines in `b`. */
  lemma {:induction false} ItemsOfConcat(a: seq<OrderItem>, b: seq<OrderItem>, orderId: int)
    ensures ItemsOf(a + b, orderId) == ItemsOf(a, orderId) + ItemsOf(b, orderId)
  {
    if a == [] {
      assert a + b == b;
    } else {
      assert (a + b)[0] == a[0];
      assert (a + b)[1..] == a[1..] + b;
      ItemsOfConcat(a[1..], b, orderId);
    }
  }

  /** The first line of an order is its earliest line in the table. */
  lemma ItemsOfFirstLine(items: seq<OrderItem>, orderId: int, k: int)
    requires 0 <= k < |items| && items[k].OrderId == orderId
    requires forall j :: 0 <= j < k ==> items[j].OrderId != orderId
    ensures ItemsOf(items, orderId) != [] && ItemsOf(items, orderId)[0] == items[k]
  {
    assert items == items[..k] + items[k..];
    ItemsOfConcat(items[..k], items[k..], orderId);
  }

  /** Every order is stored under its own GUID. */
  ghost predicate KeyedByGuid(orders: map<Guid, Order>) {
    forall g :: g in orders ==> orders[g].OrderGuid == g
  }

  /** The persisted orders, keyed by their GUID, and the order-item table. */
  class OrderStore {
    var orders: map<Guid, Order>
    var items: seq<OrderItem>

    ghost predicate Valid()
      reads this
    {
      KeyedByGuid(orders)
    }

    constructor (orders: map<Guid, Order>, items: seq<OrderItem>)
      requires KeyedByGuid(orders)
      ensures Valid() && this.orders == orders && this.items == items
    {
      this.orders := orders;
      this.items := items;
    }

    /** `GetOrderByGuidAsync`. */
    function Find(g: Guid): (r: Option<Order>)
      reads this
      requires Valid()
      ensures r.Some? <==> g in orders
      ensures r.Some? ==> r.value == orders[g] && r.value.OrderGuid == g
    {
      if g in orders then Some(orders[g]) else None
    }

    /** `UpdateOrderAsync`: the order is written under its GUID; nothing
        else changes. */
    method UpdateOrder(o: Order)
      requires Valid()
      modifies this
      ensures Valid()
      ensures orders == old(orders)[o.OrderGuid := o] && items == old(items)
    {
      orders := orders[o.OrderGuid := o];
    }

    /** The writes of order placement (`PlaceOrderAsync`): the order is
        stored under its GUID and the lines made for it are appended. */
    method InsertPlacedOrder(o: Order, lines: seq<OrderItem>)
      requires Valid()
      modifies this
      ensures Valid()
      ensures orders == old(orders)[o.OrderGuid := o] && items == old(items) + lines
    {
      orders := orders[o.OrderGuid := o];
      items := items + lines;
    }

    /** `InsertOrderItemAsync`: the line is appended; the orders do not change. */
    method InsertOrderItem(it: OrderItem)
      requires Valid()
      modifies this
      ensures Valid()
      ensures items == old(items) + [it] && orders == old(orders)
    {
      items := items + [it];
    }
  }
}

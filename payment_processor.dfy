/** IyzipayPaymentProcessor: the payment method's entry points. Confirmation
    and callback reconciliation settle an order from the gateway's report;
    confirmation also places a missing order from the cart and adds an
    installment-fee line; payment, refund and void map the checkout-form
    service's outcomes to nopCommerce results. */
module IyzipayPaymentProcessor {
  import opened Wrappers
  import opened Text
  import opened Guids
  import opened Orders
  import opened IyzipayConfigurationService
  import opened IyzipayOrderData
  import opened IyzipayDataMapper
  import opened IyzipayCheckoutFormService

  /** CallbackProcessResult; a fresh one is unsuccessful, with order id 0 and
      no transaction id or message. */
  datatype CallbackProcessResult = CallbackProcessResult(
    Success: bool, OrderId: int, TransactionId: Option<string>, ErrorMessage: Option<string>)

  function Failed(message: string): CallbackProcessResult {
    CallbackProcessResult(false, 0, None, Some(message))
  }

  // ---------------------------------------------------------------------
  // Paid price and settlement

  /** The paid price from the parsed PaidPrice text (`None` when
      `decimal.TryParse` fails): above 1000000 it is read as scaled by 100000. */
  function NormalizePaidPrice(parsed: Option<real>): (p: real)
    ensures parsed.None? ==> p == 0.0
    ensures parsed.Some? && parsed.value > 1000000.0 ==> p * 100000.0 == parsed.value
    ensures parsed.Some? && parsed.value <= 1000000.0 ==> p == parsed.value
  {
    match parsed
    case None => 0.0
    case Some(v) => if v > 1000000.0 then v / 100000.0 else v
  }

  /** The threshold is strict and the normalisation is not monotone:
      exactly 1000000 is kept, while every larger price up to 100000000000
      becomes smaller than itself and no larger than what 1000000 gives. */
  lemma PaidPriceThreshold(v: real)
    requires 1000000.0 < v <= 100000000000.0
    ensures NormalizePaidPrice(Some(1000000.0)) == 1000000.0
    ensures NormalizePaidPrice(Some(v)) < v
    ensures NormalizePaidPrice(Some(v)) <= NormalizePaidPrice(Some(1000000.0))
  {
    assert NormalizePaidPrice(Some(v)) * 100000.0 == v;
  }

  /** The writes that settle an order: Paid and Complete, paid now, with the
      gateway's payment id as both authorization and capture transaction id
      and its auth code as both results. No other field changes. */
  function Settled(order: Order, paymentId: Option<string>, authCode: Option<string>, now: int): (o: Order)
    ensures o.PaymentStatus == Paid && o.OrderStatus == Complete && o.PaidDateUtc == Some(now)
    ensures o.AuthorizationTransactionId == o.CaptureTransactionId == paymentId
    ensures o.AuthorizationTransactionResult == o.CaptureTransactionResult == authCode
    ensures o.Id == order.Id && o.OrderGuid == order.OrderGuid && o.OrderTotal == order.OrderTotal
    ensures o.CreatedOnUtc == order.CreatedOnUtc && o.CustomOrderNumber == order.CustomOrderNumber
  {
    order.(PaymentStatus := Paid, OrderStatus := Complete, PaidDateUtc := Some(now),
           AuthorizationTransactionId := paymentId, AuthorizationTransactionResult := authCode,
           CaptureTransactionId := paymentId, CaptureTransactionResult := authCode)
  }

  /** Settling twice with the same report is settling once, at the later time. */
  lemma SettledIdempotent(order: Order, paymentId: Option<string>, authCode: Option<string>, t1: int, t2: int)
    ensures Settled(Settled(order, paymentId, authCode, t1), paymentId, authCode, t2) == Settled(order, paymentId, authCode, t2)
  {
  }

  // ---------------------------------------------------------------------
  // Installment fee

  /** The installment fee is added only for more than one installment, a
      positive order total and a paid price above that total. */
  predicate FeeApplies(installment: Option<int>, orderTotal: real, paidPrice: real) {
    installment.Some? && installment.value > 1 && orderTotal > 0.0 && paidPrice > orderTotal
  }

  function FeeDescription(installment: int): string {
    "Taksit Komisyonu (" + IntToString(installment) + " Taksit) - Taksit sayısı: " + IntToString(installment)
  }

  /** The product id of the order's first line, or 1 when it has none. */
  function FirstProductId(items: seq<OrderItem>, orderId: int): int {
    var existing := ItemsOf(items, orderId);
    if existing == [] then 1 else existing[0].ProductId
  }

  function FeeItem(order: Order, fee: real, installment: int, items: seq<OrderItem>): OrderItem {
    OrderItem(order.Id, FirstProductId(items, order.Id), 1, fee, fee, fee, fee, FeeDescription(installment))
  }

  /** Where AddInstallmentFeeToOrderAsync stops when the store throws: on
      reading the order's lines, on inserting the fee line, or on updating
      the order. The exception is swallowed in each case. */
  datatype FeeFault = NoFault | ReadFails | InsertFails | UpdateFails

  /** The persisted orders and order lines after the fee step. */
  function FeeEffect(orders: map<Guid, Order>, items: seq<OrderItem>, order: Order, fee: real,
                     installment: int, fault: FeeFault): (r: (map<Guid, Order>, seq<OrderItem>))
    ensures fault != NoFault ==> r.0 == orders
    ensures fault in {ReadFails, InsertFails} ==> r.1 == items
    ensures |items| <= |r.1| <= |items| + 1 && r.1[..|items|] == items
  {
    match fault
    case ReadFails => (orders, items)
    case InsertFails => (orders, items)
    case UpdateFails => (orders, items + [FeeItem(order, fee, installment, items)])
    case NoFault =>
      (orders[order.OrderGuid := order.(OrderTotal := order.OrderTotal + fee)],
       items + [FeeItem(order, fee, installment, items)])
  }

  /** A completed fee step appends one line for the order, of quantity 1 with
      all four prices equal to the fee and the product id of the order's
      first line (or 1), and raises the stored total by the fee. */
  lemma FeeStepShape(orders: map<Guid, Order>, items: seq<OrderItem>, order: Order, fee: real, installment: int)
    ensures var (orders', items') := FeeEffect(orders, items, order, fee, installment, NoFault);
      && |items'| == |items| + 1 && items'[..|items|] == items
      && var line := items'[|items|];
      && line.OrderId == order.Id && line.Quantity == 1
      && line.UnitPriceInclTax == line.UnitPriceExclTax == line.PriceInclTax == line.PriceExclTax == fee
      && (ItemsOf(items, order.Id) == [] ==> line.ProductId == 1)
      && (ItemsOf(items, order.Id) != [] ==> line.ProductId == ItemsOf(items, order.Id)[0].ProductId)
      && order.OrderGuid in orders' && orders'[order.OrderGuid].OrderTotal == order.OrderTotal + fee
  {
  }

  /** AddInstallmentFeeToOrderAsync. */
  method AddInstallmentFee(store: OrderStore, order: Order, fee: real, installment: int, fault: FeeFault)
    requires store.Valid()
    modifies store
    ensures store.Valid()
    ensures (store.orders, store.items) == FeeEffect(old(store.orders), old(store.items), order, fee, installment, fault)
  {
    if fault == ReadFails {
      return;
    }
    var existingOrderItems := ItemsOf(store.items, order.Id);
    var firstProductId := if existingOrderItems == [] then 1 else existingOrderItems[0].ProductId;
    var installmentFeeItem := OrderItem(
      OrderId := order.Id,
      ProductId := firstProductId,
      Quantity := 1,
      UnitPriceInclTax := fee,
      UnitPriceExclTax := fee,
      PriceInclTax := fee,
      PriceExclTax := fee,
      AttributeDescription := FeeDescription(installment));
    if fault == InsertFails {
      return;
    }
    store.InsertOrderItem(installmentFeeItem);
    var updated := order.(OrderTotal := order.OrderTotal + fee);
    if fault == UpdateFails {
      return;
    }
    store.UpdateOrder(updated);
  }

  // ---------------------------------------------------------------------
  // Confirmation

  /** What `PlaceOrderAsync` reports and stores for a placed order: the
      order and the lines it made for it from the cart. */
  datatype PlacedOrder = PlacedOrder(order: Order, lines: seq<OrderItem>)

  /** How a confirmation ends: rejected with a message, or confirmed for an
      order (found by GUID, or just placed together with `placedLines`)
      with the retrieved form and the normalised paid price. */
  datatype Confirmation =
    | Rejected(message: string)
    | Confirmed(order: Order, placedLines: seq<OrderItem>, form: CheckoutForm, paidPrice: real)

  /** The order a confirmation settles for the basket's GUID, with the lines
      placing it stored: the stored order and no lines, else an order placed
      from the current customer's cart. `cartIsEmpty` and `placeOrder` stand
      for that cart and `PlaceOrderAsync` on it (`None` when placement fails
      or yields no order); the placed order carries the basket's GUID. */
  function OrderFor(g: Guid, orders: map<Guid, Order>, cartIsEmpty: bool, placeOrder: Guid -> Option<PlacedOrder>)
    : (r: Result<PlacedOrder>)
    ensures r.Success? ==> r.value.order.OrderGuid == g || g in orders
  {
    if g in orders then Success(PlacedOrder(orders[g], []))
    else if cartIsEmpty then Failure("Shopping cart is empty")
    else match placeOrder(g)
      case None => Failure("Failed to create order")
      case Some(placed) => Success(placed.(order := placed.order.(OrderGuid := g)))
  }

  /** The decision on a retrieved form; `parseDecimal` is `decimal.TryParse`. */
  function ConfirmForm(form: CheckoutForm, parseDecimal: Option<string> -> Option<real>,
                       orders: map<Guid, Order>, cartIsEmpty: bool, placeOrder: Guid -> Option<PlacedOrder>): Confirmation
  {
    if form.Status != Some(GatewaySuccess) then Rejected("Payment failed. Status: " + OrEmpty(form.Status))
    else match TryParse(form.BasketId)
      case None => Rejected("Invalid basket ID format")
      case Some(g) =>
        match OrderFor(g, orders, cartIsEmpty, placeOrder)
        case Failure(message) => Rejected(message)
        case Success(placed) =>
          Confirmed(placed.order, placed.lines, form, NormalizePaidPrice(parseDecimal(form.PaidPrice)))
  }

  /** The decision ProcessConfirmationAsync takes on the retrieve result. */
  function Confirm(retrieved: Result<Option<CheckoutForm>>, parseDecimal: Option<string> -> Option<real>,
                   orders: map<Guid, Order>, cartIsEmpty: bool, placeOrder: Guid -> Option<PlacedOrder>): Confirmation
  {
    match retrieved
    case Failure(message) => Rejected("Payment confirmation error: " + message)
    case Success(None) => Rejected("Payment information not found")
    case Success(Some(form)) => ConfirmForm(form, parseDecimal, orders, cartIsEmpty, placeOrder)
  }

  function ConfirmResult(c: Confirmation): (r: CallbackProcessResult)
    ensures r.Success <==> c.Confirmed?
    ensures c.Confirmed? ==> r.OrderId == c.order.Id && r.TransactionId == c.form.PaymentId && r.ErrorMessage.None?
    ensures c.Rejected? ==> r == Failed(c.message)
  {
    match c
    case Rejected(message) => Failed(message)
    case Confirmed(order, _, form, _) => CallbackProcessResult(true, order.Id, form.PaymentId, None)
  }

  /** The persisted orders and order lines after a confirmation: the placed
      order's lines are stored, the order is settled, then charged the fee. */
  function ConfirmEffect(c: Confirmation, orders: map<Guid, Order>, items: seq<OrderItem>, now: int, fault: FeeFault)
    : (r: (map<Guid, Order>, seq<OrderItem>))
    ensures c.Rejected? ==> r == (orders, items)
    ensures c.Confirmed? ==>
              && c.order.OrderGuid in r.0 && r.0[c.order.OrderGuid].PaymentStatus == Paid
              && r.0[c.order.OrderGuid].OrderStatus == Complete && r.0[c.order.OrderGuid].PaidDateUtc == Some(now)
              && |r.1| >= |items| + |c.placedLines| && r.1[..|items| + |c.placedLines|] == items + c.placedLines
  {
    match c
    case Rejected(_) => (orders, items)
    case Confirmed(order, placedLines, form, paidPrice) =>
      var settled := Settled(order, form.PaymentId, form.AuthCode, now);
      var orders' := orders[settled.OrderGuid := settled];
      var items' := items + placedLines;
      if FeeApplies(form.Installment, settled.OrderTotal, paidPrice) then
        FeeEffect(orders', items', settled, paidPrice - settled.OrderTotal, form.Installment.value, fault)
      else (orders', items')
  }

  /** ProcessConfirmationAsync, for the checkout form retrieved with `token`. */
  method ProcessConfirmation(store: OrderStore, settings: IyzipayPaymentSettings, gateway: Gateway, token: Option<string>,
                             parseDecimal: Option<string> -> Option<real>, cartIsEmpty: bool,
                             placeOrder: Guid -> Option<PlacedOrder>, now: int, fault: FeeFault)
    returns (result: CallbackProcessResult)
    requires store.Valid()
    modifies store
    ensures store.Valid()
    ensures var c := Confirm(RetrievePayment(settings, gateway, token), parseDecimal, old(store.orders), cartIsEmpty, placeOrder);
      && result == ConfirmResult(c)
      && (store.orders, store.items) == ConfirmEffect(c, old(store.orders), old(store.items), now, fault)
  {
    result := CallbackProcessResult(false, 0, None, None);
    var retrieved := RetrievePayment(settings, gateway, token);
    if retrieved.Failure? {
      result := result.(ErrorMessage := Some("Payment confirmation error: " + retrieved.error));
      return;
    }
    var checkoutForm := retrieved.value;
    if checkoutForm.None? {
      result := result.(ErrorMessage := Some("Payment information not found"));
      return;
    }
    var form := checkoutForm.value;
    ghost var c := ConfirmForm(form, parseDecimal, store.orders, cartIsEmpty, placeOrder);
    if form.Status != Some(GatewaySuccess) {
      result := result.(ErrorMessage := Some("Payment failed. Status: " + OrEmpty(form.Status)));
      return;
    }
    var paymentId := form.PaymentId;
    var authCode := form.AuthCode;
    var installment := form.Installment;
    var paidPrice := NormalizePaidPrice(parseDecimal(form.PaidPrice));
    var orderGuid := TryParse(form.BasketId);
    if orderGuid.None? {
      result := result.(ErrorMessage := Some("Invalid basket ID format"));
      return;
    }
    ghost var lookup := OrderFor(orderGuid.value, store.orders, cartIsEmpty, placeOrder);
    assert c == match lookup
      case Failure(message) => Rejected(message)
      case Success(placed) => Confirmed(placed.order, placed.lines, form, paidPrice);
    var order: Order;
    var found := store.Find(orderGuid.value);
    if found.None? {
      if cartIsEmpty {
        result := result.(ErrorMessage := Some("Shopping cart is empty"));
        return;
      }
      var placeOrderResult := placeOrder(orderGuid.value);
      if placeOrderResult.None? {
        result := result.(ErrorMessage := Some("Failed to create order"));
        return;
      }
      order := placeOrderResult.value.order.(OrderGuid := orderGuid.value);
      var placedLines := placeOrderResult.value.lines;
      assert c == Confirmed(order, placedLines, form, paidPrice);
      store.InsertPlacedOrder(order, placedLines);
      SettleConfirmed(store, order, form, paidPrice, now, fault);
      SettlingAfterPlacement(order, placedLines, form, paidPrice, old(store.orders), old(store.items), now, fault);
    } else {
      order := found.value;
      assert c == Confirmed(order, [], form, paidPrice);
      SettleConfirmed(store, order, form, paidPrice, now, fault);
    }
    result := result.(Success := true, OrderId := order.Id, TransactionId := paymentId);
  }

  /** The second half of ProcessConfirmationAsync, once the order is found
      or placed: the order is settled and stored, then charged the
      installment fee when it applies. */
  method SettleConfirmed(store: OrderStore, order: Order, form: CheckoutForm, paidPrice: real, now: int, fault: FeeFault)
    requires store.Valid()
    modifies store
    ensures store.Valid()
    ensures (store.orders, store.items) ==
            ConfirmEffect(Confirmed(order, [], form, paidPrice), old(store.orders), old(store.items), now, fault)
  {
    assert old(store.items) + [] == old(store.items);
    var paymentId := form.PaymentId;
    var authCode := form.AuthCode;
    var installment := form.Installment;
    var settled := order.(PaymentStatus := Paid, OrderStatus := Complete, PaidDateUtc := Some(now));
    settled := settled.(AuthorizationTransactionId := paymentId, AuthorizationTransactionResult := authCode);
    settled := settled.(CaptureTransactionId := paymentId, CaptureTransactionResult := authCode);
    store.UpdateOrder(settled);

    if installment.Some? && installment.value > 1 {
      var originalOrderTotal := settled.OrderTotal;
      if originalOrderTotal > 0.0 && paidPrice > originalOrderTotal {
        var installmentFee := paidPrice - originalOrderTotal;
        AddInstallmentFee(store, settled, installmentFee, installment.value, fault);
      }
    }
  }

  /** Settling a placed order whose placement is already stored is the
      confirmation's whole effect: the placement's write of the order is
      overwritten by the settlement. */
  lemma SettlingAfterPlacement(order: Order, lines: seq<OrderItem>, form: CheckoutForm, paidPrice: real,
                               orders: map<Guid, Order>, items: seq<OrderItem>, now: int, fault: FeeFault)
    ensures ConfirmEffect(Confirmed(order, [], form, paidPrice), orders[order.OrderGuid := order], items + lines, now, fault)
         == ConfirmEffect(Confirmed(order, lines, form, paidPrice), orders, items, now, fault)
  {
    var settled := Settled(order, form.PaymentId, form.AuthCode, now);
    assert orders[order.OrderGuid := order][order.OrderGuid := settled] == orders[order.OrderGuid := settled];
    assert items + lines + [] == items + lines;
  }

  /** The early failures of a confirmation, in the order they are checked. */
  lemma ConfirmationRejections(retrieved: Result<Option<CheckoutForm>>, parseDecimal: Option<string> -> Option<real>,
                               orders: map<Guid, Order>, cartIsEmpty: bool, placeOrder: Guid -> Option<PlacedOrder>)
    ensures var c := Confirm(retrieved, parseDecimal, orders, cartIsEmpty, placeOrder);
      && (retrieved.Failure? ==> c == Rejected("Payment confirmation error: " + retrieved.error))
      && (retrieved == Success(None) ==> c == Rejected("Payment information not found"))
      && (retrieved.Success? && retrieved.value.Some? && retrieved.value.value.Status != Some(GatewaySuccess) ==>
            c == Rejected("Payment failed. Status: " + OrEmpty(retrieved.value.value.Status)))
      && ((retrieved.Success? && retrieved.value.Some? && retrieved.value.value.Status == Some(GatewaySuccess)
           && TryParse(retrieved.value.value.BasketId).None?) ==> c == Rejected("Invalid basket ID format"))
      && (c.Confirmed? ==> retrieved == Success(Some(c.form)) && c.form.Status == Some(GatewaySuccess)
                           && TryParse(c.form.BasketId).Some?)
  {
    if retrieved.Success? && retrieved.value.Some? {
      var form := retrieved.value.value;
      assert Confirm(retrieved, parseDecimal, orders, cartIsEmpty, placeOrder)
          == ConfirmForm(form, parseDecimal, orders, cartIsEmpty, placeOrder);
    }
  }

  /** A rejected confirmation changes no order and adds no line. */
  lemma RejectedConfirmationChangesNothing(c: Confirmation, orders: map<Guid, Order>, items: seq<OrderItem>,
                                           now: int, fault: FeeFault)
    requires !ConfirmResult(c).Success
    ensures ConfirmEffect(c, orders, items, now, fault) == (orders, items)
  {
  }

  /** An existing order is used as it is, without looking at the cart or
      placing anything; a missing one is placed only from a non-empty cart,
      and the placed order carries the basket's GUID. */
  lemma ConfirmationPlacement(form: CheckoutForm, parseDecimal: Option<string> -> Option<real>,
                              orders: map<Guid, Order>, cartIsEmpty: bool, placeOrder: Guid -> Option<PlacedOrder>,
                              otherCart: bool, otherPlace: Guid -> Option<PlacedOrder>)
    requires form.Status == Some(GatewaySuccess) && TryParse(form.BasketId).Some?
    ensures var g := TryParse(form.BasketId).value;
      var c := Confirm(Success(Some(form)), parseDecimal, orders, cartIsEmpty, placeOrder);
      && (g in orders ==> c == Confirm(Success(Some(form)), parseDecimal, orders, otherCart, otherPlace)
                          && c.Confirmed? && c.order == orders[g] && c.placedLines == [])
      && (g !in orders && cartIsEmpty ==> c == Rejected("Shopping cart is empty"))
      && (g !in orders && !cartIsEmpty && placeOrder(g).None? ==> c == Rejected("Failed to create order"))
      && (g !in orders && !cartIsEmpty && placeOrder(g).Some? ==>
            c.Confirmed? && c.order == placeOrder(g).value.order.(OrderGuid := g)
            && c.placedLines == placeOrder(g).value.lines)
  {
  }

  /** A confirmed order is stored settled under its GUID, with its total
      raised to the paid price when the fee step completes and otherwise
      unchanged; every other order stays as it was. The order lines grow by
      the lines of a placed order, then by the fee line at most, and the
      result does not depend on whether the fee step failed. */
  lemma ConfirmationSettlesOrder(c: Confirmation, orders: map<Guid, Order>, items: seq<OrderItem>,
                                 now: int, fault: FeeFault)
    requires c.Confirmed? && KeyedByGuid(orders)
    ensures var (orders', items') := ConfirmEffect(c, orders, items, now, fault);
      var placed := items + c.placedLines;
      var g := c.order.OrderGuid;
      var fee := FeeApplies(c.form.Installment, c.order.OrderTotal, c.paidPrice);
      && KeyedByGuid(orders')
      && g in orders'
      && orders'[g].(OrderTotal := c.order.OrderTotal) == Settled(c.order, c.form.PaymentId, c.form.AuthCode, now)
      && (fee && fault == NoFault ==> orders'[g].OrderTotal == c.paidPrice)
      && (!(fee && fault == NoFault) ==> orders'[g].OrderTotal == c.order.OrderTotal)
      && (forall k :: k != g ==> (k in orders' <==> k in orders) && (k in orders ==> orders'[k] == orders[k]))
      && (items' == placed || (fee && items' == placed + [FeeItem(orders'[g].(OrderTotal := c.order.OrderTotal),
                                                                   c.paidPrice - c.order.OrderTotal,
                                                                   c.form.Installment.value, placed)]))
  {
  }

  /** For an order whose id no stored line carries (as for one placed during
      the confirmation), the fee line takes the product id of the first line
      placement made for it, or 1 when placement made none for it. */
  lemma PlacedOrderFeeLine(c: Confirmation, orders: map<Guid, Order>, items: seq<OrderItem>, now: int)
    requires c.Confirmed? && FeeApplies(c.form.Installment, c.order.OrderTotal, c.paidPrice)
    requires forall i :: 0 <= i < |items| ==> items[i].OrderId != c.order.Id
    ensures var items' := ConfirmEffect(c, orders, items, now, NoFault).1;
      var lines := c.placedLines;
      && |items'| == |items| + |lines| + 1
      && items'[..|items| + |lines|] == items + lines
      && ((forall i :: 0 <= i < |lines| ==> lines[i].OrderId != c.order.Id) ==> items'[|items'| - 1].ProductId == 1)
      && (lines != [] && lines[0].OrderId == c.order.Id ==> items'[|items'| - 1].ProductId == lines[0].ProductId)
  {
    var id, lines := c.order.Id, c.placedLines;
    ItemsOfConcat(items, lines, id);
    if lines != [] && lines[0].OrderId == id {
      ItemsOfFirstLine(lines, id, 0);
    }
  }

  /** Replaying a confirmation whose fee step completed adds no second fee
      line: the stored total already equals the paid price. */
  lemma RepeatConfirmationAddsNoSecondFee(retrieved: Result<Option<CheckoutForm>>,
                                          parseDecimal: Option<string> -> Option<real>,
                                          orders: map<Guid, Order>, items: seq<OrderItem>,
                                          cartIsEmpty: bool, placeOrder: Guid -> Option<PlacedOrder>,
                                          now1: int, now2: int, fault2: FeeFault)
    requires KeyedByGuid(orders)
    requires Confirm(retrieved, parseDecimal, orders, cartIsEmpty, placeOrder).Confirmed?
    ensures var c1 := Confirm(retrieved, parseDecimal, orders, cartIsEmpty, placeOrder);
      var (orders1, items1) := ConfirmEffect(c1, orders, items, now1, NoFault);
      var c2 := Confirm(retrieved, parseDecimal, orders1, cartIsEmpty, placeOrder);
      var g := c1.order.OrderGuid;
      && c2.Confirmed? && g in orders1 && c2.order == orders1[g]
      && ConfirmEffect(c2, orders1, items1, now2, fault2) == (orders1[g := orders1[g].(PaidDateUtc := Some(now2))], items1)
  {
    var c1 := Confirm(retrieved, parseDecimal, orders, cartIsEmpty, placeOrder);
    ConfirmationRejections(retrieved, parseDecimal, orders, cartIsEmpty, placeOrder);
    var form := c1.form;
    var g := TryParse(form.BasketId).value;
    assert c1.order.OrderGuid == g;
    ConfirmationSettlesOrder(c1, orders, items, now1, NoFault);
    var (orders1, items1) := ConfirmEffect(c1, orders, items, now1, NoFault);
    var c2 := Confirm(retrieved, parseDecimal, orders1, cartIsEmpty, placeOrder);
    assert c2 == Confirmed(orders1[g], [], form, c1.paidPrice);
    assert !FeeApplies(form.Installment, orders1[g].OrderTotal, c1.paidPrice);
    assert items1 + [] == items1;
  }

  /** When the fee line is inserted but the order update throws, the stored
      total stays below the paid price, so replaying the confirmation adds
      the fee line a second time. */
  lemma FailedFeeUpdateRepeatsFee(retrieved: Result<Option<CheckoutForm>>,
                                  parseDecimal: Option<string> -> Option<real>,
                                  orders: map<Guid, Order>, items: seq<OrderItem>,
                                  cartIsEmpty: bool, placeOrder: Guid -> Option<PlacedOrder>, now1: int, now2: int)
    requires KeyedByGuid(orders)
    requires var c := Confirm(retrieved, parseDecimal, orders, cartIsEmpty, placeOrder);
      c.Confirmed? && FeeApplies(c.form.Installment, c.order.OrderTotal, c.paidPrice)
    ensures var c1 := Confirm(retrieved, parseDecimal, orders, cartIsEmpty, placeOrder);
      var (orders1, items1) := ConfirmEffect(c1, orders, items, now1, UpdateFails);
      var c2 := Confirm(retrieved, parseDecimal, orders1, cartIsEmpty, placeOrder);
      |ConfirmEffect(c2, orders1, items1, now2, NoFault).1| == |items| + |c1.placedLines| + 2
  {
    var c1 := Confirm(retrieved, parseDecimal, orders, cartIsEmpty, placeOrder);
    ConfirmationRejections(retrieved, parseDecimal, orders, cartIsEmpty, placeOrder);
    var form := c1.form;
    var g := TryParse(form.BasketId).value;
    assert c1.order.OrderGuid == g;
    var settled := Settled(c1.order, form.PaymentId, form.AuthCode, now1);
    var fee := c1.paidPrice - settled.OrderTotal;
    var orders1 := orders[g := settled];
    var placed := items + c1.placedLines;
    var items1 := placed + [FeeItem(settled, fee, form.Installment.value, placed)];
    assert ConfirmEffect(c1, orders, items, now1, UpdateFails) == (orders1, items1);
    var c2 := Confirm(retrieved, parseDecimal, orders1, cartIsEmpty, placeOrder);
    assert c2 == Confirmed(settled, [], form, c1.paidPrice);
    assert FeeApplies(form.Installment, settled.OrderTotal, c1.paidPrice);
  }

  // ---------------------------------------------------------------------
  // Callback

  /** The callback fields the processor reads. */
  datatype CallbackResponseModel = CallbackResponseModel(
    BasketId: Option<string>, PaymentStatus: Option<string>, PaymentId: Option<string>, AuthCode: Option<string>)

  /** The order a callback settles, or the message it is rejected with. */
  function CallbackDecision(callback: CallbackResponseModel, orders: map<Guid, Order>): Result<Order> {
    match TryParse(callback.BasketId)
    case None => Failure("Invalid basket ID format")
    case Some(g) =>
      if g !in orders then Failure("Order not found")
      else if callback.PaymentStatus != Some("SUCCESS") then
        Failure("Payment failed. Status: " + OrEmpty(callback.PaymentStatus))
      else Success(orders[g])
  }

  function CallbackEffect(callback: CallbackResponseModel, orders: map<Guid, Order>, now: int): (r: map<Guid, Order>)
    ensures CallbackDecision(callback, orders).Failure? ==> r == orders
    ensures CallbackDecision(callback, orders).Success? ==>
              var order := CallbackDecision(callback, orders).value;
              && order.OrderGuid in r && r[order.OrderGuid].PaymentStatus == Paid
              && r[order.OrderGuid].OrderStatus == Complete && r[order.OrderGuid].PaidDateUtc == Some(now)
              && r[order.OrderGuid].CaptureTransactionId == callback.PaymentId
  {
    match CallbackDecision(callback, orders)
    case Failure(_) => orders
    case Success(order) => orders[order.OrderGuid := Settled(order, callback.PaymentId, callback.AuthCode, now)]
  }

  /** ProcessCallbackAsync. */
  method ProcessCallback(store: OrderStore, callback: CallbackResponseModel, now: int)
    returns (result: CallbackProcessResult)
    requires store.Valid()
    modifies store
    ensures store.Valid() && store.items == old(store.items)
    ensures store.orders == CallbackEffect(callback, old(store.orders), now)
    ensures match CallbackDecision(callback, old(store.orders))
      case Failure(message) => result == Failed(message)
      case Success(order) => result == CallbackProcessResult(true, order.Id, callback.PaymentId, None)
  {
    result := CallbackProcessResult(false, 0, None, None);
    var orderGuid := TryParse(callback.BasketId);
    if orderGuid.None? {
      result := result.(ErrorMessage := Some("Invalid basket ID format"));
      return;
    }
    var found := store.Find(orderGuid.value);
    if found.None? {
      result := result.(ErrorMessage := Some("Order not found"));
      return;
    }
    if callback.PaymentStatus != Some("SUCCESS") {
      result := result.(ErrorMessage := Some("Payment failed. Status: " + OrEmpty(callback.PaymentStatus)));
      return;
    }
    var order := found.value;
    order := order.(PaymentStatus := Paid, OrderStatus := Complete, PaidDateUtc := Some(now));
    order := order.(AuthorizationTransactionId := callback.PaymentId, AuthorizationTransactionResult := callback.AuthCode);
    order := order.(CaptureTransactionId := callback.PaymentId, CaptureTransactionResult := callback.AuthCode);
    store.UpdateOrder(order);
    result := result.(Success := true, OrderId := order.Id, TransactionId := callback.PaymentId);
  }

  /** Unlike the confirmation, the callback never places a missing order. */
  lemma CallbackPlacesNoOrder(callback: CallbackResponseModel, orders: map<Guid, Order>)
    requires TryParse(callback.BasketId).Some? && TryParse(callback.BasketId).value !in orders
    ensures CallbackDecision(callback, orders) == Failure("Order not found")
    ensures CallbackEffect(callback, orders, 0) == orders
  {
  }

  /** The two reports spell success differently and neither accepts the
      other's spelling: the callback wants "SUCCESS", the confirmation
      "success". */
  lemma SuccessSpellings(callback: CallbackResponseModel, form: CheckoutForm,
                         parseDecimal: Option<string> -> Option<real>, orders: map<Guid, Order>,
                         cartIsEmpty: bool, placeOrder: Guid -> Option<PlacedOrder>)
    ensures callback.PaymentStatus == Some(GatewaySuccess) ==> CallbackDecision(callback, orders).Failure?
    ensures form.Status == Some("SUCCESS") ==>
              Confirm(Success(Some(form)), parseDecimal, orders, cartIsEmpty, placeOrder).Rejected?
  {
    assert GatewaySuccess != "SUCCESS";
  }

  /** When the callback and the confirmation accept the same report for an
      existing order and no fee applies, they store the same order. */
  lemma CallbackWritesLikeConfirmation(callback: CallbackResponseModel, form: CheckoutForm, g: Guid,
                                       parseDecimal: Option<string> -> Option<real>, orders: map<Guid, Order>,
                                       cartIsEmpty: bool, placeOrder: Guid -> Option<PlacedOrder>,
                                       now: int, fault: FeeFault)
    requires KeyedByGuid(orders) && g in orders
    requires TryParse(callback.BasketId) == Some(g) && callback.PaymentStatus == Some("SUCCESS")
    requires TryParse(form.BasketId) == Some(g) && form.Status == Some(GatewaySuccess)
    requires callback.PaymentId == form.PaymentId && callback.AuthCode == form.AuthCode
    requires !FeeApplies(form.Installment, orders[g].OrderTotal, NormalizePaidPrice(parseDecimal(form.PaidPrice)))
    ensures var c := Confirm(Success(Some(form)), parseDecimal, orders, cartIsEmpty, placeOrder);
      c.Confirmed? && ConfirmEffect(c, orders, [], now, fault).0 == CallbackEffect(callback, orders, now)
  {
    var paidPrice := NormalizePaidPrice(parseDecimal(form.PaidPrice));
    assert OrderFor(g, orders, cartIsEmpty, placeOrder) == Success(PlacedOrder(orders[g], []));
    var c := Confirmed(orders[g], [], form, paidPrice);
    assert ConfirmForm(form, parseDecimal, orders, cartIsEmpty, placeOrder) == c;
    var settled := Settled(orders[g], form.PaymentId, form.AuthCode, now);
    assert ConfirmEffect(c, orders, [], now, fault).0 == orders[g := settled];
    assert CallbackDecision(callback, orders) == Success(orders[g]);
  }

  // ---------------------------------------------------------------------
  // Payment, refund and void

  /** nopCommerce's ProcessPaymentResult: the errors added (an error may be
      null), the new payment status when one is set, and the text kept as
      the authorization transaction result. */
  datatype ProcessPaymentResult = ProcessPaymentResult(
    Errors: seq<Option<string>>, NewPaymentStatus: Option<PaymentStatus>, AuthorizationTransactionResult: Option<string>)

  /** ProcessPaymentAsync, on the checkout-form result for the order. The
      form mode is compared case-sensitively. */
  function ProcessPayment(checkout: CheckoutFormInitializeResult, formMode: string): (r: ProcessPaymentResult)
    ensures r.NewPaymentStatus.Some? <==> checkout.Success == "success"
    ensures r.NewPaymentStatus.Some? ==> r.NewPaymentStatus.value == PaymentStatus.Pending && r.Errors == []
    ensures r.NewPaymentStatus.None? ==> r.Errors == [checkout.ErrorMessage]
    ensures r.AuthorizationTransactionResult ==
              if formMode in {"iframe", "popup"} then checkout.CheckoutFormContent else checkout.PaymentPageUrl
  {
    var result := ProcessPaymentResult([], None, None);
    var result := if checkout.Success == "success" then result.(NewPaymentStatus := Some(PaymentStatus.Pending))
                  else result.(Errors := result.Errors + [checkout.ErrorMessage]);
    if formMode == "iframe" || formMode == "popup" then result.(AuthorizationTransactionResult := checkout.CheckoutFormContent)
    else result.(AuthorizationTransactionResult := checkout.PaymentPageUrl)
  }

  /** The form mode the plugin installs, "POPUP", is not "popup": with it the
      payment page URL is kept, not the embeddable form content. An empty
      cart leaves the payment status unset and reports "Sepet boş". */
  lemma InstalledModeKeepsPageUrl(settings: IyzipayPaymentSettings, gateway: Gateway, formats: Formats,
                                  catalog: Catalog, ctx: ShopContext, orderGuid: Guid)
    ensures var checkout := CheckoutFormResult(settings, gateway, formats, catalog, ctx, orderGuid);
      ProcessPayment(checkout, "POPUP").AuthorizationTransactionResult == checkout.PaymentPageUrl
    ensures ctx.cart == [] ==>
      var r := ProcessPayment(CheckoutFormResult(settings, gateway, formats, catalog, ctx, orderGuid), settings.PaymentFormMode);
      r.NewPaymentStatus.None? && r.Errors == [Some("Sepet boş")]
  {
    assert "POPUP" != "popup";
  }

  /** The result of a refund or void: the errors added and the new payment
      status when one is set. */
  datatype PaymentResult = PaymentResult(Errors: seq<string>, NewPaymentStatus: Option<PaymentStatus>)

  /** Success becomes the given status; anything else adds its message. */
  function StatusResult(outcome: (bool, string), status: PaymentStatus): (r: PaymentResult)
    ensures r.NewPaymentStatus.Some? <==> outcome.0
    ensures outcome.0 ==> r == PaymentResult([], Some(status))
    ensures !outcome.0 ==> r.Errors == [outcome.1]
  {
    if outcome.0 then PaymentResult([], Some(status)) else PaymentResult([outcome.1], None)
  }

  /** RefundAsync; `stored` is the order found by the request's order id. */
  method Refund(settings: IyzipayPaymentSettings, gateway: Gateway, formats: Formats, codec: JsonCodec,
                ctx: ShopContext, stored: Option<Order>, amountToRefund: real)
    returns (result: PaymentResult)
    ensures stored.None? ==> result == PaymentResult(["Order not found"], None)
    ensures stored.Some? ==>
              result == StatusResult(RefundOutcome(settings, gateway, formats, codec, ctx, stored.value, amountToRefund), Refunded)
  {
    result := PaymentResult([], None);
    if stored.None? {
      result := result.(Errors := result.Errors + ["Order not found"]);
      return;
    }
    var success, errorMessage, _ := RefundPayment(settings, gateway, formats, codec, ctx, stored.value, amountToRefund);
    if success {
      result := result.(NewPaymentStatus := Some(Refunded));
    } else {
      result := result.(Errors := result.Errors + [errorMessage]);
    }
  }

  /** VoidAsync. */
  method Void(settings: IyzipayPaymentSettings, gateway: Gateway, codec: JsonCodec, ctx: ShopContext, order: Order)
    returns (result: PaymentResult)
    ensures result == StatusResult(VoidOutcome(settings, gateway, codec, ctx, order), Voided)
  {
    result := PaymentResult([], None);
    var success, errorMessage, _ := VoidPayment(settings, gateway, codec, ctx, order);
    if success {
      result := result.(NewPaymentStatus := Some(Voided));
    } else {
      result := result.(Errors := result.Errors + [errorMessage]);
    }
  }

  /** A refund is recorded as Refunded exactly when the order is found, a
      payment id is found for it and the gateway accepts the refund; a void
      is recorded as Voided exactly when the order is at most 24 hours old,
      a payment id is found and the gateway accepts the cancel. */
  lemma RefundAndVoidStatus(settings: IyzipayPaymentSettings, gateway: Gateway, formats: Formats, codec: JsonCodec,
                            ctx: ShopContext, stored: Option<Order>, amountToRefund: real)
    ensures var r := if stored.None? then PaymentResult(["Order not found"], None)
                     else StatusResult(RefundOutcome(settings, gateway, formats, codec, ctx, stored.value, amountToRefund), Refunded);
      r.NewPaymentStatus == Some(Refunded) <==>
        && stored.Some? && ResolvePaymentId(codec, stored.value).Some?
        && var response := gateway.createRefund(
             RefundRequest(settings, formats, ctx, stored.value, amountToRefund, ResolvePaymentId(codec, stored.value).value),
             GetOptions(settings));
           response.Success? && response.value.Status == Some(GatewaySuccess)
    ensures stored.Some? ==>
      var r := StatusResult(VoidOutcome(settings, gateway, codec, ctx, stored.value), Voided);
      r.NewPaymentStatus == Some(Voided) <==>
        && ctx.now - stored.value.CreatedOnUtc <= DayTicks && ResolvePaymentId(codec, stored.value).Some?
        && var response := gateway.createCancel(
             CancelRequest(settings, ctx, stored.value, ResolvePaymentId(codec, stored.value).value), GetOptions(settings));
           response.Success? && response.value.Status == Some(GatewaySuccess)
  {
  }
}

/** IyzipayCheckoutFormService: builds the checkout-form request sent to the
    gateway and turns the gateway's answer into a result; guards and sends
    refund and cancel requests; retrieves a completed checkout form. */
module IyzipayCheckoutFormService {
  import opened Wrappers
  import opened Text
  import opened Guids
  import opened Orders
  import opened IyzipayConfigurationService
  import opened IyzipayOrderData
  import opened IyzipayOrderDataService
  import opened IyzipayDataMapper

  /** `Status.SUCCESS.ToString()` of the gateway SDK. */
  const GatewaySuccess := "success"

  datatype CreateCheckoutFormInitializeRequest = CreateCheckoutFormInitializeRequest(
    Locale: string,
    ConversationId: string,
    Price: string,
    PaidPrice: string,
    Currency: string,
    BasketId: string,
    PaymentGroup: string,
    CallbackUrl: string,
    EnabledInstallments: Option<seq<int>>,
    Buyer: Buyer,
    BasketItems: seq<BasketItem>,
    ShippingAddress: Address,
    BillingAddress: Address)

  /** The gateway's answer to a checkout-form request. */
  datatype CheckoutFormInitialize = CheckoutFormInitialize(
    Status: Option<string>, ErrorMessage: Option<string>, CheckoutFormContent: Option<string>,
    PaymentPageUrl: Option<string>, Token: Option<string>)

  datatype CreateAmountBasedRefundRequest = CreateAmountBasedRefundRequest(
    Locale: string, ConversationId: string, Ip: Option<string>, Price: string, PaymentId: string)

  datatype CreateCancelRequest = CreateCancelRequest(
    Locale: string, ConversationId: string, PaymentId: string, Ip: Option<string>)

  /** The gateway's answer to a refund or cancel request. */
  datatype GatewayResponse = GatewayResponse(Status: Option<string>, ErrorMessage: Option<string>)

  datatype RetrieveCheckoutFormRequest = RetrieveCheckoutFormRequest(Locale: string, Token: Option<string>)

  /** The fields of a retrieved checkout form the plugin reads. */
  datatype CheckoutForm = CheckoutForm(
    Status: Option<string>, BasketId: Option<string>, PaymentId: Option<string>,
    AuthCode: Option<string>, Installment: Option<int>, PaidPrice: Option<string>)

  /** The four remote calls of the gateway client; `Failure` is an exception
      with its message. A retrieve may also answer null (`None`). */
  datatype Gateway = Gateway(
    createCheckoutForm: (CreateCheckoutFormInitializeRequest, Options) -> Result<CheckoutFormInitialize>,
    createRefund: (CreateAmountBasedRefundRequest, Options) -> Result<GatewayResponse>,
    createCancel: (CreateCancelRequest, Options) -> Result<GatewayResponse>,
    retrieve: (RetrieveCheckoutFormRequest, Options) -> Result<Option<CheckoutForm>>)

  /** What the service reads from the running shop: the current customer, the
      cart with its total (null when it cannot be computed), the store URL,
      the client's IP address and the clock (in ticks). */
  datatype ShopContext = ShopContext(
    customer: Customer, cart: seq<ShoppingCartItem>, cartTotal: Option<real>,
    storeLocation: string, ip: Option<string>, now: int)

  /** CheckoutFormInitializeResult; every field starts as "". */
  datatype CheckoutFormInitializeResult = CheckoutFormInitializeResult(
    Success: string, Message: Option<string>, ErrorMessage: Option<string>,
    CheckoutFormContent: Option<string>, PaymentPageUrl: Option<string>, Token: Option<string>)

  function NewInitializeResult(): CheckoutFormInitializeResult {
    CheckoutFormInitializeResult("", Some(""), Some(""), Some(""), Some(""), Some(""))
  }

  /** The failure result: Message and ErrorMessage carry the same text. */
  function FailedResult(message: Option<string>): (r: CheckoutFormInitializeResult)
    ensures r.Success == "failure" && r.Message == message && r.ErrorMessage == message
  {
    NewInitializeResult().(Success := "failure", Message := message, ErrorMessage := message)
  }

  /** The installments offered: 1, 2, ..., max. */
  function InstallmentRange(max: int): (r: seq<int>)
    ensures |r| == if max < 1 then 0 else max
    ensures forall i :: 0 <= i < |r| ==> r[i] == i + 1
  {
    seq(if max < 1 then 0 else max, i => i + 1)
  }

  /** The range holds exactly the counts 1 to max, ascending without repetition. */
  lemma InstallmentRangeIsOneToMax(max: int)
    ensures forall n :: n in InstallmentRange(max) <==> 1 <= n <= max
    ensures forall i, j :: 0 <= i < j < |InstallmentRange(max)| ==> InstallmentRange(max)[i] < InstallmentRange(max)[j]
  {
    var r := InstallmentRange(max);
    forall n | 1 <= n <= max ensures n in r {
      assert r[n - 1] == n;
    }
  }

  /** The `for` loop of CreateCheckoutFormAsync that lists the installment counts. */
  method BuildInstallments(max: int) returns (enabledInstallments: seq<int>)
    ensures enabledInstallments == InstallmentRange(max)
  {
    enabledInstallments := [];
    var i := 1;
    while i <= max
      invariant 1 <= i && (max < 1 ==> i == 1) && (max >= 1 ==> i <= max + 1)
      invariant enabledInstallments == InstallmentRange(i - 1)
    {
      enabledInstallments := enabledInstallments + [i];
      i := i + 1;
    }
  }

  /** The checkout-form request for a non-empty cart. */
  function CheckoutRequest(settings: IyzipayPaymentSettings, formats: Formats, catalog: Catalog,
                           ctx: ShopContext, orderGuid: Guid): (req: CreateCheckoutFormInitializeRequest)
    ensures req.ConversationId == req.BasketId == GuidToString(orderGuid)
    ensures req.Price == req.PaidPrice == formats.formatF2(ctx.cartTotal.GetOr(0.0))
    ensures req.Locale == GetLocale(settings)
    ensures req.EnabledInstallments.Some? <==> settings.EnableInstallmentOptions
    ensures settings.EnableInstallmentOptions ==>
              req.EnabledInstallments.value == InstallmentRange(settings.MaxInstallmentCount)
    ensures |req.BasketItems| == |ctx.cart|
    ensures forall i :: 0 <= i < |ctx.cart| ==> req.BasketItems[i] == BasketItemFor(ctx.cart[i], catalog, formats)
  {
    var cartTotal := ctx.cartTotal.GetOr(0.0);
    CreateCheckoutFormInitializeRequest(
      Locale := GetLocale(settings),
      ConversationId := GuidToString(orderGuid),
      Price := formats.formatF2(cartTotal),
      PaidPrice := formats.formatF2(cartTotal),
      Currency := "TRY",
      BasketId := GuidToString(orderGuid),
      PaymentGroup := "PRODUCT",
      CallbackUrl := ctx.storeLocation + "PaymentIyzipay/Confirmation",
      EnabledInstallments :=
        if settings.EnableInstallmentOptions then Some(InstallmentRange(settings.MaxInstallmentCount)) else None,
      Buyer := CreateBuyerFromCustomer(ctx.customer, formats, ctx.now),
      BasketItems := seq(|ctx.cart|, i requires 0 <= i < |ctx.cart| => BasketItemFor(ctx.cart[i], catalog, formats)),
      ShippingAddress := CreateShippingAddressFromCustomer(ctx.customer),
      BillingAddress := CreateBillingAddressFromCustomer(ctx.customer))
  }

  /** The result for the gateway's answer: success copies the form content,
      the page URL (unchanged, whatever the mode) and the token; a refusal
      or an exception gives a failure whose two messages agree. */
  function InitializeResult(response: Result<CheckoutFormInitialize>): (r: CheckoutFormInitializeResult)
    ensures r.Success == "success" || r.Success == "failure"
    ensures r.Success == "success" <==> response.Success? && response.value.Status == Some(GatewaySuccess)
    ensures r.Success == "success" ==>
              && r.CheckoutFormContent == response.value.CheckoutFormContent
              && r.PaymentPageUrl == response.value.PaymentPageUrl
              && r.Token == response.value.Token
              && r.Message == r.ErrorMessage == Some("")
    ensures r.Success == "failure" ==> r.Message == r.ErrorMessage
  {
    match response
    case Failure(message) => FailedResult(Some(message))
    case Success(f) =>
      if f.Status == Some(GatewaySuccess) then
        NewInitializeResult().(Success := "success", CheckoutFormContent := f.CheckoutFormContent,
                               PaymentPageUrl := f.PaymentPageUrl, Token := f.Token)
      else FailedResult(f.ErrorMessage)
  }

  /** What CreateCheckoutFormAsync returns. */
  function CheckoutFormResult(settings: IyzipayPaymentSettings, gateway: Gateway, formats: Formats,
                              catalog: Catalog, ctx: ShopContext, orderGuid: Guid): CheckoutFormInitializeResult
  {
    if ctx.cart == [] then FailedResult(Some("Sepet boş"))
    else InitializeResult(gateway.createCheckoutForm(
      CheckoutRequest(settings, formats, catalog, ctx, orderGuid), GetOptions(settings)))
  }

  /** CreateCheckoutFormAsync. `sent` is the request handed to the gateway,
      `None` when no call is made. An empty cart is refused before any call. */
  method CreateCheckoutForm(settings: IyzipayPaymentSettings, gateway: Gateway, formats: Formats,
                            catalog: Catalog, ctx: ShopContext, orderGuid: Guid, mode: string)
    returns (result: CheckoutFormInitializeResult, sent: Option<CreateCheckoutFormInitializeRequest>)
    ensures ctx.cart == [] ==> sent.None? && result == FailedResult(Some("Sepet boş"))
    ensures ctx.cart != [] ==> sent == Some(CheckoutRequest(settings, formats, catalog, ctx, orderGuid))
    ensures result == CheckoutFormResult(settings, gateway, formats, catalog, ctx, orderGuid)
  {
    result := NewInitializeResult();
    if ctx.cart == [] {
      result := result.(Success := "failure", Message := Some("Sepet boş"), ErrorMessage := Some("Sepet boş"));
      return result, None;
    }
    var cartTotal := ctx.cartTotal.GetOr(0.0);
    var options := GetOptions(settings);
    var callbackUrl := ctx.storeLocation + "PaymentIyzipay/Confirmation";
    var buyer := CreateBuyerFromCustomer(ctx.customer, formats, ctx.now);
    var basketItems := CreateBasketItemsFromCart(ctx.cart, catalog, formats);
    var request := CreateCheckoutFormInitializeRequest(
      Locale := GetLocale(settings),
      ConversationId := GuidToString(orderGuid),
      Price := formats.formatF2(cartTotal),
      PaidPrice := formats.formatF2(cartTotal),
      Currency := "TRY",
      BasketId := GuidToString(orderGuid),
      PaymentGroup := "PRODUCT",
      CallbackUrl := callbackUrl,
      EnabledInstallments := None,
      Buyer := buyer,
      BasketItems := basketItems,
      ShippingAddress := CreateShippingAddressFromCustomer(ctx.customer),
      BillingAddress := CreateBillingAddressFromCustomer(ctx.customer));
    if settings.EnableInstallmentOptions {
      var enabledInstallments := BuildInstallments(settings.MaxInstallmentCount);
      request := request.(EnabledInstallments := Some(enabledInstallments));
    }
    assert basketItems == CheckoutRequest(settings, formats, catalog, ctx, orderGuid).BasketItems;
    sent := Some(request);
    var response := gateway.createCheckoutForm(request, options);
    if response.Failure? {
      result := result.(Success := "failure", Message := Some(response.error), ErrorMessage := Some(response.error));
      return;
    }
    var checkoutFormInitialize := response.value;
    if checkoutFormInitialize.Status == Some(GatewaySuccess) {
      result := result.(Success := "success", CheckoutFormContent := checkoutFormInitialize.CheckoutFormContent);
      if ToLower(mode) == "iframe" {
        result := result.(PaymentPageUrl := Some(OrEmpty(checkoutFormInitialize.PaymentPageUrl) + "&iframe=true"));
      }
      result := result.(PaymentPageUrl := checkoutFormInitialize.PaymentPageUrl);
      result := result.(Token := checkoutFormInitialize.Token);
    } else {
      result := result.(Success := "failure", Message := checkoutFormInitialize.ErrorMessage,
                        ErrorMessage := checkoutFormInitialize.ErrorMessage);
    }
  }

  // ---------------------------------------------------------------------
  // Refund and cancel

  /** The payment id a refund or cancel uses: the one in the order's stored
      metadata, else the order's AuthorizationTransactionId; `None` when
      both are null or empty. */
  function ResolvePaymentId(codec: JsonCodec, order: Order): (r: Option<string>)
    ensures r.Some? ==> r.value != ""
    ensures r.None? <==> IsNullOrEmpty(GetIyzipayDataFromOrder(codec, order).PaymentId)
                         && IsNullOrEmpty(order.AuthorizationTransactionId)
  {
    var paymentId := GetIyzipayDataFromOrder(codec, order).PaymentId;
    var paymentId := if IsNullOrEmpty(paymentId) then order.AuthorizationTransactionId else paymentId;
    if IsNullOrEmpty(paymentId) then None else paymentId
  }

  /** A payment id saved in the metadata wins; an order without metadata
      falls back on its authorization transaction id. */
  lemma ResolvePaymentIdSources(codec: JsonCodec, order: Order, data: OrderData)
    ensures Lawful(codec) && DecimalValued(data) && !IsNullOrEmpty(data.PaymentId) ==>
              ResolvePaymentId(codec, order.(CustomOrderNumber := Some(ToJson(codec, data)))) == data.PaymentId
    ensures IsNullOrEmpty(order.CustomOrderNumber) && !IsNullOrEmpty(order.AuthorizationTransactionId) ==>
              ResolvePaymentId(codec, order) == order.AuthorizationTransactionId
  {
    if Lawful(codec) && DecimalValued(data) {
      SaveThenRead(codec, order, data);
    }
  }

  /** The (Success, ErrorMessage) pair for a refund or cancel answer:
      success exactly when the gateway says so, with an empty message;
      otherwise the gateway's message after `failedPrefix`, or the
      exception's after `errorPrefix`. */
  function GatewayOutcome(response: Result<GatewayResponse>, failedPrefix: string, errorPrefix: string): (r: (bool, string))
    ensures r.0 <==> response.Success? && response.value.Status == Some(GatewaySuccess)
    ensures r.0 ==> r.1 == ""
    ensures response.Success? && !r.0 ==> r.1 == failedPrefix + OrEmpty(response.value.ErrorMessage)
    ensures response.Failure? ==> r.1 == errorPrefix + response.error
  {
    match response
    case Failure(message) => (false, errorPrefix + message)
    case Success(g) =>
      if g.Status == Some(GatewaySuccess) then (true, "") else (false, failedPrefix + OrEmpty(g.ErrorMessage))
  }

  function RefundRequest(settings: IyzipayPaymentSettings, formats: Formats, ctx: ShopContext,
                         order: Order, amountToRefund: real, paymentId: string): CreateAmountBasedRefundRequest
  {
    CreateAmountBasedRefundRequest(GetLocale(settings), GuidToString(order.OrderGuid), ctx.ip,
      formats.formatF2(amountToRefund), paymentId)
  }

  function CancelRequest(settings: IyzipayPaymentSettings, ctx: ShopContext, order: Order, paymentId: string): CreateCancelRequest
  {
    CreateCancelRequest(GetLocale(settings), GuidToString(order.OrderGuid), paymentId, ctx.ip)
  }

  /** The (success, errorMessage) pair RefundPaymentAsync returns: success
      exactly when a payment id is found and the gateway reports success. */
  function RefundOutcome(settings: IyzipayPaymentSettings, gateway: Gateway, formats: Formats,
                         codec: JsonCodec, ctx: ShopContext, order: Order, amountToRefund: real): (r: (bool, string))
    ensures r.0 <==> ResolvePaymentId(codec, order).Some? &&
                     var response := gateway.createRefund(
                       RefundRequest(settings, formats, ctx, order, amountToRefund, ResolvePaymentId(codec, order).value),
                       GetOptions(settings));
                     response.Success? && response.value.Status == Some(GatewaySuccess)
    ensures r.0 ==> r.1 == ""
  {
    match ResolvePaymentId(codec, order)
    case None => (false, "Payment ID not found in order")
    case Some(paymentId) =>
      GatewayOutcome(gateway.createRefund(RefundRequest(settings, formats, ctx, order, amountToRefund, paymentId),
                                          GetOptions(settings)), "Refund failed: ", "Refund error: ")
  }

  /** The (success, errorMessage) pair VoidPaymentAsync returns: success
      exactly when the order is at most 24 hours old, a payment id is found
      and the gateway reports success. */
  function VoidOutcome(settings: IyzipayPaymentSettings, gateway: Gateway, codec: JsonCodec,
                       ctx: ShopContext, order: Order): (r: (bool, string))
    ensures r.0 <==> ctx.now - order.CreatedOnUtc <= DayTicks && ResolvePaymentId(codec, order).Some? &&
                     var response := gateway.createCancel(
                       CancelRequest(settings, ctx, order, ResolvePaymentId(codec, order).value), GetOptions(settings));
                     response.Success? && response.value.Status == Some(GatewaySuccess)
    ensures r.0 ==> r.1 == ""
  {
    if ctx.now - order.CreatedOnUtc > DayTicks then (false, "Payment can only be cancelled within 24 hours")
    else match ResolvePaymentId(codec, order)
      case None => (false, "Payment ID not found in order")
      case Some(paymentId) =>
        GatewayOutcome(gateway.createCancel(CancelRequest(settings, ctx, order, paymentId), GetOptions(settings)),
                       "Cancel failed: ", "Cancel error: ")
  }

  /** The 24-hour window is checked first: an old order is refused whatever
      its metadata and whatever the gateway would answer. */
  lemma VoidWindowComesFirst(settings: IyzipayPaymentSettings, g1: Gateway, g2: Gateway,
                             c1: JsonCodec, c2: JsonCodec, ctx: ShopContext, order: Order)
    requires ctx.now - order.CreatedOnUtc > DayTicks
    ensures VoidOutcome(settings, g1, c1, ctx, order) == VoidOutcome(settings, g2, c2, ctx, order.(CustomOrderNumber := None))
    ensures VoidOutcome(settings, g1, c1, ctx, order) == (false, "Payment can only be cancelled within 24 hours")
  {
  }

  /** RefundPaymentAsync. Without a payment id no request is sent. */
  method RefundPayment(settings: IyzipayPaymentSettings, gateway: Gateway, formats: Formats,
                       codec: JsonCodec, ctx: ShopContext, order: Order, amountToRefund: real)
    returns (success: bool, errorMessage: string, sent: Option<CreateAmountBasedRefundRequest>)
    ensures ResolvePaymentId(codec, order).None? ==>
              !success && errorMessage == "Payment ID not found in order" && sent.None?
    ensures ResolvePaymentId(codec, order).Some? ==>
              && sent == Some(RefundRequest(settings, formats, ctx, order, amountToRefund, ResolvePaymentId(codec, order).value))
              && (success, errorMessage) == GatewayOutcome(gateway.createRefund(sent.value, GetOptions(settings)),
                                                           "Refund failed: ", "Refund error: ")
    ensures (success, errorMessage) == RefundOutcome(settings, gateway, formats, codec, ctx, order, amountToRefund)
  {
    var options := GetOptions(settings);
    var iyzipayData := GetIyzipayDataFromOrder(codec, order);
    var paymentId := iyzipayData.PaymentId;
    if IsNullOrEmpty(paymentId) {
      paymentId := order.AuthorizationTransactionId;
    }
    if IsNullOrEmpty(paymentId) {
      return false, "Payment ID not found in order", None;
    }
    var request := CreateAmountBasedRefundRequest(
      Locale := GetLocale(settings),
      ConversationId := GuidToString(order.OrderGuid),
      Ip := ctx.ip,
      Price := formats.formatF2(amountToRefund),
      PaymentId := paymentId.value);
    sent := Some(request);
    var refund := gateway.createRefund(request, options);
    if refund.Failure? {
      return false, "Refund error: " + refund.error, sent;
    }
    if refund.value.Status == Some(GatewaySuccess) {
      return true, "", sent;
    } else {
      return false, "Refund failed: " + OrEmpty(refund.value.ErrorMessage), sent;
    }
  }

  /** 24 hours in ticks (a tick is 100 ns). */
  const DayTicks: int := 24 * 60 * 60 * 10_000_000

  /** VoidPaymentAsync. An order older than 24 hours is refused before its
      metadata is read or any request is sent. */
  method VoidPayment(settings: IyzipayPaymentSettings, gateway: Gateway, codec: JsonCodec,
                     ctx: ShopContext, order: Order)
    returns (success: bool, errorMessage: string, sent: Option<CreateCancelRequest>)
    ensures ctx.now - order.CreatedOnUtc > DayTicks ==>
              !success && errorMessage == "Payment can only be cancelled within 24 hours" && sent.None?
    ensures ctx.now - order.CreatedOnUtc <= DayTicks && ResolvePaymentId(codec, order).None? ==>
              !success && errorMessage == "Payment ID not found in order" && sent.None?
    ensures ctx.now - order.CreatedOnUtc <= DayTicks && ResolvePaymentId(codec, order).Some? ==>
              && sent == Some(CancelRequest(settings, ctx, order, ResolvePaymentId(codec, order).value))
              && (success, errorMessage) == GatewayOutcome(gateway.createCancel(sent.value, GetOptions(settings)),
                                                           "Cancel failed: ", "Cancel error: ")
    ensures (success, errorMessage) == VoidOutcome(settings, gateway, codec, ctx, order)
  {
    var orderAge := ctx.now - order.CreatedOnUtc;
    if orderAge > DayTicks {
      return false, "Payment can only be cancelled within 24 hours", None;
    }
    var options := GetOptions(settings);
    var iyzipayData := GetIyzipayDataFromOrder(codec, order);
    var paymentId := iyzipayData.PaymentId;
    if IsNullOrEmpty(paymentId) {
      paymentId := order.AuthorizationTransactionId;
    }
    if IsNullOrEmpty(paymentId) {
      return false, "Payment ID not found in order", None;
    }
    var request := CreateCancelRequest(
      Locale := GetLocale(settings),
      ConversationId := GuidToString(order.OrderGuid),
      PaymentId := paymentId.value,
      Ip := ctx.ip);
    sent := Some(request);
    var cancel := gateway.createCancel(request, options);
    if cancel.Failure? {
      return false, "Cancel error: " + cancel.error, sent;
    }
    if cancel.value.Status == Some(GatewaySuccess) {
      return true, "", sent;
    } else {
      return false, "Cancel failed: " + OrEmpty(cancel.value.ErrorMessage), sent;
    }
  }

  /** RetrievePaymentAsync: the gateway's answer, with an exception rethrown
      under a "Retrieve payment error: " prefix. */
  function RetrievePayment(settings: IyzipayPaymentSettings, gateway: Gateway, token: Option<string>)
    : (r: Result<Option<CheckoutForm>>)
    ensures var response := gateway.retrieve(RetrieveCheckoutFormRequest(GetLocale(settings), token), GetOptions(settings));
      && (r.Success? <==> response.Success?)
      && (r.Success? ==> r.value == response.value)
      && (r.Failure? ==> r.error == "Retrieve payment error: " + response.error)
  {
    var request := RetrieveCheckoutFormRequest(GetLocale(settings), token);
    match gateway.retrieve(request, GetOptions(settings))
    case Success(form) => Success(form)
    case Failure(message) => Failure("Retrieve payment error: " + message)
  }
}

/** IyzipayWebhookService: a gateway notification either carries a signature,
    which is checked with HMAC-SHA256 over the notification's fields, or
    carries none and is trusted on its token; either way its status is then
    written over the payment and order status of the order whose GUID is the
    notification's conversation id. */
module IyzipayWebhookService {
  import opened Wrappers
  import opened Text
  import opened HexEncoding
  import opened Guids
  import opened Orders
  import opened IyzipayConfigurationService

  /** The notification as a dictionary; a value is the text its `ToString()`
      gives, or `None` for a null value. */
  type WebhookData = map<string, Option<string>>

  /** HMAC-SHA256 of the UTF-8 encodings: `Hmac(key, message)` is the MAC of
      `message` under `key` (section 2 of RFC 2104 over SHA-256). */
  type Hmac = (string, string) -> seq<Byte>

  /** WebhookProcessResult: Message is "" unless something went wrong. */
  datatype WebhookProcessResult = WebhookProcessResult(Success: bool, Message: string)

  /** The message of the KeyNotFoundException a dictionary read throws. */
  function KeyNotFound(key: string): string {
    "The given key '" + key + "' was not present in the dictionary."
  }

  /** `webhookData[key]`: throws when the key is absent. */
  function Get(data: WebhookData, key: string): (r: Result<Option<string>>)
    ensures r.Success? <==> key in data
    ensures r.Success? ==> r.value == data[key]
    ensures r.Failure? ==> r.error == KeyNotFound(key)
  {
    if key in data then Success(data[key]) else Failure(KeyNotFound(key))
  }

  /** CalculateHMACSHA256(data, key): the MAC printed as lower-case hexadecimal. */
  function CalculateHmacSha256(hmac: Hmac, data: string, key: string): (r: string)
    ensures r == LowerHex(hmac(key, data))
  {
    PrintMacIsLowerHex(hmac(key, data));
    PrintMac(hmac(key, data))
  }

  /** The text that is signed: the secret key followed by the five fields. */
  function MacInput(secretKey: string, eventType: string, paymentId: string, token: string,
                    conversationId: string, status: string): string
  {
    secretKey + eventType + paymentId + token + conversationId + status
  }

  /** The fields the signed branch reads, in the order it reads them. */
  const HmacKeys: seq<string> := ["iyziEventType", "iyziPaymentId", "token", "paymentConversationId", "status"]

  /** What a notification leads to: a failure result with a message, or a
      status to apply to the order named by a conversation id. */
  datatype Decision = Reject(message: string) | Apply(conversationId: Option<string>, status: string)

  /** ProcessWebhookWithHmacAsync up to the order update. */
  function HmacDecision(secretKey: string, data: WebhookData, signature: string, hmac: Hmac): (r: Result<Decision>)
    ensures r.Success? <==> forall k :: k in HmacKeys ==> k in data
    ensures r.Success? && r.value.Reject? ==> r.value.message == "Invalid signature"
    ensures r.Success? && r.value.Apply? ==> r.value.conversationId.Some?
  {
    var eventType :- Get(data, "iyziEventType");
    var paymentId :- Get(data, "iyziPaymentId");
    var token :- Get(data, "token");
    var conversationId :- Get(data, "paymentConversationId");
    var status :- Get(data, "status");
    var key := MacInput(secretKey, OrEmpty(eventType), OrEmpty(paymentId), OrEmpty(token),
                        OrEmpty(conversationId), OrEmpty(status));
    if CalculateHmacSha256(hmac, key, secretKey) != ToLower(signature) then
      Success(Reject("Invalid signature"))
    else
      Success(Apply(Some(OrEmpty(conversationId)), OrEmpty(status)))
  }

  /** ProcessWebhookWithRetrieveAsync up to the order update. */
  function RetrieveDecision(data: WebhookData): (r: Result<Decision>)
    ensures r.Failure? <==> "token" !in data || "paymentConversationId" !in data
                            || (!IsNullOrEmpty(data["token"]) && "status" !in data)
    ensures r.Success? && r.value.Reject? ==> r.value.message == "Missing required parameters"
    ensures r.Success? && r.value.Apply? ==>
              !IsNullOrEmpty(data["token"]) && r.value.conversationId == data["paymentConversationId"]
  {
    var token :- Get(data, "token");
    var conversationId :- Get(data, "paymentConversationId");
    if IsNullOrEmpty(token) then
      Success(Reject("Missing required parameters"))
    else
      var status :- Get(data, "status");
      Success(Apply(conversationId, status.GetOr("FAILURE")))
  }

  /** The `catch` of both branches: an exception becomes a failure result
      carrying its message. */
  function Settle(r: Result<Decision>): Decision {
    match r
    case Success(d) => d
    case Failure(message) => Reject(message)
  }

  /** ProcessWebhookAsync: the signed branch when a signature is given. */
  function Decide(secretKey: string, data: WebhookData, signature: Option<string>, hmac: Hmac): Decision {
    if !IsNullOrEmpty(signature) then Settle(HmacDecision(secretKey, data, signature.value, hmac))
    else Settle(RetrieveDecision(data))
  }

  function Outcome(d: Decision): (r: WebhookProcessResult)
    ensures r.Success <==> d.Apply?
    ensures d.Apply? ==> r.Message == ""
    ensures d.Reject? ==> r.Message == d.message
  {
    match d
    case Reject(message) => WebhookProcessResult(false, message)
    case Apply(_, _) => WebhookProcessResult(true, "")
  }

  /** The overwrite of UpdateOrderStatusAsync: "SUCCESS" (exactly) pays the
      order and gives it the configured status; anything else voids and
      cancels it. No other field changes. */
  function SetStatus(o: Order, status: string, statusAfterPayment: int): (r: Order)
    ensures status == "SUCCESS" ==> r.PaymentStatus == Paid && r.OrderStatus == OrderStatusFromCode(statusAfterPayment)
    ensures status != "SUCCESS" ==> r.PaymentStatus == Voided && r.OrderStatus == Cancelled
    ensures r == o.(PaymentStatus := r.PaymentStatus, OrderStatus := r.OrderStatus)
  {
    if status == "SUCCESS" then o.(PaymentStatus := Paid, OrderStatus := OrderStatusFromCode(statusAfterPayment))
    else o.(PaymentStatus := Voided, OrderStatus := OrderStatus.Cancelled)
  }

  /** UpdateOrderStatusAsync on the stored orders: only the order whose GUID
      the conversation id spells is touched; an unparsable id or an unknown
      GUID changes nothing. */
  function ApplyStatus(orders: map<Guid, Order>, statusAfterPayment: int,
                       conversationId: Option<string>, status: string): (r: map<Guid, Order>)
    ensures r.Keys == orders.Keys
    ensures forall g :: g in orders && TryParse(conversationId) != Some(g) ==> r[g] == orders[g]
  {
    match TryParse(conversationId)
    case None => orders
    case Some(g) =>
      if g in orders then orders[g := SetStatus(orders[g], status, statusAfterPayment)] else orders
  }

  /** The change a decision makes to the stored orders. */
  function Effect(orders: map<Guid, Order>, statusAfterPayment: int, d: Decision): map<Guid, Order> {
    match d
    case Reject(_) => orders
    case Apply(conversationId, status) => ApplyStatus(orders, statusAfterPayment, conversationId, status)
  }

  // ---------------------------------------------------------------------
  // Properties

  /** Without a signature no MAC is computed, so the MAC function cannot
      matter; with one, an applied notification is one whose signature
      matches the MAC of the five fields, null fields counting as "". */
  lemma SignatureSelectsBranch(secretKey: string, data: WebhookData, signature: Option<string>, h1: Hmac, h2: Hmac)
    ensures IsNullOrEmpty(signature) ==> Decide(secretKey, data, signature, h1) == Decide(secretKey, data, signature, h2)
    ensures !IsNullOrEmpty(signature) && Decide(secretKey, data, signature, h1).Apply? ==>
              && (forall k :: k in HmacKeys ==> k in data)
              && SignatureMatches(
                   LowerHex(h1(secretKey, MacInput(secretKey, OrEmpty(data["iyziEventType"]),
                     OrEmpty(data["iyziPaymentId"]), OrEmpty(data["token"]),
                     OrEmpty(data["paymentConversationId"]), OrEmpty(data["status"])))),
                   signature.value)
              && Decide(secretKey, data, signature, h1) == Apply(Some(OrEmpty(data["paymentConversationId"])), OrEmpty(data["status"]))
  {
  }

  /** In the signed branch a null value and an empty one are the same. */
  lemma NullFieldIsEmpty(secretKey: string, data: WebhookData, signature: string, hmac: Hmac, k: string)
    requires k in HmacKeys
    ensures HmacDecision(secretKey, data[k := None], signature, hmac)
         == HmacDecision(secretKey, data[k := Some("")], signature, hmac)
  {
  }

  /** The case in which the signature is delivered does not matter. */
  lemma DeliveredCaseIgnored(secretKey: string, data: WebhookData, signature: string, hmac: Hmac)
    ensures Decide(secretKey, data, Some(ToUpper(signature)), hmac) == Decide(secretKey, data, Some(signature), hmac)
    ensures Decide(secretKey, data, Some(ToLower(signature)), hmac) == Decide(secretKey, data, Some(signature), hmac)
  {
    ToLowerForgetsCase(signature);
    ToLowerIdempotent(signature);
  }

  /** A signature that does not match is rejected with "Invalid signature". */
  lemma InvalidSignatureRejected(secretKey: string, data: WebhookData, signature: string, hmac: Hmac)
    requires signature != ""
    requires forall k :: k in HmacKeys ==> k in data
    requires !SignatureMatches(
               LowerHex(hmac(secretKey, MacInput(secretKey, OrEmpty(data["iyziEventType"]),
                 OrEmpty(data["iyziPaymentId"]), OrEmpty(data["token"]),
                 OrEmpty(data["paymentConversationId"]), OrEmpty(data["status"])))),
               signature)
    ensures Decide(secretKey, data, Some(signature), hmac) == Reject("Invalid signature")
  {
    assert HmacKeys[0] in data && HmacKeys[1] in data && HmacKeys[2] in data;
    assert HmacKeys[3] in data && HmacKeys[4] in data;
    assert HmacDecision(secretKey, data, signature, hmac) == Success(Reject("Invalid signature"));
  }

  /** The signed branch reads the five fields in order; the first one that
      is absent ends it with the KeyNotFoundException message. */
  lemma HmacMissingKeyRejected(secretKey: string, data: WebhookData, signature: string, hmac: Hmac, i: nat)
    requires signature != "" && i < |HmacKeys|
    requires forall j :: 0 <= j < i ==> HmacKeys[j] in data
    requires HmacKeys[i] !in data
    ensures Decide(secretKey, data, Some(signature), hmac) == Reject(KeyNotFound(HmacKeys[i]))
  {
    if i > 0 { assert HmacKeys[0] in data; }
    if i > 1 { assert HmacKeys[1] in data; }
    if i > 2 { assert HmacKeys[2] in data; }
    if i > 3 { assert HmacKeys[3] in data; }
  }

  /** The unsigned branch: a missing token or conversation id key throws, a
      null or empty token is rejected, a missing status key then throws,
      and a null status counts as "FAILURE". */
  lemma RetrieveBranchOutcomes(data: WebhookData)
    ensures "token" !in data ==> RetrieveDecision(data) == Failure(KeyNotFound("token"))
    ensures "token" in data && "paymentConversationId" !in data ==>
              RetrieveDecision(data) == Failure(KeyNotFound("paymentConversationId"))
    ensures "token" in data && "paymentConversationId" in data && IsNullOrEmpty(data["token"]) ==>
              RetrieveDecision(data) == Success(Reject("Missing required parameters"))
    ensures "token" in data && "paymentConversationId" in data && !IsNullOrEmpty(data["token"]) ==>
              RetrieveDecision(data) == (if "status" in data
                then Success(Apply(data["paymentConversationId"], data["status"].GetOr("FAILURE")))
                else Failure(KeyNotFound("status")))
  {
  }

  /** A rejected notification leaves every order as it was. */
  lemma RejectedChangesNothing(orders: map<Guid, Order>, statusAfterPayment: int, d: Decision)
    requires !Outcome(d).Success
    ensures Effect(orders, statusAfterPayment, d) == orders
  {
  }

  /** An unparsable conversation id, or one naming no stored order, changes
      nothing although the result reports success. */
  lemma UnmatchedChangesNothing(orders: map<Guid, Order>, statusAfterPayment: int,
                                conversationId: Option<string>, status: string)
    requires TryParse(conversationId).None? || TryParse(conversationId).value !in orders
    ensures ApplyStatus(orders, statusAfterPayment, conversationId, status) == orders
    ensures Outcome(Apply(conversationId, status)).Success
  {
  }

  /** Only the named order changes, and only in its two status fields. */
  lemma ApplyStatusFrame(orders: map<Guid, Order>, statusAfterPayment: int,
                         conversationId: Option<string>, status: string)
    ensures var r := ApplyStatus(orders, statusAfterPayment, conversationId, status);
      && r.Keys == orders.Keys
      && (forall g :: g in orders && Some(g) != TryParse(conversationId) ==> r[g] == orders[g])
      && (forall g :: g in orders ==>
            r[g] == orders[g].(PaymentStatus := r[g].PaymentStatus, OrderStatus := r[g].OrderStatus))
  {
  }

  /** Applying a notification's status twice is applying it once. */
  lemma ApplyStatusIdempotent(orders: map<Guid, Order>, statusAfterPayment: int,
                              conversationId: Option<string>, status: string)
    ensures var once := ApplyStatus(orders, statusAfterPayment, conversationId, status);
      ApplyStatus(once, statusAfterPayment, conversationId, status) == once
  {
  }

  /** Delivering the same notification twice leaves the orders as one
      delivery does. (The decision does not read the orders, so the
      reported result is the same both times as well.) */
  lemma WebhookIdempotent(orders: map<Guid, Order>, settings: IyzipayPaymentSettings,
                          data: WebhookData, signature: Option<string>, hmac: Hmac)
    ensures var d := Decide(settings.SecretKey, data, signature, hmac);
      var once := Effect(orders, settings.OrderStatusAfterPayment, d);
      Effect(once, settings.OrderStatusAfterPayment, d) == once
  {
    var d := Decide(settings.SecretKey, data, signature, hmac);
    if d.Apply? {
      ApplyStatusIdempotent(orders, settings.OrderStatusAfterPayment, d.conversationId, d.status);
    }
  }

  /** Every status other than "SUCCESS" has the same effect; in particular
      the "" a null status becomes in the signed branch and the "FAILURE" it
      becomes in the unsigned one. The comparison is case-sensitive. */
  lemma NonSuccessStatusesAgree(orders: map<Guid, Order>, statusAfterPayment: int,
                                conversationId: Option<string>, s1: string, s2: string)
    requires s1 != "SUCCESS" && s2 != "SUCCESS"
    ensures ApplyStatus(orders, statusAfterPayment, conversationId, s1)
         == ApplyStatus(orders, statusAfterPayment, conversationId, s2)
  {
  }

  // ---------------------------------------------------------------------
  // The service's methods

  /** UpdateOrderStatusAsync. */
  method UpdateOrderStatus(store: OrderStore, settings: IyzipayPaymentSettings,
                           conversationId: Option<string>, status: string)
    requires store.Valid()
    modifies store
    ensures store.Valid() && store.items == old(store.items)
    ensures store.orders == ApplyStatus(old(store.orders), settings.OrderStatusAfterPayment, conversationId, status)
  {
    var orderGuid := TryParse(conversationId);
    if orderGuid.Some? {
      var order := store.Find(orderGuid.value);
      if order.Some? {
        var o := order.value;
        if status == "SUCCESS" {
          o := o.(PaymentStatus := Paid, OrderStatus := OrderStatusFromCode(settings.OrderStatusAfterPayment));
        } else {
          o := o.(PaymentStatus := Voided, OrderStatus := OrderStatus.Cancelled);
        }
        store.UpdateOrder(o);
      }
    }
  }

  /** ProcessWebhookWithHmacAsync. */
  method ProcessWebhookWithHmac(store: OrderStore, settings: IyzipayPaymentSettings,
                                data: WebhookData, signature: string, hmac: Hmac)
    returns (result: WebhookProcessResult)
    requires store.Valid()
    modifies store
    ensures store.Valid() && store.items == old(store.items)
    ensures var d := Settle(HmacDecision(settings.SecretKey, data, signature, hmac));
      result == Outcome(d) && store.orders == Effect(old(store.orders), settings.OrderStatusAfterPayment, d)
  {
    result := WebhookProcessResult(false, "");
    var eventType := Get(data, "iyziEventType");
    if eventType.Failure? { return result.(Success := false, Message := eventType.error); }
    var paymentId := Get(data, "iyziPaymentId");
    if paymentId.Failure? { return result.(Success := false, Message := paymentId.error); }
    var token := Get(data, "token");
    if token.Failure? { return result.(Success := false, Message := token.error); }
    var conversationId := Get(data, "paymentConversationId");
    if conversationId.Failure? { return result.(Success := false, Message := conversationId.error); }
    var status := Get(data, "status");
    if status.Failure? { return result.(Success := false, Message := status.error); }
    var key := MacInput(settings.SecretKey, OrEmpty(eventType.value), OrEmpty(paymentId.value),
                        OrEmpty(token.value), OrEmpty(conversationId.value), OrEmpty(status.value));
    var computedSignature := CalculateHmacSha256(hmac, key, settings.SecretKey);
    if computedSignature != ToLower(signature) {
      return result.(Success := false, Message := "Invalid signature");
    }
    UpdateOrderStatus(store, settings, Some(OrEmpty(conversationId.value)), OrEmpty(status.value));
    result := result.(Success := true);
  }

  /** ProcessWebhookWithRetrieveAsync. */
  method ProcessWebhookWithRetrieve(store: OrderStore, settings: IyzipayPaymentSettings, data: WebhookData)
    returns (result: WebhookProcessResult)
    requires store.Valid()
    modifies store
    ensures store.Valid() && store.items == old(store.items)
    ensures var d := Settle(RetrieveDecision(data));
      result == Outcome(d) && store.orders == Effect(old(store.orders), settings.OrderStatusAfterPayment, d)
  {
    result := WebhookProcessResult(false, "");
    var token := Get(data, "token");
    if token.Failure? {
      return result.(Success := false, Message := token.error);
    }
    var conversationId := Get(data, "paymentConversationId");
    if conversationId.Failure? {
      return result.(Success := false, Message := conversationId.error);
    }
    if IsNullOrEmpty(token.value) {
      return result.(Success := false, Message := "Missing required parameters");
    }
    var status := Get(data, "status");
    if status.Failure? {
      return result.(Success := false, Message := status.error);
    }
    UpdateOrderStatus(store, settings, conversationId.value, status.value.GetOr("FAILURE"));
    result := result.(Success := true);
  }

  /** ProcessWebhookAsync: a non-empty signature selects the signed branch. */
  method ProcessWebhook(store: OrderStore, settings: IyzipayPaymentSettings,
                        data: WebhookData, signature: Option<string>, hmac: Hmac)
    returns (result: WebhookProcessResult)
    requires store.Valid()
    modifies store
    ensures store.Valid() && store.items == old(store.items)
    ensures var d := Decide(settings.SecretKey, data, signature, hmac);
      result == Outcome(d) && store.orders == Effect(old(store.orders), settings.OrderStatusAfterPayment, d)
  {
    if !IsNullOrEmpty(signature) {
      result := ProcessWebhookWithHmac(store, settings, data, signature.value, hmac);
    } else {
      result := ProcessWebhookWithRetrieve(store, settings, data);
    }
  }
}

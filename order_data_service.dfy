/** IyzipayOrderDataService: the order's gateway metadata is stored as JSON
    text in the order's CustomOrderNumber, read back tolerantly, and rebuilt
    from a payment-retrieve response. */
module IyzipayOrderDataService {
  import opened Wrappers
  import opened Text
  import opened Orders
  import opened IyzipayOrderData
  import opened JsonElement

  /** GetIyzipayDataFromOrder: never fails; an order without metadata, or with
      text that does not decode, gives the fresh record. */
  function GetIyzipayDataFromOrder(codec: JsonCodec, order: Order): (d: OrderData)
    ensures IsNullOrEmpty(order.CustomOrderNumber) ==> IsBlank(d)
    ensures (!IsNullOrEmpty(order.CustomOrderNumber)
             && !codec.deserialize(order.CustomOrderNumber.value).Decoded?) ==> IsBlank(d)
  {
    if IsNullOrEmpty(order.CustomOrderNumber) then NewOrderData()
    else FromJson(codec, order.CustomOrderNumber)
  }

  /** Metadata saved into an order is what a later read of that order returns. */
  lemma SaveThenRead(codec: JsonCodec, order: Order, data: OrderData)
    requires Lawful(codec) && DecimalValued(data)
    ensures GetIyzipayDataFromOrder(codec, order.(CustomOrderNumber := Some(ToJson(codec, data)))) == data
  {
    FromJsonToJson(codec, data);
  }

  /** SaveIyzipayDataToOrderAsync: the order object gets the JSON text in
      CustomOrderNumber and nothing else; the store is then updated, unless
      the update fails (`persistFails`), which is swallowed. The order object
      as the caller holds it afterwards is returned. */
  method SaveIyzipayDataToOrder(store: OrderStore, order: Order, data: OrderData,
                                codec: JsonCodec, persistFails: bool)
    returns (saved: Order)
    requires store.Valid()
    modifies store
    ensures store.Valid()
    ensures saved == order.(CustomOrderNumber := Some(ToJson(codec, data)))
    ensures store.items == old(store.items)
    ensures store.orders == if persistFails then old(store.orders)
                            else old(store.orders)[order.OrderGuid := saved]
    ensures Lawful(codec) && DecimalValued(data) ==> GetIyzipayDataFromOrder(codec, saved) == data
  {
    saved := order.(CustomOrderNumber := Some(ToJson(codec, data)));
    if !persistFails {
      store.UpdateOrder(saved);
    }
    if Lawful(codec) && DecimalValued(data) {
      SaveThenRead(codec, order, data);
    }
  }

  // ---------------------------------------------------------------------
  // Projection of a retrieve response

  /** A string property: copied when present (null reads as ""), "" when absent. */
  function StringField(p: map<string, Json>, key: string): Option<string> {
    if key in p then GetStringOrEmpty(p[key]) else Some("")
  }

  /** An `int` property: 0 when absent. */
  function Int32Field(p: map<string, Json>, key: string): Option<Int32> {
    if key in p then GetInt32(p[key]) else Some(0)
  }

  /** A `decimal` property: 0 when absent. */
  function DecimalField(p: map<string, Json>, key: string): Option<real> {
    if key in p then GetDecimal(p[key]) else Some(0.0)
  }

  /** One element of `itemTransactions`; `None` when the element is not an
      object or one of its properties has the wrong kind. */
  function ProjectItem(e: Json): Option<ItemTransaction> {
    if !e.JObject? then None
    else
      var p := e.props;
      var itemId :- StringField(p, "itemId");
      var paymentTransactionId :- StringField(p, "paymentTransactionId");
      var transactionStatus :- Int32Field(p, "transactionStatus");
      var price :- DecimalField(p, "price");
      var paidPrice :- DecimalField(p, "paidPrice");
      var merchantCommissionRate :- DecimalField(p, "merchantCommissionRate");
      var merchantCommissionRateAmount :- DecimalField(p, "merchantCommissionRateAmount");
      var iyziCommissionRateAmount :- DecimalField(p, "iyziCommissionRateAmount");
      var iyziCommissionFee :- DecimalField(p, "iyziCommissionFee");
      var merchantPayoutAmount :- DecimalField(p, "merchantPayoutAmount");
      Some(ItemTransaction(Some(itemId), Some(paymentTransactionId), transactionStatus,
        price, paidPrice, merchantCommissionRate, merchantCommissionRateAmount,
        iyziCommissionRateAmount, iyziCommissionFee, merchantPayoutAmount))
  }

  /** The elements of the array, converted in order; `None` if any conversion fails. */
  function ProjectItems(elems: seq<Json>): Option<seq<ItemTransaction>> {
    if elems == [] then Some([])
    else
      var init :- ProjectItems(elems[..|elems| - 1]);
      var last :- ProjectItem(elems[|elems| - 1]);
      Some(init + [last])
  }

  /** The `itemTransactions` property: read only when it is an array. */
  function ItemsField(p: map<string, Json>): Option<seq<ItemTransaction>> {
    if "itemTransactions" in p && p["itemTransactions"].JArray? then
      ProjectItems(p["itemTransactions"].elems)
    else Some([])
  }

  /** The record UpdateIyzipayDataFromRetrieveAsync builds from the response
      document, or `None` when building it throws. */
  function Project(root: Json): (r: Option<OrderData>)
    ensures !root.JObject? ==> r.None?
    ensures root == JObject(map[]) ==> r == Some(NewOrderData())
  {
    if !root.JObject? then None
    else
      var p := root.props;
      var paymentId :- StringField(p, "paymentId");
      var conversationId :- StringField(p, "conversationId");
      var token :- StringField(p, "token");
      var basketId :- StringField(p, "basketId");
      var paymentStatus :- StringField(p, "paymentStatus");
      var fraudStatus :- Int32Field(p, "fraudStatus");
      var cardType :- StringField(p, "cardType");
      var cardAssociation :- StringField(p, "cardAssociation");
      var cardFamily :- StringField(p, "cardFamily");
      var binNumber :- StringField(p, "binNumber");
      var lastFourDigits :- StringField(p, "lastFourDigits");
      var authCode :- StringField(p, "authCode");
      var phase :- StringField(p, "phase");
      var mdStatus :- Int32Field(p, "mdStatus");
      var hostReference :- StringField(p, "hostReference");
      var items :- ItemsField(p);
      Some(OrderData(Some(paymentId), Some(conversationId), Some(token), Some(basketId),
        Some(paymentStatus), fraudStatus, Some(cardType), Some(cardAssociation),
        Some(cardFamily), Some(binNumber), Some(lastFourDigits), Some(authCode),
        Some(phase), mdStatus, Some(hostReference), Some(items)))
  }

  /** The string properties of the response the record copies. */
  const StringKeys: set<string> := {"paymentId", "conversationId", "token", "basketId",
    "paymentStatus", "cardType", "cardAssociation", "cardFamily", "binNumber",
    "lastFourDigits", "authCode", "phase", "hostReference"}

  /** The text of a present string property; "" for null or absence. */
  function TextOf(p: map<string, Json>, key: string): string {
    if key in p && p[key].JString? then p[key].s else ""
  }

  /** The array is converted element by element: the list has one entry per
      element, in array order, and it exists exactly when every element
      converts. */
  lemma {:induction false} ProjectItemsShape(elems: seq<Json>)
    ensures ProjectItems(elems).Some? <==> forall i :: 0 <= i < |elems| ==> ProjectItem(elems[i]).Some?
    ensures ProjectItems(elems).Some? ==>
              |ProjectItems(elems).value| == |elems|
              && forall i :: 0 <= i < |elems| ==> ProjectItem(elems[i]) == Some(ProjectItems(elems).value[i])
  {
    if elems != [] {
      var init := elems[..|elems| - 1];
      ProjectItemsShape(init);
      assert forall i :: 0 <= i < |init| ==> init[i] == elems[i];
    }
  }

  /** A failure on a prefix of the array is a failure of the whole array. */
  lemma ProjectItemsPrefixFails(elems: seq<Json>, k: nat)
    requires k <= |elems| && ProjectItems(elems[..k]).None?
    ensures ProjectItems(elems).None?
  {
    ProjectItemsShape(elems[..k]);
    ProjectItemsShape(elems);
    var i :| 0 <= i < k && ProjectItem(elems[..k][i]).None?;
    assert elems[..k][i] == elems[i];
  }

  /** The projection copies a property only when its key is present: a
      present string is copied, a present null and an absent key leave "",
      an absent number leaves 0, and the item list follows the array (empty
      when the key is absent or not an array). */
  lemma ProjectCopiesPresentKeys(root: Json)
    requires Project(root).Some?
    ensures root.JObject?
    ensures var p, d := root.props, Project(root).value;
      && d.PaymentId == Some(TextOf(p, "paymentId"))
      && d.ConversationId == Some(TextOf(p, "conversationId"))
      && d.Token == Some(TextOf(p, "token"))
      && d.BasketId == Some(TextOf(p, "basketId"))
      && d.PaymentStatus == Some(TextOf(p, "paymentStatus"))
      && d.CardType == Some(TextOf(p, "cardType"))
      && d.CardAssociation == Some(TextOf(p, "cardAssociation"))
      && d.CardFamily == Some(TextOf(p, "cardFamily"))
      && d.BinNumber == Some(TextOf(p, "binNumber"))
      && d.LastFourDigits == Some(TextOf(p, "lastFourDigits"))
      && d.AuthCode == Some(TextOf(p, "authCode"))
      && d.Phase == Some(TextOf(p, "phase"))
      && d.HostReference == Some(TextOf(p, "hostReference"))
      && d.FraudStatus == (if "fraudStatus" in p then p["fraudStatus"].i else 0)
      && d.MdStatus == (if "mdStatus" in p then p["mdStatus"].i else 0)
  {
    var p := root.props;
    forall key | key in StringKeys ensures StringField(p, key).Some? ==> StringField(p, key).value == TextOf(p, key) {
    }
  }

  /** The item list of a built record follows the `itemTransactions` array,
      element by element, and is empty when the key is absent or not an array. */
  lemma ProjectCopiesItems(root: Json)
    requires Project(root).Some?
    ensures root.JObject?
    ensures var p, d := root.props, Project(root).value;
      if "itemTransactions" in p && p["itemTransactions"].JArray? then
        var elems := p["itemTransactions"].elems;
        |d.ItemTransactions.value| == |elems|
        && forall i :: 0 <= i < |elems| ==> ProjectItem(elems[i]) == Some(d.ItemTransactions.value[i])
      else d.ItemTransactions == Some([])
  {
    var p := root.props;
    if "itemTransactions" in p && p["itemTransactions"].JArray? {
      ProjectItemsShape(p["itemTransactions"].elems);
    }
  }

  /** The projection throws exactly when the response is not an object, a
      present string property is neither a string nor null, a present
      `fraudStatus` or `mdStatus` is not an `int`, or an item fails to convert. */
  lemma ProjectFailsIff(root: Json)
    ensures Project(root).None? <==>
      || !root.JObject?
      || (exists k :: k in StringKeys && k in root.props && GetStringOrEmpty(root.props[k]).None?)
      || ("fraudStatus" in root.props && GetInt32(root.props["fraudStatus"]).None?)
      || ("mdStatus" in root.props && GetInt32(root.props["mdStatus"]).None?)
      || ItemsField(root.props).None?
  {
  }

  /** One item, property by property, as the `foreach` body builds it. */
  method ReadItemTransaction(e: Json) returns (r: Option<ItemTransaction>)
    ensures r == ProjectItem(e)
  {
    if !e.JObject? {
      return None;
    }
    var p := e.props;
    var t := NewItemTransaction();
    var itemId := StringField(p, "itemId");
    if itemId.None? { return None; }
    t := t.(ItemId := Some(itemId.value));
    var paymentTransactionId := StringField(p, "paymentTransactionId");
    if paymentTransactionId.None? { return None; }
    t := t.(PaymentTransactionId := Some(paymentTransactionId.value));
    var transactionStatus := Int32Field(p, "transactionStatus");
    if transactionStatus.None? { return None; }
    t := t.(TransactionStatus := transactionStatus.value);
    var price := DecimalField(p, "price");
    if price.None? { return None; }
    t := t.(Price := price.value);
    var paidPrice := DecimalField(p, "paidPrice");
    if paidPrice.None? { return None; }
    t := t.(PaidPrice := paidPrice.value);
    var merchantCommissionRate := DecimalField(p, "merchantCommissionRate");
    if merchantCommissionRate.None? { return None; }
    t := t.(MerchantCommissionRate := merchantCommissionRate.value);
    var merchantCommissionRateAmount := DecimalField(p, "merchantCommissionRateAmount");
    if merchantCommissionRateAmount.None? { return None; }
    t := t.(MerchantCommissionRateAmount := merchantCommissionRateAmount.value);
    var iyziCommissionRateAmount := DecimalField(p, "iyziCommissionRateAmount");
    if iyziCommissionRateAmount.None? { return None; }
    t := t.(IyziCommissionRateAmount := iyziCommissionRateAmount.value);
    var iyziCommissionFee := DecimalField(p, "iyziCommissionFee");
    if iyziCommissionFee.None? { return None; }
    t := t.(IyziCommissionFee := iyziCommissionFee.value);
    var merchantPayoutAmount := DecimalField(p, "merchantPayoutAmount");
    if merchantPayoutAmount.None? { return None; }
    t := t.(MerchantPayoutAmount := merchantPayoutAmount.value);
    return Some(t);
  }

  /** The `foreach` over `itemTransactions`, appending each converted item. */
  method ReadItemTransactions(elems: seq<Json>) returns (r: Option<seq<ItemTransaction>>)
    ensures r == ProjectItems(elems)
  {
    var items: seq<ItemTransaction> := [];
    var i := 0;
    while i < |elems|
      invariant 0 <= i <= |elems|
      invariant ProjectItems(elems[..i]) == Some(items)
    {
      var t := ReadItemTransaction(elems[i]);
      assert elems[..i + 1][..i] == elems[..i];
      if t.None? {
        ProjectItemsPrefixFails(elems, i + 1);
        return None;
      }
      items := items + [t.value];
      i := i + 1;
    }
    assert elems[..i] == elems;
    return Some(items);
  }

  /** UpdateIyzipayDataFromRetrieveAsync's own reading of the response
      document: it starts from a fresh record and sets the properties one by
      one, in the order the source reads them. The result is the record
      `Project` describes, and a read that throws stops the reading there. */
  method ReadRetrieveResponse(root: Json) returns (r: Option<OrderData>)
    ensures r == Project(root)
  {
    if !root.JObject? {
      return None;
    }
    var p := root.props;
    var d := NewOrderData();
    var paymentId := StringField(p, "paymentId");
    if paymentId.None? { return None; }
    d := d.(PaymentId := Some(paymentId.value));
    var conversationId := StringField(p, "conversationId");
    if conversationId.None? { return None; }
    d := d.(ConversationId := Some(conversationId.value));
    var token := StringField(p, "token");
    if token.None? { return None; }
    d := d.(Token := Some(token.value));
    var basketId := StringField(p, "basketId");
    if basketId.None? { return None; }
    d := d.(BasketId := Some(basketId.value));
    var paymentStatus := StringField(p, "paymentStatus");
    if paymentStatus.None? { return None; }
    d := d.(PaymentStatus := Some(paymentStatus.value));
    var fraudStatus := Int32Field(p, "fraudStatus");
    if fraudStatus.None? { return None; }
    d := d.(FraudStatus := fraudStatus.value);
    var cardType := StringField(p, "cardType");
    if cardType.None? { return None; }
    d := d.(CardType := Some(cardType.value));
    var cardAssociation := StringField(p, "cardAssociation");
    if cardAssociation.None? { return None; }
    d := d.(CardAssociation := Some(cardAssociation.value));
    var cardFamily := StringField(p, "cardFamily");
    if cardFamily.None? { return None; }
    d := d.(CardFamily := Some(cardFamily.value));
    var binNumber := StringField(p, "binNumber");
    if binNumber.None? { return None; }
    d := d.(BinNumber := Some(binNumber.value));
    var lastFourDigits := StringField(p, "lastFourDigits");
    if lastFourDigits.None? { return None; }
    d := d.(LastFourDigits := Some(lastFourDigits.value));
    var authCode := StringField(p, "authCode");
    if authCode.None? { return None; }
    d := d.(AuthCode := Some(authCode.value));
    var phase := StringField(p, "phase");
    if phase.None? { return None; }
    d := d.(Phase := Some(phase.value));
    var mdStatus := Int32Field(p, "mdStatus");
    if mdStatus.None? { return None; }
    d := d.(MdStatus := mdStatus.value);
    var hostReference := StringField(p, "hostReference");
    if hostReference.None? { return None; }
    d := d.(HostReference := Some(hostReference.value));
    if "itemTransactions" in p && p["itemTransactions"].JArray? {
      var items := ReadItemTransactions(p["itemTransactions"].elems);
      if items.None? { return None; }
      d := d.(ItemTransactions := Some(items.value));
    }
    return Some(d);
  }

  /** UpdateIyzipayDataFromRetrieveAsync, given the response as the document
      its serialization parses to: when the projection succeeds the record is
      saved into the order; when it throws, the throw is swallowed and neither
      the order nor the store changes. */
  method UpdateIyzipayDataFromRetrieve(store: OrderStore, order: Order, root: Json,
                                       codec: JsonCodec, persistFails: bool)
    returns (current: Order)
    requires store.Valid()
    modifies store
    ensures store.Valid() && store.items == old(store.items)
    ensures Project(root).None? ==> current == order && store.orders == old(store.orders)
    ensures Project(root).Some? ==>
              && current == order.(CustomOrderNumber := Some(ToJson(codec, Project(root).value)))
              && store.orders == if persistFails then old(store.orders)
                                 else old(store.orders)[order.OrderGuid := current]
    ensures Lawful(codec) && Project(root).Some? && DecimalValued(Project(root).value) ==>
              GetIyzipayDataFromOrder(codec, current) == Project(root).value
  {
    var data := ReadRetrieveResponse(root);
    if data.None? {
      return order;
    }
    current := SaveIyzipayDataToOrder(store, order, data.value, codec, persistFails);
  }
}

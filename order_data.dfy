/** The gateway metadata the plugin keeps for an order (IyzipayOrderData,
    IyzipayItemTransaction) and its JSON text form. The JSON serializer is
    library code: it is a parameter of the operations that use it, and the
    one property relied on, that deserializing what was serialized gives
    back any record whose amounts are `decimal` values, is a hypothesis
    (`Lawful`) of the lemmas that need it. */
module IyzipayOrderData {
  import opened Wrappers
  import opened Text

  /** A C# `int`. */
  type Int32 = x: int | -0x8000_0000 <= x < 0x8000_0000

  /** The largest magnitude of a C# `decimal`, 2^96 - 1. */
  const DecimalMax: int := 79228162514264337593543950335

  /** 10^e. */
  function Pow10(e: nat): (r: nat)
    ensures r >= 1
  {
    if e == 0 then 1 else 10 * Pow10(e - 1)
  }

  /** 10^e as a `real`. */
  function ScaleFactor(e: nat): (f: real)
    ensures f >= 1.0
  {
    Pow10(e) as real
  }

  /** `x` is a value of C# `decimal`: an integer of magnitude at most
      DecimalMax divided by 10^e for a scale e between 0 and 28. */
  ghost predicate IsDecimal(x: real) {
    exists e: nat :: e <= 28 && IsScaledInteger(x * ScaleFactor(e))
  }

  ghost predicate IsScaledInteger(m: real) {
    m.Floor as real == m && -DecimalMax as real <= m <= DecimalMax as real
  }

  /** Every amount with at most two decimals in range is a `decimal` value. */
  lemma CentsAreDecimal(cents: int)
    requires -DecimalMax <= cents <= DecimalMax
    ensures IsDecimal(cents as real / 100.0)
  {
    var x, e: nat := cents as real / 100.0, 2;
    assert ScaleFactor(e) == 100.0 by { assert Pow10(2) == 100; }
    assert x * ScaleFactor(e) == cents as real;
    assert e <= 28 && IsScaledInteger(x * ScaleFactor(e));
  }

  /** A magnitude beyond DecimalMax is no `decimal` value at any scale. */
  lemma BeyondRangeIsNotDecimal(x: real)
    requires x > DecimalMax as real
    ensures !IsDecimal(x)
  {
    forall e: nat | e <= 28
      ensures !IsScaledInteger(x * ScaleFactor(e))
    {
      ScalingUpGrows(x, ScaleFactor(e));
    }
  }

  /** Scaling a magnitude beyond DecimalMax up keeps it beyond. */
  lemma ScalingUpGrows(x: real, p: real)
    requires x > DecimalMax as real && p >= 1.0
    ensures !IsScaledInteger(x * p)
  {
    assert x * p - x == x * (p - 1.0) >= 0.0;
  }

  /** One settled basket line as reported by the gateway. `decimal` amounts are
      exact rationals here; `DecimalItem` says they are `decimal` values. */
  datatype ItemTransaction = ItemTransaction(
    ItemId: Option<string>,
    PaymentTransactionId: Option<string>,
    TransactionStatus: Int32,
    Price: real,
    PaidPrice: real,
    MerchantCommissionRate: real,
    MerchantCommissionRateAmount: real,
    IyziCommissionRateAmount: real,
    IyziCommissionFee: real,
    MerchantPayoutAmount: real)

  /** The order's gateway metadata. String properties and the list are .NET
      references, so a deserialized record may hold null (`None`) in them. */
  datatype OrderData = OrderData(
    PaymentId: Option<string>,
    ConversationId: Option<string>,
    Token: Option<string>,
    BasketId: Option<string>,
    PaymentStatus: Option<string>,
    FraudStatus: Int32,
    CardType: Option<string>,
    CardAssociation: Option<string>,
    CardFamily: Option<string>,
    BinNumber: Option<string>,
    LastFourDigits: Option<string>,
    AuthCode: Option<string>,
    Phase: Option<string>,
    MdStatus: Int32,
    HostReference: Option<string>,
    ItemTransactions: Option<seq<ItemTransaction>>)

  ghost predicate DecimalItem(t: ItemTransaction) {
    && IsDecimal(t.Price) && IsDecimal(t.PaidPrice) && IsDecimal(t.MerchantCommissionRate)
    && IsDecimal(t.MerchantCommissionRateAmount) && IsDecimal(t.IyziCommissionRateAmount)
    && IsDecimal(t.IyziCommissionFee) && IsDecimal(t.MerchantPayoutAmount)
  }

  /** Every amount of every item transaction is a `decimal` value. */
  ghost predicate DecimalValued(d: OrderData) {
    d.ItemTransactions.Some? ==>
      forall i :: 0 <= i < |d.ItemTransactions.value| ==> DecimalItem(d.ItemTransactions.value[i])
  }

  /** Every string field is the empty string, every number zero, and the list
      of item transactions is present and empty. */
  predicate IsBlankItem(t: ItemTransaction) {
    && t.ItemId == Some("") && t.PaymentTransactionId == Some("")
    && t.TransactionStatus == 0 && t.Price == 0.0 && t.PaidPrice == 0.0
    && t.MerchantCommissionRate == 0.0 && t.MerchantCommissionRateAmount == 0.0
    && t.IyziCommissionRateAmount == 0.0 && t.IyziCommissionFee == 0.0
    && t.MerchantPayoutAmount == 0.0
  }

  predicate IsBlank(d: OrderData) {
    && d.PaymentId == Some("") && d.ConversationId == Some("") && d.Token == Some("")
    && d.BasketId == Some("") && d.PaymentStatus == Some("") && d.FraudStatus == 0
    && d.CardType == Some("") && d.CardAssociation == Some("") && d.CardFamily == Some("")
    && d.BinNumber == Some("") && d.LastFourDigits == Some("") && d.AuthCode == Some("")
    && d.Phase == Some("") && d.MdStatus == 0 && d.HostReference == Some("")
    && d.ItemTransactions == Some([])
  }

  /** `new IyzipayItemTransaction()`: the property initializers. */
  function NewItemTransaction(): (t: ItemTransaction)
    ensures IsBlankItem(t)
  {
    ItemTransaction(Some(""), Some(""), 0, 0.0, 0.0, 0.0, 0.0, 0.0, 0.0, 0.0)
  }

  /** `new IyzipayOrderData()`: the property initializers. */
  function NewOrderData(): (d: OrderData)
    ensures IsBlank(d)
  {
    OrderData(Some(""), Some(""), Some(""), Some(""), Some(""), 0, Some(""), Some(""),
      Some(""), Some(""), Some(""), Some(""), Some(""), 0, Some(""), Some([]))
  }

  /** Only one record is blank: the fresh one. */
  lemma BlankIsFresh(d: OrderData)
    ensures IsBlank(d) <==> d == NewOrderData()
  {
  }

  /** What `JsonSerializer.Deserialize<IyzipayOrderData>` makes of a text: it
      throws on malformed input, yields null for the JSON literal `null`, and
      otherwise a record. */
  datatype Decoded = Malformed | JsonNull | Decoded(data: OrderData)

  /** The serializer's two directions. */
  datatype JsonCodec = JsonCodec(serialize: OrderData -> string, deserialize: string -> Decoded)

  /** For every record whose amounts are `decimal` values, the serializer
      writes a non-empty text (an object) and reads back exactly what it
      wrote, item transactions in the same order. Such records are countably
      many (strings, 32-bit integers and `decimal`s), so a text encoding
      can meet this. */
  ghost predicate Lawful(codec: JsonCodec) {
    forall d: OrderData {:trigger codec.serialize(d)} | DecimalValued(d) ::
      codec.deserialize(codec.serialize(d)) == Decoded(d) && codec.serialize(d) != ""
  }

  /** `ToJson`: a lawful serializer writes a non-empty text that reads back
      as the record. */
  function ToJson(codec: JsonCodec, d: OrderData): (json: string)
    ensures Lawful(codec) && DecimalValued(d) ==> json != "" && codec.deserialize(json) == Decoded(d)
  {
    codec.serialize(d)
  }

  /** `FromJson`: never fails; a null or empty text, a malformed text and the
      text `null` all give the fresh record. */
  function FromJson(codec: JsonCodec, json: Option<string>): (d: OrderData)
    ensures IsNullOrEmpty(json) ==> IsBlank(d)
    ensures !IsNullOrEmpty(json) && !codec.deserialize(json.value).Decoded? ==> IsBlank(d)
  {
    if IsNullOrEmpty(json) then NewOrderData()
    else match codec.deserialize(json.value)
      case Decoded(d) => d
      case _ => NewOrderData()
  }

  /** What is written is read back unchanged. */
  lemma FromJsonToJson(codec: JsonCodec, d: OrderData)
    requires Lawful(codec) && DecimalValued(d)
    ensures FromJson(codec, Some(ToJson(codec, d))) == d
  {
    assert codec.deserialize(codec.serialize(d)) == Decoded(d);
  }

  /** Hence writing is injective: two records with the same text are equal. */
  lemma ToJsonInjective(codec: JsonCodec, a: OrderData, b: OrderData)
    requires Lawful(codec) && DecimalValued(a) && DecimalValued(b)
    requires ToJson(codec, a) == ToJson(codec, b)
    ensures a == b
  {
    FromJsonToJson(codec, a);
    FromJsonToJson(codec, b);
  }
}

# iyzico checkout-form payment plugin for nopCommerce, modelled in Dafny

This project models the payment reconciliation core of the iyzico payment
plugin for nopCommerce. It covers:

- The **checkout-form service** builds the create-checkout-form request
  from the shopper's cart. It turns the gateway's answer into a
  `CheckoutFormInitializeResult`, sends guarded refund and cancel requests
  (cancel only within 24 hours), and retrieves a completed checkout form.
- The **payment processor** maps the checkout-form service's outcomes onto
  nopCommerce's payment results (ProcessPayment, Refund, Void). It also
  reconciles the shopper's return:
  - **confirmation** places a missing order from the cart, settles it
    (Paid, Complete, transaction ids), and adds an installment-fee order
    line when the paid price exceeds the order total;
  - **callback** settles an existing order only.
- The **webhook service** handles gateway notifications. A signed
  notification is checked against a lower-case hexadecimal HMAC-SHA256 of
  the secret key and five fields. An unsigned one needs a token. The
  notification's status then overwrites the order's payment and order
  status.
- The **order-data service** stores the gateway metadata of an order as
  JSON in the order's `CustomOrderNumber` field. It reads that JSON back
  (an empty record on any problem) and projects a retrieve response
  property by property.
- The **data mapper** builds the buyer, the basket items and the addresses
  of a checkout request. The **payment-info validator** registers the four
  e-mail and phone rules.

The persisted orders are a class `Orders.OrderStore`: a map from order
GUID to `Order` value plus the order-item table. The methods that change
orders take the store and state its whole new state, through a pure
function of the old state (`ConfirmEffect`, `CallbackEffect`,
`ApplyStatus`, `FeeEffect`). The properties are proved about those
functions.

Code the plugin calls but does not define is a parameter:

- HMAC-SHA256 and UTF-8;
- the JSON serializer, with a `Lawful` hypothesis that deserializing a
  serialized record gives it back whenever its amounts are `decimal`
  values (`DecimalValued`);
- `decimal.TryParse`, "F2" and date formatting;
- the FluentValidation e-mail and phone checks;
- the gateway SDK's four calls, each of which may throw;
- `PlaceOrderAsync`, which reports the placed order and the lines it made
  from the cart;
- the clock, as ticks.

Exceptions are `Result` values, and nullable strings are `Option<string>`.

Behaviours of the code worth knowing:

- The confirmation does not refuse an empty token itself; the token goes
  to the gateway's retrieve call as it is.
- The fee line's product id falls back to 1 when the order has no lines.
  It is not always an existing product of the order.
- The webhook gives a paid order the configured "after payment" status,
  not `Complete`. So the webhook and the confirmation do not converge on
  one state.
- The delivered webhook signature is lower-cased before the comparison.
  An upper-case signature is therefore accepted.
- A replayed confirmation whose fee step completed adds no second fee.
  The stored total already equals the paid price.
- The webhook receives an already decoded dictionary. No
  "malformed payload" outcome exists.

## Model

| member | source | states |
|---|---|---|
| Text.OrEmpty | Iyzipay/nopCommerce-4.80/Nop.Plugin.Payments.Iyzipay/Services/IyzipayWebhookService.cs:82-86 | `?? string.Empty` keeps a present value and gives "" for null; the result is "" exactly when the input is null or empty |
| Text.Trim | Iyzipay/nopCommerce-4.80/Nop.Plugin.Payments.Iyzipay/Services/IyzipayDataMapper.cs:104 | the trimmed text is no longer than the input and neither of its ends is white space |
| Text.TrimIsSlice | Iyzipay/nopCommerce-4.80/Nop.Plugin.Payments.Iyzipay/Services/IyzipayDataMapper.cs:104 | the trimmed text is a slice of the input with only white space cut off on either side |
| Text.TrimFixedPoints | Iyzipay/nopCommerce-4.80/Nop.Plugin.Payments.Iyzipay/Services/IyzipayDataMapper.cs:123 | all-white-space text trims to ""; text with non-blank ends is its own trim |
| Text.ToLower | Iyzipay/nopCommerce-4.80/Nop.Plugin.Payments.Iyzipay/Services/IyzipayWebhookService.cs:95 | same length, each character lower-cased on its own |
| Text.ToUpper | Iyzipay/nopCommerce-4.80/Nop.Plugin.Payments.Iyzipay/Services/IyzipayWebhookService.cs:95 | same length; used to state that the delivered case does not matter |
| Text.ToLowerIdempotent | Iyzipay/nopCommerce-4.80/Nop.Plugin.Payments.Iyzipay/Services/IyzipayWebhookService.cs:195 | lower-casing twice is lower-casing once |
| Text.ToLowerFixed | Iyzipay/nopCommerce-4.80/Nop.Plugin.Payments.Iyzipay/Services/IyzipayWebhookService.cs:195 | text without capitals is its own lower-case form |
| Text.ToLowerOfToUpper | Iyzipay/nopCommerce-4.80/Nop.Plugin.Payments.Iyzipay/Services/IyzipayWebhookService.cs:95 | upper- then lower-casing gives back text that had no capitals |
| Text.ToLowerForgetsCase | Iyzipay/nopCommerce-4.80/Nop.Plugin.Payments.Iyzipay/Services/IyzipayWebhookService.cs:95 | lower-casing the upper-cased text equals lower-casing the text |
| Text.NatToString | Iyzipay/nopCommerce-4.80/Nop.Plugin.Payments.Iyzipay/Services/IyzipayDataMapper.cs:52 | non-empty, only decimal digits, no leading zero |
| Text.IntToString | Iyzipay/nopCommerce-4.80/Nop.Plugin.Payments.Iyzipay/Services/IyzipayDataMapper.cs:85 | `int.ToString()` is never empty |
| Text.NatToStringRoundTrip | Iyzipay/nopCommerce-4.80/Nop.Plugin.Payments.Iyzipay/Services/IyzipayDataMapper.cs:52 | reading the printed digits gives the number back |
| Text.NatToStringInjective | Iyzipay/nopCommerce-4.80/Nop.Plugin.Payments.Iyzipay/Services/IyzipayDataMapper.cs:52 | distinct naturals print differently |
| Text.IntToStringInjective | Iyzipay/nopCommerce-4.80/Nop.Plugin.Payments.Iyzipay/Services/IyzipayDataMapper.cs:85 | distinct integers (negative ones included) print differently |
| HexEncoding.HexValue | Iyzipay/nopCommerce-4.80/Nop.Plugin.Payments.Iyzipay/Services/IyzipayWebhookService.cs:195 | a character has a hexadecimal value exactly when it is a digit of either case |
| HexEncoding.HexValueOfDigit | Iyzipay/nopCommerce-4.80/Nop.Plugin.Payments.Iyzipay/Services/IyzipayWebhookService.cs:195 | a printed digit of either case reads back as its value; lower-casing an upper-case digit gives the lower-case digit |
| HexEncoding.RemoveDashes | Iyzipay/nopCommerce-4.80/Nop.Plugin.Payments.Iyzipay/Services/IyzipayWebhookService.cs:195 | `Replace("-", "")` leaves no dash |
| HexEncoding.PrintMac | Iyzipay/nopCommerce-4.80/Nop.Plugin.Payments.Iyzipay/Services/IyzipayWebhookService.cs:195 | the printed MAC holds no dash and no upper-case letter |
| HexEncoding.PrintMacIsLowerHex | Iyzipay/nopCommerce-4.80/Nop.Plugin.Payments.Iyzipay/Services/IyzipayWebhookService.cs:187-197 | `BitConverter.ToString`, then remove dashes, then `ToLower` is exactly two lower-case hexadecimal digits per MAC byte |
| HexEncoding.LowerHexShape | Iyzipay/nopCommerce-4.80/Nop.Plugin.Payments.Iyzipay/Services/IyzipayWebhookService.cs:195 | the printed MAC has two characters per byte, all lower-case hexadecimal digits |
| HexEncoding.HexRoundTrip | Iyzipay/nopCommerce-4.80/Nop.Plugin.Payments.Iyzipay/Services/IyzipayWebhookService.cs:195 | decoding the printed MAC gives the MAC bytes back, so printing loses nothing |
| HexEncoding.SignatureIgnoresCase | Iyzipay/nopCommerce-4.80/Nop.Plugin.Payments.Iyzipay/Services/IyzipayWebhookService.cs:92-95 | a signature matches in lower or upper case, matches exactly when its lower-case form does, and a matching signature decodes to the MAC |
| Guids.Digits | Nop.Plugin.Payments.Iyzipay/Services/IyzipayCheckoutFormService.cs:101 | 32 lower-case hexadecimal digits, one per nibble, in order |
| Guids.CharIndex | Nop.Plugin.Payments.Iyzipay/Services/IyzipayCheckoutFormService.cs:101 | the j-th digit stands at a non-dash position of the 36-character form |
| Guids.DigitIndex | Nop.Plugin.Payments.Iyzipay/Services/IyzipayCheckoutFormService.cs:101 | inverse of CharIndex on the non-dash positions |
| Guids.GuidToString | Nop.Plugin.Payments.Iyzipay/Services/IyzipayCheckoutFormService.cs:101-105 | `Guid.ToString()`: 36 characters, dashes at 8, 13, 18 and 23, each nibble's lower-case digit in its place |
| Guids.ParseDigits | Nop.Plugin.Payments.Iyzipay/IyzipayPaymentProcessor.cs:448 | 32 characters parse exactly when every one is a hexadecimal digit |
| Guids.TryParse | Nop.Plugin.Payments.Iyzipay/IyzipayPaymentProcessor.cs:448 | a null text is no GUID; a parsed one came from 32, 36 or 38 characters once white space is trimmed |
| Guids.PrintedIsTrimmed | Nop.Plugin.Payments.Iyzipay/IyzipayPaymentProcessor.cs:448 | a printed GUID has no surrounding white space |
| Guids.ParseDashedPrinted | Nop.Plugin.Payments.Iyzipay/IyzipayPaymentProcessor.cs:448 | the "D" parser reads a printed GUID back |
| Guids.ParsePrinted | Nop.Plugin.Payments.Iyzipay/IyzipayPaymentProcessor.cs:448 | `Guid.TryParse` of the basket id the checkout request sent gives the order GUID back |
| Guids.GuidToStringInjective | Nop.Plugin.Payments.Iyzipay/Services/IyzipayCheckoutFormService.cs:101-105 | distinct orders get distinct conversation and basket ids |
| Guids.BlankIsNotGuid | Nop.Plugin.Payments.Iyzipay/IyzipayPaymentProcessor.cs:448-452 | an empty or white-space basket id is not a GUID |
| Orders.OrderStatusFromCode | Iyzipay/nopCommerce-4.80/Nop.Plugin.Payments.Iyzipay/Services/IyzipayWebhookService.cs:167 | the cast `(OrderStatus)code` gives a named status exactly for 10, 20, 30 and 40 |
| Orders.ItemsOf | Nop.Plugin.Payments.Iyzipay/IyzipayPaymentProcessor.cs:535 | `GetOrderItemsAsync`: only lines of that order, from the table, and every stored line of it |
| Orders.ItemsOfConcat | Nop.Plugin.Payments.Iyzipay/IyzipayPaymentProcessor.cs:535-536 | the lines of an order in a table extended by more lines are its old lines followed by its lines among the new ones, in insertion order |
| Orders.ItemsOfFirstLine | Nop.Plugin.Payments.Iyzipay/IyzipayPaymentProcessor.cs:535-536 | `FirstOrDefault()` is the earliest stored line of the order |
| Orders.OrderStore.constructor | Nop.Plugin.Payments.Iyzipay/IyzipayPaymentProcessor.cs:454 | a store holds the given orders, each under its own GUID, and the given lines |
| Orders.OrderStore.Find | Nop.Plugin.Payments.Iyzipay/IyzipayPaymentProcessor.cs:454 | `GetOrderByGuidAsync`: the order exactly when one is stored under the GUID, and it carries that GUID |
| Orders.OrderStore.UpdateOrder | Nop.Plugin.Payments.Iyzipay/IyzipayPaymentProcessor.cs:496 | `UpdateOrderAsync` replaces the order under its GUID and nothing else |
| Orders.OrderStore.InsertPlacedOrder | Nop.Plugin.Payments.Iyzipay/IyzipayPaymentProcessor.cs:476 | placement stores the order under its GUID and appends the lines made for it |
| Orders.OrderStore.InsertOrderItem | Nop.Plugin.Payments.Iyzipay/IyzipayPaymentProcessor.cs:553 | `InsertOrderItemAsync` appends the line and changes no order |
| IyzipayConfigurationService.GetOptions | Iyzipay/nopCommerce-4.80/Nop.Plugin.Payments.Iyzipay/Services/IyzipayConfigurationService.cs:31-39 | the gateway credentials are the configured API key, secret key and base URL |
| IyzipayConfigurationService.GetLocale | Iyzipay/nopCommerce-4.80/Nop.Plugin.Payments.Iyzipay/Services/IyzipayConfigurationService.cs:45-54 | the locale is "en" or "tr", and "en" exactly when the form language is "en" ("auto" and anything else give "tr") |
| IyzipayOrderData.NewItemTransaction | Iyzipay/nopCommerce-4.80/Nop.Plugin.Payments.Iyzipay/Models/IyzipayItemTransaction.cs:11-16 | a fresh item transaction is blank: empty strings, zero numbers |
| IyzipayOrderData.NewOrderData | Iyzipay/nopCommerce-4.80/Nop.Plugin.Payments.Iyzipay/Models/IyzipayOrderData.cs:14-89 | a fresh record is blank: empty strings, zero numbers, an empty item list |
| IyzipayOrderData.CentsAreDecimal | Iyzipay/nopCommerce-4.80/Nop.Plugin.Payments.Iyzipay/Models/IyzipayItemTransaction.cs:26-31 | every in-range amount with two decimals is a `decimal` value |
| IyzipayOrderData.BeyondRangeIsNotDecimal | Iyzipay/nopCommerce-4.80/Nop.Plugin.Payments.Iyzipay/Models/IyzipayItemTransaction.cs:26-31 | a magnitude beyond 2^96 - 1 is no `decimal` value at any scale |
| IyzipayOrderData.BlankIsFresh | Iyzipay/nopCommerce-4.80/Nop.Plugin.Payments.Iyzipay/Models/IyzipayOrderData.cs:14-89 | a record is blank exactly when it is the fresh one |
| IyzipayOrderData.FromJson | Iyzipay/nopCommerce-4.80/Nop.Plugin.Payments.Iyzipay/Models/IyzipayOrderData.cs:105-118 | a null, empty or malformed text, or one that decodes to null, reads as the blank record; it never fails |
| IyzipayOrderData.ToJson | Iyzipay/nopCommerce-4.80/Nop.Plugin.Payments.Iyzipay/Models/IyzipayOrderData.cs:95-98 | a lawful serializer writes, for a record with `decimal` amounts, a non-empty text that reads back as the record |
| IyzipayOrderData.FromJsonToJson | Iyzipay/nopCommerce-4.80/Nop.Plugin.Payments.Iyzipay/Models/IyzipayOrderData.cs:95-118 | reading back what `ToJson` wrote gives the record, for every record whose amounts are `decimal` values |
| IyzipayOrderData.ToJsonInjective | Iyzipay/nopCommerce-4.80/Nop.Plugin.Payments.Iyzipay/Models/IyzipayOrderData.cs:95-98 | two records with `decimal` amounts and the same JSON are equal |
| JsonElement.GetStringOrEmpty | Nop.Plugin.Payments.Iyzipay/Services/IyzipayOrderDataService.cs:89 | `GetString() ?? string.Empty`: the string, "" for JSON null, an exception for any other kind |
| JsonElement.GetInt32 | Nop.Plugin.Payments.Iyzipay/Services/IyzipayOrderDataService.cs:104 | succeeds exactly on an integer within the range of `int`, and returns it |
| JsonElement.GetDecimal | Nop.Plugin.Payments.Iyzipay/Services/IyzipayOrderDataService.cs:150 | succeeds exactly on a number within the range of `decimal`, and returns its value |
| IyzipayOrderDataService.GetIyzipayDataFromOrder | Nop.Plugin.Payments.Iyzipay/Services/IyzipayOrderDataService.cs:56-69 | an order without metadata or with unreadable metadata gives the blank record |
| IyzipayOrderDataService.SaveThenRead | Nop.Plugin.Payments.Iyzipay/Services/IyzipayOrderDataService.cs:37-69 | metadata with `decimal` amounts saved into an order is what a later read of it returns |
| IyzipayOrderDataService.SaveIyzipayDataToOrder | Nop.Plugin.Payments.Iyzipay/Services/IyzipayOrderDataService.cs:37-49 | the order carries the JSON in `CustomOrderNumber`; it is stored unless the update throws (then nothing changes); reading it back gives the data when its amounts are `decimal` values |
| IyzipayOrderDataService.Project | Nop.Plugin.Payments.Iyzipay/Services/IyzipayOrderDataService.cs:81-172 | a response that is not an object throws; an empty object gives the fresh record |
| IyzipayOrderDataService.ProjectItemsShape | Nop.Plugin.Payments.Iyzipay/Services/IyzipayOrderDataService.cs:134-172 | the array converts exactly when every element does, one item per element, in order |
| IyzipayOrderDataService.ProjectItemsPrefixFails | Nop.Plugin.Payments.Iyzipay/Services/IyzipayOrderDataService.cs:136-170 | an element that throws aborts the whole list |
| IyzipayOrderDataService.ProjectCopiesPresentKeys | Nop.Plugin.Payments.Iyzipay/Services/IyzipayOrderDataService.cs:88-131 | a string or int property is copied when its key is present and stays "" or 0 when it is absent |
| IyzipayOrderDataService.ProjectCopiesItems | Nop.Plugin.Payments.Iyzipay/Services/IyzipayOrderDataService.cs:134-172 | the item list follows `itemTransactions` when it is an array and stays empty otherwise |
| IyzipayOrderDataService.ProjectFailsIff | Nop.Plugin.Payments.Iyzipay/Services/IyzipayOrderDataService.cs:84-172 | the projection throws exactly when the response is not an object or a present property has the wrong kind or range |
| IyzipayOrderDataService.ReadItemTransaction | Nop.Plugin.Payments.Iyzipay/Services/IyzipayOrderDataService.cs:138-168 | the property-by-property reading of one item computes the item projection |
| IyzipayOrderDataService.ReadItemTransactions | Nop.Plugin.Payments.Iyzipay/Services/IyzipayOrderDataService.cs:134-172 | the `foreach` computes the list projection, failing on the first bad element |
| IyzipayOrderDataService.ReadRetrieveResponse | Nop.Plugin.Payments.Iyzipay/Services/IyzipayOrderDataService.cs:81-172 | reading the response property by property, stopping at the first read that throws, gives exactly the record `Project` describes |
| IyzipayOrderDataService.UpdateIyzipayDataFromRetrieve | Nop.Plugin.Payments.Iyzipay/Services/IyzipayOrderDataService.cs:76-180 | a failed projection changes nothing; otherwise the projected record is saved into the order, and it reads back unchanged when its amounts are `decimal` values |
| IyzipayWebhookService.Get | Iyzipay/nopCommerce-4.80/Nop.Plugin.Payments.Iyzipay/Services/IyzipayWebhookService.cs:82-86 | the dictionary read succeeds exactly for a present key and otherwise throws `KeyNotFoundException` |
| IyzipayWebhookService.CalculateHmacSha256 | Iyzipay/nopCommerce-4.80/Nop.Plugin.Payments.Iyzipay/Services/IyzipayWebhookService.cs:187-197 | the computed signature is the lower-case hexadecimal text of the MAC of the data under the key |
| IyzipayWebhookService.Outcome | Iyzipay/nopCommerce-4.80/Nop.Plugin.Payments.Iyzipay/Services/IyzipayWebhookService.cs:96-110 | success exactly when the notification is applied; a rejection carries its message |
| IyzipayWebhookService.SetStatus | Iyzipay/nopCommerce-4.80/Nop.Plugin.Payments.Iyzipay/Services/IyzipayWebhookService.cs:163-174 | "SUCCESS" gives Paid with the configured status; anything else gives Voided and Cancelled; no other field changes |
| IyzipayWebhookService.HmacDecision | Iyzipay/nopCommerce-4.80/Nop.Plugin.Payments.Iyzipay/Services/IyzipayWebhookService.cs:75-100 | the signed branch throws exactly when one of the five fields is missing; it otherwise rejects only with "Invalid signature", and an accepted notification always names a (possibly empty) conversation id; the signed text is `MacInput` |
| IyzipayWebhookService.RetrieveDecision | Iyzipay/nopCommerce-4.80/Nop.Plugin.Payments.Iyzipay/Services/IyzipayWebhookService.cs:120-139 | the unsigned branch throws exactly on a missing token or conversation id key, or a missing status key after a non-empty token; it rejects only with "Missing required parameters" and applies only with a non-empty token and the delivered conversation id |
| IyzipayWebhookService.ApplyStatus | Iyzipay/nopCommerce-4.80/Nop.Plugin.Payments.Iyzipay/Services/IyzipayWebhookService.cs:155-179 | the same orders stay stored, and every order but the one the conversation id names is unchanged |
| IyzipayWebhookService.SignatureSelectsBranch | Iyzipay/nopCommerce-4.80/Nop.Plugin.Payments.Iyzipay/Services/IyzipayWebhookService.cs:49-58 | without a signature no MAC matters; an applied signed notification has all five keys and a signature matching the MAC of the secret key and the five fields |
| IyzipayWebhookService.NullFieldIsEmpty | Iyzipay/nopCommerce-4.80/Nop.Plugin.Payments.Iyzipay/Services/IyzipayWebhookService.cs:82-89 | in the signed branch a null field hashes as "" |
| IyzipayWebhookService.DeliveredCaseIgnored | Iyzipay/nopCommerce-4.80/Nop.Plugin.Payments.Iyzipay/Services/IyzipayWebhookService.cs:95 | upper- or lower-casing the delivered signature does not change the decision |
| IyzipayWebhookService.InvalidSignatureRejected | Iyzipay/nopCommerce-4.80/Nop.Plugin.Payments.Iyzipay/Services/IyzipayWebhookService.cs:95-100 | a signature that does not match is rejected with "Invalid signature" |
| IyzipayWebhookService.HmacMissingKeyRejected | Iyzipay/nopCommerce-4.80/Nop.Plugin.Payments.Iyzipay/Services/IyzipayWebhookService.cs:82-86 | the first missing field is reported with the dictionary's exception message |
| IyzipayWebhookService.RetrieveBranchOutcomes | Iyzipay/nopCommerce-4.80/Nop.Plugin.Payments.Iyzipay/Services/IyzipayWebhookService.cs:126-139 | a missing token or conversation key throws; an empty token gives "Missing required parameters"; otherwise the status (null as "FAILURE") is applied |
| IyzipayWebhookService.RejectedChangesNothing | Iyzipay/nopCommerce-4.80/Nop.Plugin.Payments.Iyzipay/Services/IyzipayWebhookService.cs:95-100 | a rejected notification leaves every order as it was |
| IyzipayWebhookService.UnmatchedChangesNothing | Iyzipay/nopCommerce-4.80/Nop.Plugin.Payments.Iyzipay/Services/IyzipayWebhookService.cs:157-161 | an unparsable or unknown conversation id changes nothing, and the notification still succeeds |
| IyzipayWebhookService.ApplyStatusFrame | Iyzipay/nopCommerce-4.80/Nop.Plugin.Payments.Iyzipay/Services/IyzipayWebhookService.cs:155-179 | only the named order changes, only in its two status fields, and no order appears or disappears |
| IyzipayWebhookService.ApplyStatusIdempotent | Iyzipay/nopCommerce-4.80/Nop.Plugin.Payments.Iyzipay/Services/IyzipayWebhookService.cs:155-179 | applying a status twice is applying it once |
| IyzipayWebhookService.WebhookIdempotent | Iyzipay/nopCommerce-4.80/Nop.Plugin.Payments.Iyzipay/Services/IyzipayWebhookService.cs:43-179 | delivering the same notification twice leaves the orders as one delivery does |
| IyzipayWebhookService.NonSuccessStatusesAgree | Iyzipay/nopCommerce-4.80/Nop.Plugin.Payments.Iyzipay/Services/IyzipayWebhookService.cs:163-174 | every status other than exactly "SUCCESS" has the same effect |
| IyzipayWebhookService.UpdateOrderStatus | Iyzipay/nopCommerce-4.80/Nop.Plugin.Payments.Iyzipay/Services/IyzipayWebhookService.cs:155-179 | the store's orders become ApplyStatus of the old ones; the lines do not change |
| IyzipayWebhookService.ProcessWebhookWithHmac | Iyzipay/nopCommerce-4.80/Nop.Plugin.Payments.Iyzipay/Services/IyzipayWebhookService.cs:75-113 | the result and the new orders are those of the signed decision |
| IyzipayWebhookService.ProcessWebhookWithRetrieve | Iyzipay/nopCommerce-4.80/Nop.Plugin.Payments.Iyzipay/Services/IyzipayWebhookService.cs:120-148 | the result and the new orders are those of the unsigned decision |
| IyzipayWebhookService.ProcessWebhook | Iyzipay/nopCommerce-4.80/Nop.Plugin.Payments.Iyzipay/Services/IyzipayWebhookService.cs:43-67 | a non-empty signature selects the signed branch; the result and the new orders are those of the decision; `Decide` is that choice of branch |
| IyzipayDataMapper.CreateBuyerFromCustomer | Iyzipay/nopCommerce-4.80/Nop.Plugin.Payments.Iyzipay/Services/IyzipayDataMapper.cs:48-65 | each buyer field is the customer's value, or its placeholder when null; the fixed identity and address fields; the login date falls back to now |
| IyzipayDataMapper.BuyerPlaceholders | Iyzipay/nopCommerce-4.80/Nop.Plugin.Payments.Iyzipay/Services/IyzipayDataMapper.cs:52-56 | an empty name or e-mail passes through unreplaced; only null gets a placeholder; distinct customers get distinct buyer ids |
| IyzipayDataMapper.BasketItemFor | Iyzipay/nopCommerce-4.80/Nop.Plugin.Payments.Iyzipay/Services/IyzipayDataMapper.cs:78-91 | a basket item carries the product id, its name or "Ürün", the fixed categories and the formatted unit price times quantity |
| IyzipayDataMapper.CreateBasketItemsFromCart | Iyzipay/nopCommerce-4.80/Nop.Plugin.Payments.Iyzipay/Services/IyzipayDataMapper.cs:72-95 | one basket item per cart line, in cart order |
| IyzipayDataMapper.BasketIdsIdentifyProducts | Iyzipay/nopCommerce-4.80/Nop.Plugin.Payments.Iyzipay/Services/IyzipayDataMapper.cs:85 | two basket items share an id exactly when their lines are for the same product |
| IyzipayDataMapper.ContactName | Iyzipay/nopCommerce-4.80/Nop.Plugin.Payments.Iyzipay/Services/IyzipayDataMapper.cs:104 | the contact name has no white space at either end |
| IyzipayDataMapper.ContactNameJoinsNames | Iyzipay/nopCommerce-4.80/Nop.Plugin.Payments.Iyzipay/Services/IyzipayDataMapper.cs:104 | names without surrounding white space are joined by one space; two missing names give "" |
| IyzipayDataMapper.CreateShippingAddressFromCustomer | Iyzipay/nopCommerce-4.80/Nop.Plugin.Payments.Iyzipay/Services/IyzipayDataMapper.cs:102-114 | the contact name and the fixed Istanbul address described as "Teslimat adresi" |
| IyzipayDataMapper.CreateBillingAddressFromCustomer | Iyzipay/nopCommerce-4.80/Nop.Plugin.Payments.Iyzipay/Services/IyzipayDataMapper.cs:121-133 | the contact name and the fixed Istanbul address described as "Fatura adresi" |
| IyzipayDataMapper.AddressesDifferOnlyInDescription | Iyzipay/nopCommerce-4.80/Nop.Plugin.Payments.Iyzipay/Services/IyzipayDataMapper.cs:102-133 | the shipping and billing addresses differ in their description only |
| Validators.Failures | Iyzipay/nopCommerce-4.80/Payments.Iyzipay/Validators/PaymentInfoValidator.cs:35-50 | the failing rules are exactly the registered rules that do not hold |
| Validators.PaymentInfoValidator.constructor | Iyzipay/nopCommerce-4.80/Payments.Iyzipay/Validators/PaymentInfoValidator.cs:35-50 | the four rules in registration order, each with its message key |
| Validators.PaymentInfoValidator.Validate | Iyzipay/nopCommerce-4.80/Payments.Iyzipay/Validators/PaymentInfoValidator.cs:35-50 | a message key is reported exactly when some rule with that key fails |
| Validators.PaymentInfoValidator.GetCustomerInfo | Iyzipay/nopCommerce-4.80/Payments.Iyzipay/Validators/PaymentInfoValidator.cs:57-91 | no customer gives "" and ""; a guest's values come from an existing billing address; a registered customer's come from the customer; null becomes "" |
| Validators.RequiredRules | Iyzipay/nopCommerce-4.80/Payments.Iyzipay/Validators/PaymentInfoValidator.cs:35-50 | each of the four keys is reported exactly when its check fails, independently of the others |
| Validators.MissingContactFailsRequired | Iyzipay/nopCommerce-4.80/Payments.Iyzipay/Validators/PaymentInfoValidator.cs:57-78 | no customer, or a guest without a billing address, fails both required rules |
| IyzipayCheckoutFormService.FailedResult | Nop.Plugin.Payments.Iyzipay/Services/IyzipayCheckoutFormService.cs:141-150 | a failure sets Message and ErrorMessage to the same text |
| IyzipayCheckoutFormService.InstallmentRange | Nop.Plugin.Payments.Iyzipay/Services/IyzipayCheckoutFormService.cs:112-116 | the i-th installment offered is i + 1, and none are offered when the maximum is below 1 |
| IyzipayCheckoutFormService.InstallmentRangeIsOneToMax | Nop.Plugin.Payments.Iyzipay/Services/IyzipayCheckoutFormService.cs:112-116 | the list holds exactly 1 to the maximum, strictly ascending |
| IyzipayCheckoutFormService.BuildInstallments | Nop.Plugin.Payments.Iyzipay/Services/IyzipayCheckoutFormService.cs:112-117 | the loop builds exactly the installment range |
| IyzipayCheckoutFormService.CheckoutRequest | Nop.Plugin.Payments.Iyzipay/Services/IyzipayCheckoutFormService.cs:92-123 | conversation and basket id are the printed order GUID; both prices are the cart total (0 when unknown) in "F2"; installments are offered exactly when enabled; one basket item per cart line |
| IyzipayCheckoutFormService.InitializeResult | Nop.Plugin.Payments.Iyzipay/Services/IyzipayCheckoutFormService.cs:125-151 | "success" exactly when the gateway reports success, copying content, page URL (never the iframe variant) and token; otherwise "failure" with equal messages |
| IyzipayCheckoutFormService.CreateCheckoutForm | Nop.Plugin.Payments.Iyzipay/Services/IyzipayCheckoutFormService.cs:75-154 | an empty cart fails with "Sepet boş" and sends nothing; otherwise the checkout request is sent and the answer mapped by InitializeResult |
| IyzipayCheckoutFormService.ResolvePaymentId | Nop.Plugin.Payments.Iyzipay/Services/IyzipayCheckoutFormService.cs:167-178 | a payment id is found, and non-empty, exactly when the metadata or the authorization transaction id has one |
| IyzipayCheckoutFormService.ResolvePaymentIdSources | Nop.Plugin.Payments.Iyzipay/Services/IyzipayCheckoutFormService.cs:167-173 | a saved metadata payment id wins; an order without metadata falls back on its authorization transaction id |
| IyzipayCheckoutFormService.GatewayOutcome | Nop.Plugin.Payments.Iyzipay/Services/IyzipayCheckoutFormService.cs:189-203 | success exactly when the gateway says so, with ""; otherwise the gateway's message or the exception's, each with its prefix |
| IyzipayCheckoutFormService.RefundOutcome | Nop.Plugin.Payments.Iyzipay/Services/IyzipayCheckoutFormService.cs:162-204 | a refund succeeds exactly when a payment id is found and the gateway accepts the refund request for it |
| IyzipayCheckoutFormService.VoidOutcome | Nop.Plugin.Payments.Iyzipay/Services/IyzipayCheckoutFormService.cs:211-260 | a cancel succeeds exactly when the order is at most 24 hours old, a payment id is found and the gateway accepts |
| IyzipayCheckoutFormService.VoidWindowComesFirst | Nop.Plugin.Payments.Iyzipay/Services/IyzipayCheckoutFormService.cs:215-219 | an order older than 24 hours is refused whatever its metadata and the gateway |
| IyzipayCheckoutFormService.RefundPayment | Nop.Plugin.Payments.Iyzipay/Services/IyzipayCheckoutFormService.cs:162-204 | no request without a payment id; otherwise the refund request sent and the outcome of its answer |
| IyzipayCheckoutFormService.VoidPayment | Nop.Plugin.Payments.Iyzipay/Services/IyzipayCheckoutFormService.cs:211-260 | no request for an old order or without a payment id; otherwise the cancel request sent and the outcome of its answer |
| IyzipayCheckoutFormService.RetrievePayment | Nop.Plugin.Payments.Iyzipay/Services/IyzipayCheckoutFormService.cs:267-285 | the gateway's answer for the token, or its exception rethrown with the "Retrieve payment error: " prefix |
| IyzipayPaymentProcessor.NormalizePaidPrice | Nop.Plugin.Payments.Iyzipay/IyzipayPaymentProcessor.cs:431-446 | unparsable is 0; above 1000000 the value is divided by 100000; otherwise it is kept |
| IyzipayPaymentProcessor.PaidPriceThreshold | Nop.Plugin.Payments.Iyzipay/IyzipayPaymentProcessor.cs:434 | 1000000 is kept, while every price above it up to 100000000000 is scaled below itself and below what 1000000 gives, so the normalisation is not monotone |
| IyzipayPaymentProcessor.Settled | Nop.Plugin.Payments.Iyzipay/IyzipayPaymentProcessor.cs:487-494 | Paid, Complete, paid now, payment id and auth code as both authorization and capture; identity and total unchanged |
| IyzipayPaymentProcessor.SettledIdempotent | Nop.Plugin.Payments.Iyzipay/IyzipayPaymentProcessor.cs:487-494 | settling twice with the same report is settling once, at the later time |
| IyzipayPaymentProcessor.FeeEffect | Nop.Plugin.Payments.Iyzipay/IyzipayPaymentProcessor.cs:531-561 | a failed fee step changes no order; one failing on the read or insert adds no line; the lines only ever grow by one line at the end; the line is `FeeItem`, with `FirstProductId` and `FeeDescription`, and the step runs when `FeeApplies` holds |
| IyzipayPaymentProcessor.FeeStepShape | Nop.Plugin.Payments.Iyzipay/IyzipayPaymentProcessor.cs:531-556 | a completed fee step appends one quantity-1 line priced at the fee, on the first line's product id or 1, and raises the total by the fee |
| IyzipayPaymentProcessor.AddInstallmentFee | Nop.Plugin.Payments.Iyzipay/IyzipayPaymentProcessor.cs:531-561 | the store becomes FeeEffect: nothing when the read or the insert throws, only the line when the update throws |
| IyzipayPaymentProcessor.OrderFor | Nop.Plugin.Payments.Iyzipay/IyzipayPaymentProcessor.cs:454-484 | the order found carries the basket GUID or is stored under it |
| IyzipayPaymentProcessor.ConfirmResult | Nop.Plugin.Payments.Iyzipay/IyzipayPaymentProcessor.cs:407-423 | success exactly when confirmed, with the order id and payment id; otherwise a failure with the message; the decision it reports is `Confirm`, through `ConfirmForm` and `OrderFor`, whose cases ConfirmationRejections and ConfirmationPlacement state |
| IyzipayPaymentProcessor.ConfirmEffect | Nop.Plugin.Payments.Iyzipay/IyzipayPaymentProcessor.cs:454-508 | a rejected confirmation changes nothing; a confirmed one stores its order Paid, Complete and paid now, and keeps the old lines followed by the placed ones |
| IyzipayPaymentProcessor.ProcessConfirmation | Nop.Plugin.Payments.Iyzipay/IyzipayPaymentProcessor.cs:405-521 | the result is ConfirmResult of the decision on the retrieved form, and the store becomes ConfirmEffect of it |
| IyzipayPaymentProcessor.SettleConfirmed | Nop.Plugin.Payments.Iyzipay/IyzipayPaymentProcessor.cs:487-508 | the settled order is stored, then the fee step runs when it applies |
| IyzipayPaymentProcessor.SettlingAfterPlacement | Nop.Plugin.Payments.Iyzipay/IyzipayPaymentProcessor.cs:476-496 | storing the placement and then settling the order has the confirmation's whole effect |
| IyzipayPaymentProcessor.ConfirmationRejections | Nop.Plugin.Payments.Iyzipay/IyzipayPaymentProcessor.cs:411-452 | a retrieve exception, a null form, a non-"success" status and an unparsable basket id each give their message; a confirmed form passed all these checks |
| IyzipayPaymentProcessor.RejectedConfirmationChangesNothing | Nop.Plugin.Payments.Iyzipay/IyzipayPaymentProcessor.cs:413-481 | a rejected confirmation changes no order and adds no line |
| IyzipayPaymentProcessor.ConfirmationPlacement | Nop.Plugin.Payments.Iyzipay/IyzipayPaymentProcessor.cs:454-484 | an existing order is used whatever the cart and brings no lines; a missing one fails on an empty cart or a failed placement, else the placed order carries the basket GUID and brings the lines placement made |
| IyzipayPaymentProcessor.ConfirmationSettlesOrder | Nop.Plugin.Payments.Iyzipay/IyzipayPaymentProcessor.cs:476-508 | the confirmed order is stored settled; its total rises to the paid price only when the fee step completes; other orders are unchanged; the lines grow by the placed lines, then by the fee line at most |
| IyzipayPaymentProcessor.PlacedOrderFeeLine | Nop.Plugin.Payments.Iyzipay/IyzipayPaymentProcessor.cs:476-536 | for an order with no stored line yet, the fee line follows the placed lines and takes the product id of the first placed line of the order, or 1 when placement made none |
| IyzipayPaymentProcessor.RepeatConfirmationAddsNoSecondFee | Nop.Plugin.Payments.Iyzipay/IyzipayPaymentProcessor.cs:499-508 | replaying a confirmation whose fee step completed only moves the paid date and adds no line |
| IyzipayPaymentProcessor.FailedFeeUpdateRepeatsFee | Nop.Plugin.Payments.Iyzipay/IyzipayPaymentProcessor.cs:553-559 | when the fee line is inserted but the update throws, a replay adds the fee line a second time (and places nothing) |
| IyzipayPaymentProcessor.ProcessCallback | Nop.Plugin.Payments.Iyzipay/IyzipayPaymentProcessor.cs:568-615 | an unparsable basket id, a missing order and a status other than "SUCCESS" fail with their messages and change nothing; otherwise the order is settled from the callback |
| IyzipayPaymentProcessor.CallbackPlacesNoOrder | Nop.Plugin.Payments.Iyzipay/IyzipayPaymentProcessor.cs:580-585 | a callback for a missing order fails with "Order not found" and places nothing |
| IyzipayPaymentProcessor.CallbackEffect | Nop.Plugin.Payments.Iyzipay/IyzipayPaymentProcessor.cs:574-602 | a rejected callback changes nothing; an accepted one stores its order Paid, Complete, paid now, captured with the callback's payment id; `CallbackDecision` is the decision it applies, stated by ProcessCallback and CallbackPlacesNoOrder |
| IyzipayPaymentProcessor.SuccessSpellings | Nop.Plugin.Payments.Iyzipay/IyzipayPaymentProcessor.cs:419 | the callback's "SUCCESS" and the form's "success" do not accept each other's spelling |
| IyzipayPaymentProcessor.CallbackWritesLikeConfirmation | Nop.Plugin.Payments.Iyzipay/IyzipayPaymentProcessor.cs:593-602 | for an existing order with no fee, callback and confirmation store the same settled order |
| IyzipayPaymentProcessor.ProcessPayment | Nop.Plugin.Payments.Iyzipay/IyzipayPaymentProcessor.cs:134-153 | Pending exactly on "success", else the error message; "iframe" and "popup" (case-sensitive) keep the form content, every other mode the page URL |
| IyzipayPaymentProcessor.InstalledModeKeepsPageUrl | Nop.Plugin.Payments.Iyzipay/IyzipayPaymentProcessor.cs:630 | with the installed mode "POPUP" the page URL is kept, not the form content; an empty cart gives the error "Sepet boş" and no status |
| IyzipayPaymentProcessor.StatusResult | Nop.Plugin.Payments.Iyzipay/IyzipayPaymentProcessor.cs:184-191 | success sets the status and adds no error; failure adds its message and sets no status |
| IyzipayPaymentProcessor.Refund | Nop.Plugin.Payments.Iyzipay/IyzipayPaymentProcessor.cs:168-199 | a missing order gives "Order not found"; otherwise the refund outcome, Refunded on success |
| IyzipayPaymentProcessor.Void | Nop.Plugin.Payments.Iyzipay/IyzipayPaymentProcessor.cs:206-232 | the cancel outcome, Voided on success |
| IyzipayPaymentProcessor.RefundAndVoidStatus | Nop.Plugin.Payments.Iyzipay/IyzipayPaymentProcessor.cs:168-232 | Refunded exactly when the order is found, has a payment id and the gateway accepts; Voided exactly when the order is at most a day old, has a payment id and the gateway accepts |

## Left out

- Concurrency is not modelled. The webhook and the confirmation can race on
  one order, and each model method runs atomically on the store.
- Logging and `Console.WriteLine` are not modelled.
- Plugin install and uninstall, settings pages, locale resources,
  controllers, views and the HTTP client are not modelled. Only the
  installed form mode "POPUP" is used, in a lemma.
- `Guid.TryParse` accepts the "D", "N", "B" and "P" formats with
  surrounding white space. The "X" format (hexadecimal groups in braces)
  is not modelled.
- Guids.TryParse: in the "D", "B" and "P" formats .NET also accepts a
  leading "+" and/or "0x"/"0X" in each of the first four digit groups,
  counted in the group's width (so "12345678-0x34-1234-1234-123456789abc"
  parses). The model requires plain hexadecimal digits in every group and
  rejects such text, so for it the confirmation and the callback reject
  with "Invalid basket ID format" and the webhook changes no order, where
  the source would look the order up.
- Text.ToLower: maps the ASCII letters only. Culture-specific and
  non-ASCII case mapping is not modelled; the signatures compared are
  hexadecimal.
- The 24-hour void window compares tick differences.
  `TimeSpan.TotalHours` as a double is not modelled.
- `decimal` is an unbounded real. Its 28-digit precision and rounding are
  not modelled; only `GetDecimal`'s range check is. `IsDecimal` says which
  reals are `decimal` values, and the serializer round trip is stated for
  records whose amounts are.
- IyzipayOrderDataService.UpdateIyzipayDataFromRetrieve: the read-back is
  promised only when the projected amounts are `decimal` values, since
  `GetDecimal` here returns a number as written rather than rounding it
  to a `decimal`.
- IyzipayPaymentProcessor.ProcessConfirmation: `PlaceOrderAsync` is a
  parameter. That the placed order gets a fresh id and that its lines
  carry that id are not modelled; PlacedOrderFeeLine takes the first as a
  hypothesis.
- Null settings or a null form mode are not modelled. Settings strings
  are plain strings.
- IyzipayPaymentProcessor.ProcessConfirmation: store exceptions outside
  the fee step are not modelled: the order lookup, placement and the
  settling update. The same holds for ProcessCallback and the webhook
  methods.
- The fee step's exceptions are modelled as `FeeFault`.
- A null webhook dictionary is not modelled.
- `MaxInstallmentCount` is an unbounded integer. No `int` overflow of the
  loop counter is modelled.
- IyzipayPaymentProcessor.Refund and IyzipayPaymentProcessor.Void: the
  outer `catch` ("Refund error: …", "Cancel error: …") is not modelled. It
  can only fire on exceptions from the order lookup and the shop context.
- The same holds for the "Payment processing error" catch of
  ProcessPaymentAsync.
- IyzipayCheckoutFormService.CreateCheckoutForm: exceptions from the
  customer, cart, cart-total and catalog lookups are not modelled. Only
  the gateway call's exception is.
- IyzipayOrderDataService.UpdateIyzipayDataFromRetrieve: how the SDK
  response object serializes to JSON is not modelled. The method receives
  the parsed document.
- The other fields of the callback model are not modelled, because
  ProcessCallbackAsync does not read them.
- ProcessPaymentAsync is modelled as a function of the checkout-form
  result, since it changes no state.
- Which order a refund finds is a parameter (`stored`), standing for
  `GetOrderByIdAsync`.

/** IyzipayDataMapper: the buyer, basket items and addresses of a checkout
    request, built from the nopCommerce customer and cart. */
module IyzipayDataMapper {
  import opened Wrappers
  import opened Text

  /** The customer fields the mapper and the validator read. Times are ticks. */
  datatype Customer = Customer(
    Id: int,
    FirstName: Option<string>,
    LastName: Option<string>,
    Phone: Option<string>,
    Email: Option<string>,
    LastLoginDateUtc: Option<int>,
    CreatedOnUtc: int,
    BillingAddressId: Option<int>)

  datatype ShoppingCartItem = ShoppingCartItem(ProductId: int, Quantity: int)

  /** Library formatting the mapper calls: `decimal.ToString("F2")` with the
      invariant culture, and `DateTime.ToString("yyyy-MM-dd HH:mm:ss")`. */
  datatype Formats = Formats(formatF2: real -> string, formatDate: int -> string)

  /** The catalog lookups of CreateBasketItemsFromCartAsync: the product's
      name (`None` when the product is missing or has no name) and the unit
      price of a cart line. */
  datatype Catalog = Catalog(productName: int -> Option<string>, unitPrice: ShoppingCartItem -> real)

  datatype Buyer = Buyer(
    Id: string, Name: string, Surname: string, GsmNumber: string, Email: string,
    IdentityNumber: string, LastLoginDate: string, RegistrationDate: string,
    RegistrationAddress: string, City: string, Country: string, ZipCode: string)

  datatype BasketItem = BasketItem(
    Id: string, Name: string, Category1: string, Category2: string, ItemType: string, Price: string)

  datatype Address = Address(ContactName: string, City: string, Country: string, Description: string, ZipCode: string)

  /** CreateBuyerFromCustomer; `now` is the clock reading used when the
      customer never logged in. A placeholder replaces a name, phone or
      e-mail only when it is null. */
  function CreateBuyerFromCustomer(customer: Customer, formats: Formats, now: int): (b: Buyer)
    ensures b.Id == IntToString(customer.Id)
    ensures b.Name == customer.FirstName.GetOr("Müşteri")
    ensures b.Surname == customer.LastName.GetOr("Adı")
    ensures b.GsmNumber == customer.Phone.GetOr("+905350000000")
    ensures b.Email == customer.Email.GetOr("customer@example.com")
    ensures b.LastLoginDate == formats.formatDate(customer.LastLoginDateUtc.GetOr(now))
    ensures b.RegistrationDate == formats.formatDate(customer.CreatedOnUtc)
    ensures b.IdentityNumber == "11111111111" && b.RegistrationAddress == "Adres bilgisi"
    ensures b.City == "Istanbul" && b.Country == "Turkey" && b.ZipCode == "34000"
  {
    Buyer(
      Id := IntToString(customer.Id),
      Name := customer.FirstName.GetOr("Müşteri"),
      Surname := customer.LastName.GetOr("Adı"),
      GsmNumber := customer.Phone.GetOr("+905350000000"),
      Email := customer.Email.GetOr("customer@example.com"),
      IdentityNumber := "11111111111",
      LastLoginDate := formats.formatDate(customer.LastLoginDateUtc.GetOr(now)),
      RegistrationDate := formats.formatDate(customer.CreatedOnUtc),
      RegistrationAddress := "Adres bilgisi",
      City := "Istanbul",
      Country := "Turkey",
      ZipCode := "34000")
  }

  /** An empty name, phone or e-mail is passed on as it is; only null gets a
      placeholder. Distinct customers get distinct buyer ids. */
  lemma BuyerPlaceholders(c1: Customer, c2: Customer, formats: Formats, now: int)
    ensures c1.FirstName == Some("") ==> CreateBuyerFromCustomer(c1, formats, now).Name == ""
    ensures c1.Email == Some("") ==> CreateBuyerFromCustomer(c1, formats, now).Email == ""
    ensures c1.Phone.None? ==> CreateBuyerFromCustomer(c1, formats, now).GsmNumber == "+905350000000"
    ensures (CreateBuyerFromCustomer(c1, formats, now).Id == CreateBuyerFromCustomer(c2, formats, now).Id)
              ==> c1.Id == c2.Id
  {
    if CreateBuyerFromCustomer(c1, formats, now).Id == CreateBuyerFromCustomer(c2, formats, now).Id {
      IntToStringInjective(c1.Id, c2.Id);
    }
  }

  /** The basket item for one cart line. */
  function BasketItemFor(item: ShoppingCartItem, catalog: Catalog, formats: Formats): (b: BasketItem)
    ensures b.Id == IntToString(item.ProductId)
    ensures b.Name == catalog.productName(item.ProductId).GetOr("Ürün")
    ensures b.Price == formats.formatF2(catalog.unitPrice(item) * item.Quantity as real)
    ensures b.Category1 == "Kategori" && b.Category2 == "Alt Kategori" && b.ItemType == "PHYSICAL"
  {
    BasketItem(
      Id := IntToString(item.ProductId),
      Name := catalog.productName(item.ProductId).GetOr("Ürün"),
      Category1 := "Kategori",
      Category2 := "Alt Kategori",
      ItemType := "PHYSICAL",
      Price := formats.formatF2(catalog.unitPrice(item) * item.Quantity as real))
  }

  /** CreateBasketItemsFromCartAsync: one item per cart line, in cart order. */
  method CreateBasketItemsFromCart(cart: seq<ShoppingCartItem>, catalog: Catalog, formats: Formats)
    returns (basketItems: seq<BasketItem>)
    ensures |basketItems| == |cart|
    ensures forall i :: 0 <= i < |cart| ==> basketItems[i] == BasketItemFor(cart[i], catalog, formats)
  {
    basketItems := [];
    for i := 0 to |cart|
      invariant |basketItems| == i
      invariant forall j :: 0 <= j < i ==> basketItems[j] == BasketItemFor(cart[j], catalog, formats)
    {
      basketItems := basketItems + [BasketItemFor(cart[i], catalog, formats)];
    }
  }

  /** Basket item ids tell products apart: two items share an id only when
      their cart lines are for the same product. */
  lemma BasketIdsIdentifyProducts(cart: seq<ShoppingCartItem>, basketItems: seq<BasketItem>,
                                  catalog: Catalog, formats: Formats, i: nat, j: nat)
    requires |basketItems| == |cart|
    requires forall k :: 0 <= k < |cart| ==> basketItems[k] == BasketItemFor(cart[k], catalog, formats)
    requires i < |cart| && j < |cart|
    ensures basketItems[i].Id == basketItems[j].Id <==> cart[i].ProductId == cart[j].ProductId
  {
    if basketItems[i].Id == basketItems[j].Id {
      IntToStringInjective(cart[i].ProductId, cart[j].ProductId);
    }
  }

  /** `$"{FirstName} {LastName}".Trim()`: null names print as "". */
  function ContactName(customer: Customer): (r: string)
    ensures r == [] || (!IsWhiteSpace(r[0]) && !IsWhiteSpace(r[|r| - 1]))
  {
    Trim(OrEmpty(customer.FirstName) + " " + OrEmpty(customer.LastName))
  }

  /** Names without surrounding white space are joined by one space; when
      both are missing the contact name is empty. */
  lemma ContactNameJoinsNames(customer: Customer)
    ensures var f, l := OrEmpty(customer.FirstName), OrEmpty(customer.LastName);
      f != [] && l != [] && !IsWhiteSpace(f[0]) && !IsWhiteSpace(l[|l| - 1]) ==> ContactName(customer) == f + " " + l
    ensures IsNullOrEmpty(customer.FirstName) && IsNullOrEmpty(customer.LastName) ==> ContactName(customer) == ""
  {
    var f, l := OrEmpty(customer.FirstName), OrEmpty(customer.LastName);
    var s := f + " " + l;
    if f != [] && l != [] && !IsWhiteSpace(f[0]) && !IsWhiteSpace(l[|l| - 1]) {
      assert s[0] == f[0] && s[|s| - 1] == l[|l| - 1];
      TrimFixedPoints(s);
    }
    if f == [] && l == [] {
      assert s == " ";
      TrimFixedPoints(s);
    }
  }

  /** CreateShippingAddressFromCustomer. */
  function CreateShippingAddressFromCustomer(customer: Customer): (a: Address)
    ensures a.ContactName == ContactName(customer) && a.Description == "Teslimat adresi"
    ensures a.City == "Istanbul" && a.Country == "Turkey" && a.ZipCode == "34000"
  {
    Address(ContactName(customer), "Istanbul", "Turkey", "Teslimat adresi", "34000")
  }

  /** CreateBillingAddressFromCustomer. */
  function CreateBillingAddressFromCustomer(customer: Customer): (a: Address)
    ensures a.ContactName == ContactName(customer) && a.Description == "Fatura adresi"
    ensures a.City == "Istanbul" && a.Country == "Turkey" && a.ZipCode == "34000"
  {
    Address(ContactName(customer), "Istanbul", "Turkey", "Fatura adresi", "34000")
  }

  /** The shipping and the billing address differ in their description only. */
  lemma AddressesDifferOnlyInDescription(customer: Customer)
    ensures CreateShippingAddressFromCustomer(customer).(Description := "Fatura adresi")
         == CreateBillingAddressFromCustomer(customer)
    ensures CreateShippingAddressFromCustomer(customer) != CreateBillingAddressFromCustomer(customer)
  {
  }
}

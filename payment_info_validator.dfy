/** PaymentInfoValidator: the e-mail and phone rules of the payment-info
    form, and the choice of which customer e-mail and phone to validate. */
module Validators {
  import opened Wrappers
  import opened Text
  import opened IyzipayDataMapper

  /** The form model; both fields start as "". */
  datatype PaymentInfoModel = PaymentInfoModel(Email: Option<string>, Phone: Option<string>)

  datatype Property = EmailProperty | PhoneProperty

  /** `NotEmpty()`, FluentValidation's `IsEmailAddress()` and nopCommerce's
      `IsPhoneNumber(customerSettings)`. */
  datatype Check = NotEmpty | IsEmailAddress | IsPhoneNumber

  /** A registered rule: the property, the check, and the resource key of
      the localized message reported when the check fails. */
  datatype Rule = Rule(property: Property, check: Check, messageKey: string)

  /** The two format predicates are library code. */
  datatype FormatChecks = FormatChecks(isEmailAddress: Option<string> -> bool, isPhoneNumber: Option<string> -> bool)

  /** The address fields read from a billing address. */
  datatype AddressEntity = AddressEntity(Email: Option<string>, PhoneNumber: Option<string>)

  const EmailRequired := "Plugins.Payments.Iyzipay.EmailRequired"
  const EmailInvalid := "Plugins.Payments.Iyzipay.EmailInvalid"
  const PhoneRequired := "Plugins.Payments.Iyzipay.PhoneRequired"
  const PhoneInvalid := "Plugins.Payments.Iyzipay.PhoneInvalid"

  /** `NotEmpty` on a string: not null, and not empty or white space only. */
  predicate IsNotEmpty(s: Option<string>) {
    s.Some? && exists i :: 0 <= i < |s.value| && !IsWhiteSpace(s.value[i])
  }

  function ValueOf(model: PaymentInfoModel, p: Property): Option<string> {
    match p
    case EmailProperty => model.Email
    case PhoneProperty => model.Phone
  }

  predicate Holds(rule: Rule, model: PaymentInfoModel, formats: FormatChecks) {
    var v := ValueOf(model, rule.property);
    match rule.check
    case NotEmpty => IsNotEmpty(v)
    case IsEmailAddress => formats.isEmailAddress(v)
    case IsPhoneNumber => formats.isPhoneNumber(v)
  }

  /** The rules that fail, in the order they were registered; every rule
      is evaluated, a failure does not stop the others. */
  function Failures(rules: seq<Rule>, model: PaymentInfoModel, formats: FormatChecks): (r: seq<Rule>)
    ensures forall x :: x in r <==> x in rules && !Holds(x, model, formats)
    ensures |r| <= |rules|
  {
    if rules == [] then []
    else (if Holds(rules[0], model, formats) then [] else [rules[0]]) + Failures(rules[1..], model, formats)
  }

  class PaymentInfoValidator {
    var rules: seq<Rule>

    /** The constructor registers the four rules, each property's
        presence check before its format check. */
    constructor ()
      ensures rules == [Rule(EmailProperty, NotEmpty, EmailRequired),
                        Rule(EmailProperty, IsEmailAddress, EmailInvalid),
                        Rule(PhoneProperty, NotEmpty, PhoneRequired),
                        Rule(PhoneProperty, IsPhoneNumber, PhoneInvalid)]
    {
      rules := [];
      rules := rules + [Rule(EmailProperty, NotEmpty, EmailRequired)];
      rules := rules + [Rule(EmailProperty, IsEmailAddress, EmailInvalid)];
      rules := rules + [Rule(PhoneProperty, NotEmpty, PhoneRequired)];
      rules := rules + [Rule(PhoneProperty, IsPhoneNumber, PhoneInvalid)];
    }

    /** The message keys of the failing rules, in rule order. */
    function Validate(model: PaymentInfoModel, formats: FormatChecks): (errors: seq<string>)
      reads this
      ensures |errors| <= |rules|
      ensures forall k :: k in errors <==> exists x :: x in rules && !Holds(x, model, formats) && x.messageKey == k
    {
      var failed := Failures(rules, model, formats);
      var errors := seq(|failed|, i requires 0 <= i < |failed| => failed[i].messageKey);
      assert forall k :: k in errors ==> exists x :: x in failed && x.messageKey == k by {
        forall k | k in errors ensures exists x :: x in failed && x.messageKey == k {
          var i :| 0 <= i < |errors| && errors[i] == k;
          assert failed[i] in failed;
        }
      }
      assert forall x :: x in failed ==> x.messageKey in errors by {
        forall x | x in failed ensures x.messageKey in errors {
          var i :| 0 <= i < |failed| && failed[i] == x;
          assert errors[i] == x.messageKey;
        }
      }
      errors
    }

    /** GetCustomerInfoAsync: the e-mail and phone to validate. With no
        customer both are empty; a guest's come from the billing address when
        there is one; a registered customer's come from the customer. A null
        value is replaced by "", so neither field is ever null. */
    function GetCustomerInfo(customer: Option<Customer>, isGuest: Customer -> bool,
                             addressById: int -> Option<AddressEntity>): (m: PaymentInfoModel)
      ensures m.Email.Some? && m.Phone.Some?
      ensures customer.None? ==> m == PaymentInfoModel(Some(""), Some(""))
      ensures customer.Some? && !isGuest(customer.value) ==>
                m == PaymentInfoModel(Some(customer.value.Email.GetOr("")), Some(customer.value.Phone.GetOr("")))
      ensures customer.Some? && isGuest(customer.value) ==>
                var id := customer.value.BillingAddressId;
                if id.Some? && addressById(id.value).Some? then
                  m == PaymentInfoModel(Some(addressById(id.value).value.Email.GetOr("")),
                                        Some(addressById(id.value).value.PhoneNumber.GetOr("")))
                else m == PaymentInfoModel(Some(""), Some(""))
    {
      match customer
      case None => PaymentInfoModel(Some(""), Some(""))
      case Some(c) =>
        var (email, phone) :=
          if isGuest(c) then
            if c.BillingAddressId.Some? then
              match addressById(c.BillingAddressId.value)
              case Some(a) => (a.Email.GetOr(""), a.PhoneNumber.GetOr(""))
              case None => ("", "")
            else ("", "")
          else (c.Email.GetOr(""), c.Phone.GetOr(""));
        PaymentInfoModel(Some(email), Some(phone))
    }
  }

  /** With the registered rules, a blank e-mail (null, empty or white space)
      is reported as EmailRequired and a blank phone as PhoneRequired, each
      independently of the format checks. */
  lemma RequiredRules(v: PaymentInfoValidator, model: PaymentInfoModel, formats: FormatChecks)
    requires v.rules == [Rule(EmailProperty, NotEmpty, EmailRequired),
                         Rule(EmailProperty, IsEmailAddress, EmailInvalid),
                         Rule(PhoneProperty, NotEmpty, PhoneRequired),
                         Rule(PhoneProperty, IsPhoneNumber, PhoneInvalid)]
    ensures EmailRequired in v.Validate(model, formats) <==> !IsNotEmpty(model.Email)
    ensures PhoneRequired in v.Validate(model, formats) <==> !IsNotEmpty(model.Phone)
    ensures EmailInvalid in v.Validate(model, formats) <==> !formats.isEmailAddress(model.Email)
    ensures PhoneInvalid in v.Validate(model, formats) <==> !formats.isPhoneNumber(model.Phone)
  {
    var r := v.rules;
    assert r[0] in r && r[1] in r && r[2] in r && r[3] in r;
  }

  /** When there is no customer, or a guest without a billing address, both
      required rules fail on the model GetCustomerInfo returns. */
  lemma MissingContactFailsRequired(v: PaymentInfoValidator, customer: Option<Customer>,
                                    isGuest: Customer -> bool, addressById: int -> Option<AddressEntity>,
                                    formats: FormatChecks)
    requires v.rules == [Rule(EmailProperty, NotEmpty, EmailRequired),
                         Rule(EmailProperty, IsEmailAddress, EmailInvalid),
                         Rule(PhoneProperty, NotEmpty, PhoneRequired),
                         Rule(PhoneProperty, IsPhoneNumber, PhoneInvalid)]
    requires customer.None? || (isGuest(customer.value) && customer.value.BillingAddressId.None?)
    ensures var m := v.GetCustomerInfo(customer, isGuest, addressById);
      EmailRequired in v.Validate(m, formats) && PhoneRequired in v.Validate(m, formats)
  {
    var m := v.GetCustomerInfo(customer, isGuest, addressById);
    RequiredRules(v, m, formats);
  }
}

/** The plugin's settings and IyzipayConfigurationService: the gateway
    credentials and the payment-form locale derived from them. */
module IyzipayConfigurationService {

  /** The settings fields the modelled services read (IyzipayPaymentSettings). */
  datatype IyzipayPaymentSettings = IyzipayPaymentSettings(
    ApiKey: string,
    SecretKey: string,
    BaseUrl: string,
    PaymentFormLanguage: string,
    PaymentFormMode: string,
    OrderStatusAfterPayment: int,
    EnableInstallmentOptions: bool,
    MaxInstallmentCount: int)

  /** The gateway SDK's credential record. */
  datatype Options = Options(ApiKey: string, SecretKey: string, BaseUrl: string)

  /** GetOptions: the three credentials, copied from the settings. */
  function GetOptions(settings: IyzipayPaymentSettings): (o: Options)
    ensures o.ApiKey == settings.ApiKey
    ensures o.SecretKey == settings.SecretKey
    ensures o.BaseUrl == settings.BaseUrl
  {
    Options(settings.ApiKey, settings.SecretKey, settings.BaseUrl)
  }

  /** GetLocale: the switch over PaymentFormLanguage; "en" selects English,
      "tr", "auto" and anything else select Turkish. */
  function GetLocale(settings: IyzipayPaymentSettings): (locale: string)
    ensures locale == "en" || locale == "tr"
    ensures locale == "en" <==> settings.PaymentFormLanguage == "en"
  {
    var lang := settings.PaymentFormLanguage;
    if lang == "en" then "en"
    else if lang == "tr" then "tr"
    else if lang == "auto" then "tr"
    else "tr"
  }
}

/**
 * Currency conversion with a primary provider (exchangerate-api.com, keyed)
 * and a free fallback provider (exchangerate.host), as a decision over the two
 * providers' responses (utils/currency_converter.py). The responses are inputs:
 * a transport failure, or a status code with a JSON body.
 */
module CurrencyConverter {
  import opened Wrappers
  import opened Text

  /** `CurrencyConverter`: the stored key and the base URL built from it. */
  datatype CurrencyConverter = CurrencyConverter(apiKey: Option<string>, baseUrl: string)

  /** How an f-string shows an optional key. */
  function ShowKey(k: Option<string>): string
  {
    if k.Some? then k.value else "None"
  }

  /** `CurrencyConverter.__init__`. */
  function NewCurrencyConverter(apiKey: Option<string>): (c: CurrencyConverter)
    ensures c.apiKey == apiKey
    ensures c.baseUrl == "https://v6.exchangerate-api.com/v6/" + ShowKey(apiKey) + "/latest"
  {
    CurrencyConverter(apiKey, "https://v6.exchangerate-api.com/v6/" + ShowKey(apiKey) + "/latest")
  }

  /** The JSON body of a provider's answer: its `conversion_rates` and `rates` entries. */
  datatype RatesBody = RatesBody(conversionRates: Option<map<string, real>>, rates: Option<map<string, real>>)

  /** What the primary provider's GET gave: a transport error, or a status and a body (`None` if not JSON). */
  datatype PrimaryResponse =
    | PrimaryTransportError(reason: string)
    | PrimaryReply(status: int, body: Option<RatesBody>)

  /**
   * What the fallback provider's GET gave; `shownBody` is how the error message
   * shows the body of a non-200 answer (its JSON, else its text).
   */
  datatype FallbackResponse =
    | FallbackTransportError(reason: string)
    | FallbackReply(status: int, body: Option<RatesBody>, shownBody: string)

  /** The exceptions `convert` lets escape, with their messages. */
  datatype ConvertError =
    | RuntimeError(message: string)
    | ValueError(message: string)
    | ConnectionError(message: string)

  /** Message of the ValueError the JSON decoder raises on a body that is not JSON. */
  const NotJson: string := "Expecting value"

  /** Which URLs were requested, and what `convert` returned or raised. */
  datatype Conversion = Conversion(primaryUrl: Option<string>, fallbackUrl: Option<string>, result: Result<real, ConvertError>)

  function PrimaryUrl(key: string, fromCurrency: string): string
  {
    "https://v6.exchangerate-api.com/v6/" + key + "/latest/" + fromCurrency
  }

  function FallbackUrl(fromCurrency: string, toCurrency: string): string
  {
    "https://api.exchangerate.host/latest?base=" + fromCurrency + "&symbols=" + toCurrency
  }

  /** `api_key or self.api_key`. */
  function EffectiveKey(c: CurrencyConverter, callKey: Option<string>): Option<string>
  {
    Or(callKey, c.apiKey)
  }

  /** Python truthiness of an optional rates dict. */
  predicate HasRates(m: Option<map<string, real>>)
  {
    m.Some? && |m.value| > 0
  }

  /** `data.get('conversion_rates') or data.get('rates')`. */
  function PrimaryRates(body: RatesBody): Option<map<string, real>>
  {
    if HasRates(body.conversionRates) then body.conversionRates else body.rates
  }

  /** The primary provider answered and its answer settles the call (a result or an escaping error). */
  predicate PrimaryDecides(primary: PrimaryResponse)
  {
    primary.PrimaryReply? && primary.status == 200
  }

  /** The outcome of a 200 answer from the primary provider. */
  function PrimaryOutcome(amount: real, toCurrency: string, body: Option<RatesBody>): Result<real, ConvertError>
  {
    if body.None? then Err(ValueError(NotJson))
    else
      var rates := PrimaryRates(body.value);
      if !HasRates(rates) then Err(RuntimeError("Currency API response missing conversion rates"))
      else if toCurrency !in rates.value then Err(ValueError("Invalid target currency code: " + toCurrency))
      else Ok(amount * rates.value[toCurrency])
  }

  /** The outcome of asking the fallback provider. */
  function FallbackOutcome(amount: real, toCurrency: string, fallback: FallbackResponse): Result<real, ConvertError>
  {
    match fallback
    case FallbackTransportError(reason) =>
      Err(ConnectionError("Currency API requests failed: " + reason))
    case FallbackReply(status, body, shownBody) =>
      if status != 200 then
        Err(RuntimeError("Fallback currency API returned status " + IntToString(status) + ": " + shownBody))
      else if body.None? then Err(ValueError(NotJson))
      else if !HasRates(body.value.rates) || toCurrency !in body.value.rates.value then
        Err(ValueError("Invalid target currency code or missing rate from fallback provider: " + toCurrency))
      else Ok(amount * body.value.rates.value[toCurrency])
  }

  /**
   * `CurrencyConverter.convert`. The primary provider is asked only with a
   * truthy effective key; its 200 answer settles the call, while a transport
   * error or another status falls through to the fallback provider. Some
   * provider is always asked.
   */
  function Convert(c: CurrencyConverter, amount: real, fromCurrency: string, toCurrency: string,
                   callKey: Option<string>, primary: PrimaryResponse, fallback: FallbackResponse): (r: Conversion)
    ensures r.primaryUrl.Some? || r.fallbackUrl.Some?
  {
    var key := EffectiveKey(c, callKey);
    var primaryUrl := if Truthy(key) then Some(PrimaryUrl(key.value, fromCurrency)) else None;
    if Truthy(key) && PrimaryDecides(primary) then
      Conversion(primaryUrl, None, PrimaryOutcome(amount, toCurrency, primary.body))
    else
      Conversion(primaryUrl, Some(FallbackUrl(fromCurrency, toCurrency)), FallbackOutcome(amount, toCurrency, fallback))
  }

  // ---------------------------------------------------------------------------
  // The decision table

  /** The per-call key wins when truthy; the primary provider is asked only with a truthy key, and with that key in its URL. */
  lemma KeyPrecedence(c: CurrencyConverter, amount: real, fromCurrency: string, toCurrency: string,
                      callKey: Option<string>, primary: PrimaryResponse, fallback: FallbackResponse)
    ensures var r := Convert(c, amount, fromCurrency, toCurrency, callKey, primary, fallback);
      (r.primaryUrl.Some? <==> Truthy(callKey) || Truthy(c.apiKey)) &&
      (Truthy(callKey) ==> r.primaryUrl == Some(PrimaryUrl(callKey.value, fromCurrency))) &&
      (!Truthy(callKey) && Truthy(c.apiKey) ==> r.primaryUrl == Some(PrimaryUrl(c.apiKey.value, fromCurrency)))
  {
  }

  /** The fallback provider is asked exactly when there is no key, or the primary failed in transport or did not answer 200. */
  lemma FallbackWhen(c: CurrencyConverter, amount: real, fromCurrency: string, toCurrency: string,
                     callKey: Option<string>, primary: PrimaryResponse, fallback: FallbackResponse)
    ensures var r := Convert(c, amount, fromCurrency, toCurrency, callKey, primary, fallback);
      (r.fallbackUrl.Some? <==> !Truthy(EffectiveKey(c, callKey)) || primary.PrimaryTransportError? || primary.status != 200) &&
      (r.fallbackUrl.Some? ==> r.fallbackUrl == Some(FallbackUrl(fromCurrency, toCurrency)) &&
                               r.result == FallbackOutcome(amount, toCurrency, fallback))
  {
  }

  /** A primary 200 answer with a rate for the target returns amount times that rate, and nothing else is asked. */
  lemma PrimarySuccess(c: CurrencyConverter, amount: real, fromCurrency: string, toCurrency: string,
                       callKey: Option<string>, body: RatesBody, fallback: FallbackResponse)
    requires Truthy(EffectiveKey(c, callKey))
    requires HasRates(PrimaryRates(body)) && toCurrency in PrimaryRates(body).value
    ensures var r := Convert(c, amount, fromCurrency, toCurrency, callKey, PrimaryReply(200, Some(body)), fallback);
      r.fallbackUrl.None? && r.result.Ok? && r.result.value == amount * PrimaryRates(body).value[toCurrency]
  {
  }

  /** `conversion_rates` is read before `rates`, and `rates` only when `conversion_rates` is missing or empty. */
  lemma RatesPrecedence(body: RatesBody)
    ensures HasRates(body.conversionRates) ==> PrimaryRates(body) == body.conversionRates
    ensures !HasRates(body.conversionRates) ==> PrimaryRates(body) == body.rates
  {
  }

  /** Errors inside a primary 200 answer are raised, never handed to the fallback provider. */
  lemma PrimaryErrorsEscape(c: CurrencyConverter, amount: real, fromCurrency: string, toCurrency: string,
                            callKey: Option<string>, body: RatesBody, fallback: FallbackResponse)
    requires Truthy(EffectiveKey(c, callKey))
    ensures var r := Convert(c, amount, fromCurrency, toCurrency, callKey, PrimaryReply(200, Some(body)), fallback);
      r.fallbackUrl.None? &&
      (!HasRates(PrimaryRates(body)) ==> r.result == Err(RuntimeError("Currency API response missing conversion rates"))) &&
      (HasRates(PrimaryRates(body)) && toCurrency !in PrimaryRates(body).value ==>
         r.result == Err(ValueError("Invalid target currency code: " + toCurrency)))
  {
  }

  /** What the fallback provider's answer leads to. */
  lemma FallbackTable(amount: real, toCurrency: string, fallback: FallbackResponse)
    ensures fallback.FallbackTransportError? ==>
      FallbackOutcome(amount, toCurrency, fallback).Err? &&
      FallbackOutcome(amount, toCurrency, fallback).error == ConnectionError("Currency API requests failed: " + fallback.reason)
    ensures fallback.FallbackReply? && fallback.status != 200 ==>
      FallbackOutcome(amount, toCurrency, fallback).Err? &&
      FallbackOutcome(amount, toCurrency, fallback).error ==
        RuntimeError("Fallback currency API returned status " + IntToString(fallback.status) + ": " + fallback.shownBody)
    ensures fallback.FallbackReply? && fallback.status == 200 && fallback.body.None? ==>
      FallbackOutcome(amount, toCurrency, fallback).Err? &&
      FallbackOutcome(amount, toCurrency, fallback).error == ValueError(NotJson)
    ensures (fallback.FallbackReply? && fallback.status == 200 && fallback.body.Some? &&
             HasRates(fallback.body.value.rates) && toCurrency in fallback.body.value.rates.value) ==>
        FallbackOutcome(amount, toCurrency, fallback).Ok? &&
        FallbackOutcome(amount, toCurrency, fallback).value == amount * fallback.body.value.rates.value[toCurrency]
    ensures (fallback.FallbackReply? && fallback.status == 200 && fallback.body.Some? &&
             (!HasRates(fallback.body.value.rates) || toCurrency !in fallback.body.value.rates.value)) ==>
        FallbackOutcome(amount, toCurrency, fallback).Err? &&
        FallbackOutcome(amount, toCurrency, fallback).error ==
          ValueError("Invalid target currency code or missing rate from fallback provider: " + toCurrency)
  {
  }

  /** Every success is the amount times a rate one of the providers gave for the target currency. */
  lemma SuccessIsAmountTimesRate(c: CurrencyConverter, amount: real, fromCurrency: string, toCurrency: string,
                                 callKey: Option<string>, primary: PrimaryResponse, fallback: FallbackResponse)
    requires Convert(c, amount, fromCurrency, toCurrency, callKey, primary, fallback).result.Ok?
    ensures var v := Convert(c, amount, fromCurrency, toCurrency, callKey, primary, fallback).result.value;
      (primary.PrimaryReply? && primary.body.Some? && HasRates(PrimaryRates(primary.body.value)) &&
       toCurrency in PrimaryRates(primary.body.value).value && v == amount * PrimaryRates(primary.body.value).value[toCurrency]) ||
      (fallback.FallbackReply? && fallback.body.Some? && HasRates(fallback.body.value.rates) &&
       toCurrency in fallback.body.value.rates.value && v == amount * fallback.body.value.rates.value[toCurrency])
  {
    var key := EffectiveKey(c, callKey);
    if Truthy(key) && PrimaryDecides(primary) {
      assert Convert(c, amount, fromCurrency, toCurrency, callKey, primary, fallback).result ==
        PrimaryOutcome(amount, toCurrency, primary.body);
    } else {
      assert Convert(c, amount, fromCurrency, toCurrency, callKey, primary, fallback).result ==
        FallbackOutcome(amount, toCurrency, fallback);
    }
  }
}

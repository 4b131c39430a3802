/**
 * The `convert_currency` tool (tools/currency_converter_tool.py): reads the
 * per-request key and turns every exception of the converter into text.
 */
module CurrencyConverterTool {
  import opened Wrappers
  import opened RunConfig
  import opened CurrencyConverter

  /** The tool: the key read from EXCHANGE_API_KEY and the converter built with it. */
  datatype CurrencyConverterTool = CurrencyConverterTool(apiKey: Option<string>, currencyService: CurrencyConverter)

  function NewCurrencyConverterTool(env: map<string, string>): (tool: CurrencyConverterTool)
    ensures tool.apiKey == (if "EXCHANGE_API_KEY" in env then Some(env["EXCHANGE_API_KEY"]) else None)
    ensures tool.currencyService.apiKey == tool.apiKey
  {
    var key := if "EXCHANGE_API_KEY" in env then Some(env["EXCHANGE_API_KEY"]) else None;
    CurrencyConverterTool(key, NewCurrencyConverter(key))
  }

  /** The exported tools. */
  const ToolNames: seq<string> := ["convert_currency"]

  /** What the tool returns: the converted amount, or a message. */
  datatype ToolOutput = Amount(value: real) | Message(text: string)

  /** `str(e)` for the exceptions the converter raises. */
  function ErrorText(e: ConvertError): string
  {
    e.message
  }

  /** The per-request key the tool hands to the converter. */
  function UserKey(config: RunnableConfig): Option<string>
  {
    ApiKey(config, "exchange_api_key")
  }

  /** `convert_currency`: the converter's result, or "Currency conversion failed: " and the error's text. */
  function ConvertCurrency(tool: CurrencyConverterTool, amount: real, fromCurrency: string, toCurrency: string,
                           config: RunnableConfig, primary: PrimaryResponse, fallback: FallbackResponse): ToolOutput
  {
    var r := Convert(tool.currencyService, amount, fromCurrency, toCurrency, UserKey(config), primary, fallback).result;
    match r
    case Ok(v) => Amount(v)
    case Err(e) => Message("Currency conversion failed: " + ErrorText(e))
  }

  /** The tool never raises: a success passes through unchanged, and every failure becomes its message. */
  lemma ConvertCurrencyNeverRaises(tool: CurrencyConverterTool, amount: real, fromCurrency: string, toCurrency: string,
                                   config: RunnableConfig, primary: PrimaryResponse, fallback: FallbackResponse)
    ensures var r := Convert(tool.currencyService, amount, fromCurrency, toCurrency, UserKey(config), primary, fallback).result;
      var out := ConvertCurrency(tool, amount, fromCurrency, toCurrency, config, primary, fallback);
      (r.Ok? <==> out.Amount?) &&
      (r.Ok? ==> out == Amount(r.value)) &&
      (r.Err? ==> out == Message("Currency conversion failed: " + r.error.message))
  {
  }

  /**
   * A key in the request is the one the primary provider sees, whatever the
   * environment holds; without one the key from EXCHANGE_API_KEY is used.
   */
  lemma RequestKeyReachesProvider(env: map<string, string>, amount: real, fromCurrency: string, toCurrency: string,
                                  config: RunnableConfig, primary: PrimaryResponse, fallback: FallbackResponse)
    ensures var tool := NewCurrencyConverterTool(env);
      var r := Convert(tool.currencyService, amount, fromCurrency, toCurrency, UserKey(config), primary, fallback);
      (Truthy(UserKey(config)) ==> r.primaryUrl == Some(PrimaryUrl(UserKey(config).value, fromCurrency))) &&
      (!Truthy(UserKey(config)) && "EXCHANGE_API_KEY" in env && env["EXCHANGE_API_KEY"] != "" ==>
         r.primaryUrl == Some(PrimaryUrl(env["EXCHANGE_API_KEY"], fromCurrency))) &&
      (!Truthy(UserKey(config)) && ("EXCHANGE_API_KEY" !in env || env["EXCHANGE_API_KEY"] == "") ==> r.primaryUrl == None)
  {
  }

  /** With no key anywhere and a fallback outage, the tool answers with the connection error's text. */
  lemma NoKeyFallbackDown(env: map<string, string>, amount: real, fromCurrency: string, toCurrency: string,
                          config: RunnableConfig, primary: PrimaryResponse, reason: string)
    requires !Truthy(UserKey(config))
    requires "EXCHANGE_API_KEY" !in env
    ensures ConvertCurrency(NewCurrencyConverterTool(env), amount, fromCurrency, toCurrency, config, primary,
                            FallbackTransportError(reason)) ==
      Message("Currency conversion failed: " + ("Currency API requests failed: " + reason))
  {
    var tool := NewCurrencyConverterTool(env);
    assert !Truthy(EffectiveKey(tool.currencyService, UserKey(config)));
  }
}

# GetSetGoAI core, modelled in Dafny

GetSetGoAI is a travel-planning agent. A chat model, prompted as a travel
agent, runs in a two-node graph (the model node and a tool node). It calls
tools for weather, place search (SerpAPI or Tavily), arithmetic and currency
conversion. Around the graph sit a model loader that resolves the LLM
provider from `config.yaml` and the environment, a Markdown-to-PDF export
script, the package's requirements reader, and the HTTP error mapping.

This project models that core, one Dafny module per source file:

| module | file | form |
|---|---|---|
| `Wrappers`, `Text` | (shared) | Option/Result; Python's `split`, `join`, `in`, `lower`, `strip`, `splitlines`, `str(int)` on ASCII text |
| `RunConfig` | (shared) | the per-request key path `config["configurable"]["api_keys"][name]` |
| `PlaceInfoSearch` | utils/place_info_search.py | junk-link filter; result formatting as loops (`method`) proved against specification functions |
| `PlaceSearchTool` | tools/place_search_tool.py | back-end selection of the five search tools |
| `WeatherInfoTool` | tools/weather_info_tool.py | current-weather text; the forecast's grouping loop over a `map`, proved against a fold |
| `CurrencyConverter` | utils/currency_converter.py | the primary/fallback decision table over abstract responses |
| `CurrencyConverterTool` | tools/currency_converter_tool.py | the exception-to-text wrapper |
| `ModelLoaders` | utils/model_loaders.py | a `ModelLoader` class whose `LoadLlm` mutates the provider, proved against a pure `Resolve` |
| `AgenticWorkflow` | Agent/agentic_workflow.py | a `GraphBuilder` class, the agent node, the graph's edges, and a run of the graph |
| `ExportPlan` | scripts/export_plan.py | a recording `Canvas` class and the nested layout loops, proved against a layout function |
| `SetupRequirements` | setup.py | the requirements loop |
| `ExpenseCalculator`, `ExpenseCalculatorTool`, `ArithmeticOperationsTool` | utils/expense_calculator.py, tools/expense_calculator_tool.py, tools/arithematic_operations_tool.py | pure arithmetic over `real` |
| `Exceptions` | exception/exceptions.py, exception/exception_handler.py | exception classes with default status codes; handlers as a map to `(status, error)` |

The network, the chat model, and LangGraph's tool node and routing function
are not modelled as code. They are function parameters or input values: a
provider response is a transport error or a status with a body, the model is
`(BoundModel, seq<Message>) -> Reply`, and so on. Money, rates and temperatures
are exact `real`s. The environment is a `map<string, string>`. The loaded
`config.yaml` is a `ConfigDoc` value.

## Model

| member | source | states |
|---|---|---|
| `PlaceInfoSearch.IsJunkLink` | utils/place_info_search.py:22-26 | a missing or empty link is junk; otherwise junk exactly when one of the six parked domains occurs in the lower-cased link |
| `PlaceInfoSearch.AnyDomainIn` | utils/place_info_search.py:26 | true exactly when some listed domain occurs as a substring |
| `PlaceInfoSearch.CollectSerpLines` | utils/place_info_search.py:37-53 | the two append loops build exactly the lines of the first five organic results, then those of the first five local places |
| `PlaceInfoSearch.FormatSerpResults` | utils/place_info_search.py:34-65 | no formatted line gives the wrapper's plain answer; otherwise the first five non-junk lines joined by newlines, or the first two lines when all are junk |
| `PlaceInfoSearch.OrganicLinesBound` | utils/place_info_search.py:41-45 | the organic loop appends at most one line per result |
| `PlaceInfoSearch.PlaceLinesBound` | utils/place_info_search.py:49-53 | the local-places loop appends at most one line per place |
| `PlaceInfoSearch.SerpLinesBound` | utils/place_info_search.py:41-53 | at most ten formatted lines, five from each source |
| `PlaceInfoSearch.OrganicLinesMembership` | utils/place_info_search.py:42-45 | a line is produced iff some result with a truthy title and link formats to it |
| `PlaceInfoSearch.PlaceLinesMembership` | utils/place_info_search.py:50-53 | a line is produced iff some place with a truthy title and a truthy website-or-link formats to it |
| `PlaceInfoSearch.PlaceLinkPreference` | utils/place_info_search.py:51 | a place shows its website when truthy, else its link, and is skipped when both are falsy |
| `PlaceInfoSearch.SerpIgnoresLateOrganic` | utils/place_info_search.py:41 | organic results past the fifth never change the formatted lines |
| `PlaceInfoSearch.SerpIgnoresLatePlaces` | utils/place_info_search.py:49 | local places past the fifth never change the formatted lines |
| `PlaceInfoSearch.CleanMembership` | utils/place_info_search.py:60 | the filter keeps exactly the lines whose last `": "` piece is not junk |
| `PlaceInfoSearch.CleanAppend` | utils/place_info_search.py:60 | filtering distributes over concatenation, so order is kept |
| `PlaceInfoSearch.CleanBound` | utils/place_info_search.py:60 | filtering never adds lines |
| `PlaceInfoSearch.SelectedLinesMeaning` | utils/place_info_search.py:62-65 | with a clean line the output is the first five clean lines and holds nothing junk; otherwise it is the first two formatted lines |
| `PlaceInfoSearch.JunkJudgedOnLink` | utils/place_info_search.py:60 | for a link without `": "` the junk test of `"title: link"` is the junk test of the link, whatever the title |
| `PlaceInfoSearch.FormatTavilyResults` | utils/place_info_search.py:113-132 | no usable item gives `str(result)`; otherwise the same clean-or-first-two choice over the lines of the first five items |
| `PlaceInfoSearch.TavilyLinesBound` | utils/place_info_search.py:123-128 | at most one line per item |
| `PlaceInfoSearch.TavilyLinesMembership` | utils/place_info_search.py:124-128 | a line is produced iff some dict item with a truthy title and url formats to it |
| `PlaceInfoSearch.TavilyAcceptedShapes` | utils/place_info_search.py:116-119 | a list is used as is, a dict through its `"results"` key (missing means empty), anything else gives no items |
| `PlaceInfoSearch.SerpSearch` | utils/place_info_search.py:67-107 | attractions, restaurants and hotels format their query's results; activities and transportation return the plain answer; each sends its own query text |
| `PlaceInfoSearch.TavilySearch` | utils/place_info_search.py:134-172 | each of the five Tavily searches formats the result of its own query text |
| `PlaceSearchTool.NewLocationInfoTool` | tools/place_search_tool.py:9-18 | the SerpAPI back-end exists iff SERPAPI_API_KEY is truthy and the package is installed; Tavily iff TAVILY_API_KEY is truthy |
| `PlaceSearchTool.SearchTool` | tools/place_search_tool.py:25-87 | the body shared by the five search tools: read the per-request keys and dispatch to SerpAPI, Tavily or the fixed reply (see the rows below) |
| `PlaceSearchTool.SearchToolChoice` | tools/place_search_tool.py:25-35 | SerpAPI with its per-request key when present, else Tavily with its own key, else `"No search API available"` |
| `PlaceSearchTool.SameBackendForAllTools` | tools/place_search_tool.py:31-87 | all five tools choose the same back-end for the same tool and request |
| `PlaceSearchTool.SerpConfiguredWins` | tools/place_search_tool.py:14-32 | a SerpAPI key with the package installed makes every tool use SerpAPI |
| `PlaceSearchTool.TavilyOnlyWithoutSerp` | tools/place_search_tool.py:14-34 | without a usable SerpAPI back-end, a Tavily key makes every tool use Tavily |
| `PlaceSearchTool.NoKeysNoSearch` | tools/place_search_tool.py:35 | with neither key the answer is exactly `"No search API available"` |
| `PlaceSearchTool.ExportedTools` | tools/place_search_tool.py:89 | five distinct tools, one per kind of search, in a fixed order |
| `RunConfig.ApiKey` | tools/place_search_tool.py:27-29 | `config.get("configurable", {}).get("api_keys", {}).get(name)` (its meaning is `ApiKeyLookup`) |
| `RunConfig.ApiKeyLookup` | tools/place_search_tool.py:27-29 | a key is found only at the full path; any missing level gives None |
| `WeatherInfoTool.NewWeatherInfoTool` | tools/weather_info_tool.py:4-8 | the stored key is WEATHER_API_KEY when set, else None |
| `WeatherInfoTool.RequestKey` | utils/weather_info.py:12 | the request uses the per-request key when truthy, else the stored key |
| `WeatherInfoTool.CurrentWeather` | tools/weather_info_tool.py:21-28 | `get_current_weather` after the service call: the line with the values, the failure text, or the IndexError (see the rows below) |
| `WeatherInfoTool.CurrentWeatherWithoutMain` | tools/weather_info_tool.py:21-28 | without `"main"`, including the service's error dict, the answer is the fixed failure text |
| `WeatherInfoTool.CurrentWeatherDefaults` | tools/weather_info_tool.py:22-27 | each missing value reads `N/A`, and a missing name gives the requested city |
| `WeatherInfoTool.CurrentWeatherAllPresent` | tools/weather_info_tool.py:22-27 | with all values present, each appears in its slot and the service's name replaces the city |
| `WeatherInfoTool.CurrentWeatherRaises` | tools/weather_info_tool.py:23 | the tool raises IndexError iff `"main"` is present and `"weather"` is an empty list |
| `WeatherInfoTool.DateKeyIsDatePart` | tools/weather_info_tool.py:41 | the date key is the prefix of `dt_txt` before the first space, with no space in it |
| `WeatherInfoTool.Dates` | tools/weather_info_tool.py:40-41 | one date key per forecast entry, in order |
| `WeatherInfoTool.DayStatsStep` | tools/weather_info_tool.py:43-47 | one more entry creates or updates the record of its own date only |
| `WeatherInfoTool.GroupByDay` | tools/weather_info_tool.py:39-47 | the loop's dict has a record for exactly the dates seen, each equal to the fold over the entries, with keys in first-seen order |
| `WeatherInfoTool.GetWeatherForecast` | tools/weather_info_tool.py:36-54 | without `"list"` the fixed failure text; otherwise the header and the first five days' lines joined by newlines |
| `WeatherInfoTool.DayStatsPresent` | tools/weather_info_tool.py:43-44 | a date has a record iff some entry falls on it |
| `WeatherInfoTool.DayStatsBounds` | tools/weather_info_tool.py:44-47 | low ≤ high; every entry of the day lies between them; both are attained |
| `WeatherInfoTool.DayStatsFirstDescription` | tools/weather_info_tool.py:44 | a day's description is that of its first entry |
| `WeatherInfoTool.FirstIndex` | tools/weather_info_tool.py:50 | the position of the first occurrence of a date |
| `WeatherInfoTool.DistinctOrder` | tools/weather_info_tool.py:43-50 | the dict's key order lists every date once, ordered by first appearance |
| `WeatherInfoTool.DayLinesLength` | tools/weather_info_tool.py:50-51 | one summary line per listed date |
| `WeatherInfoTool.ForecastLineCount` | tools/weather_info_tool.py:49-51 | the answer is the header plus min(5, number of days) lines |
| `CurrencyConverter.NewCurrencyConverter` | utils/currency_converter.py:7-15 | stores the key and the base URL built from it (`None` shown as "None") |
| `CurrencyConverter.Convert` | utils/currency_converter.py:17-68 | `convert`: the URLs asked and the result or exception; some provider is always asked |
| `CurrencyConverter.KeyPrecedence` | utils/currency_converter.py:30-34 | the call's key wins when truthy; the primary provider is asked iff some key is truthy, with that key in its URL |
| `CurrencyConverter.FallbackWhen` | utils/currency_converter.py:33-53 | the fallback is asked iff there is no key, a transport error, or a non-200 primary status; then the outcome is the fallback's |
| `CurrencyConverter.PrimarySuccess` | utils/currency_converter.py:37-45 | a 200 answer with a rate for the target returns amount × rate and asks nothing else |
| `CurrencyConverter.RatesPrecedence` | utils/currency_converter.py:39 | `conversion_rates` is used unless missing or empty, then `rates` |
| `CurrencyConverter.PrimaryErrorsEscape` | utils/currency_converter.py:40-43 | missing rates raise RuntimeError and an unknown target raises ValueError, without asking the fallback |
| `CurrencyConverter.FallbackTable` | utils/currency_converter.py:51-68 | transport error → ConnectionError with its text; non-200 → RuntimeError showing the status and the body; 200 with a body that is not JSON → the decoder's ValueError; rate present → amount × rate; rates missing or without the target → ValueError naming the target |
| `CurrencyConverter.SuccessIsAmountTimesRate` | utils/currency_converter.py:44-66 | every result is the amount times a rate one of the providers gave for the target |
| `CurrencyConverterTool.NewCurrencyConverterTool` | tools/currency_converter_tool.py:4-7 | the tool's key is EXCHANGE_API_KEY and its converter is built with it |
| `CurrencyConverterTool.ConvertCurrency` | tools/currency_converter_tool.py:13-23 | `convert_currency`: the converter's result, or its exception as text (see the rows below) |
| `CurrencyConverterTool.ConvertCurrencyNeverRaises` | tools/currency_converter_tool.py:18-23 | a success passes through unchanged; every error becomes `"Currency conversion failed: "` + its message |
| `CurrencyConverterTool.RequestKeyReachesProvider` | tools/currency_converter_tool.py:15-19 | a per-request key is what the primary provider sees; without one the environment's key is used, and with neither the primary is skipped |
| `CurrencyConverterTool.NoKeyFallbackDown` | tools/currency_converter_tool.py:18-23 | with no key and a fallback outage the tool answers with the connection error's text |
| `ModelLoaders.ModelLoader.constructor` | utils/model_loaders.py:18-24 | the provider is stored and the configuration is loaded at construction |
| `ModelLoaders.ModelLoader.LoadLlm` | utils/model_loaders.py:29-82 | loads the configuration if unset; ends with the provider and the result that `Resolve` gives |
| `ModelLoaders.Resolve` | utils/model_loaders.py:29-82 | what `load_llm` ends with: the provider after fallback and the model or error (the rows below state its cases) |
| `ModelLoaders.Kwargs` | utils/model_loaders.py:46-60 | the keyword arguments for `init_chat_model` (stated by `GenericArguments`) |
| `ModelLoaders.Build` | utils/model_loaders.py:41-76 | Groq or the generic factory for a usable entry, AttributeError for a null one (stated by `GroqPath` and `AttributeErrorOnlyForNullGoogle`) |
| `ModelLoaders.ProviderKeptOrGoogle` | utils/model_loaders.py:35-38 | a provider with a usable entry is kept; otherwise the provider becomes `google` |
| `ModelLoaders.FallbackIsGoogle` | utils/model_loaders.py:36-39 | falling back loads exactly as a request for `google` would |
| `ModelLoaders.KeyErrorsNameProvider` | utils/model_loaders.py:35-79 | a missing `llm` section names the requested provider; a missing `google` on fallback names `google` |
| `ModelLoaders.GenericArguments` | utils/model_loaders.py:41-60 | the entry's model name and provider, temperature 0.1, 2000 tokens; `base_url` iff truthy; `api_key` iff deepseek or mistral, from its own variable; no other keys |
| `ModelLoaders.ApiKeyAfterFallback` | utils/model_loaders.py:38-60 | the api_key choice uses the provider after fallback, so a fallen-back deepseek request gets no key |
| `ModelLoaders.GroqPath` | utils/model_loaders.py:62-72 | Groq raises ValueError iff GROQ_API_KEY is not truthy; else it builds with temperature 0.0 and 5 retries, without base_url |
| `ModelLoaders.AttributeErrorOnlyForNullGoogle` | utils/model_loaders.py:39-82 | AttributeError arises iff the fallback reaches a null `google` entry |
| `AgenticWorkflow.CatalogueContents` | Agent/agentic_workflow.py:21-26 | twelve distinct tools: weather, place search, arithmetic, currency; no expense tool |
| `AgenticWorkflow.ModelInput` | Agent/agentic_workflow.py:41-42 | the model sees the system prompt first, then the conversation unchanged |
| `AgenticWorkflow.GraphBuilder.Init` | Agent/agentic_workflow.py:15-30 | the tool objects come from the environment; the catalogue is extended in group order and bound to the model |
| `AgenticWorkflow.NewGraphBuilder` | Agent/agentic_workflow.py:12-14 | a load error escapes; otherwise the builder holds the resolved model and provider and the catalogue, which is also bound to the model |
| `AgenticWorkflow.NewDefaultGraphBuilder` | Agent/agentic_workflow.py:12 | without an argument the builder loads the `deepseek` provider, with the same outcome as `NewGraphBuilder` for it |
| `AgenticWorkflow.GraphBuilder.AgentFunction` | Agent/agentic_workflow.py:33-44 | the update is exactly one AI message carrying the model's reply to the prompted conversation |
| `AgenticWorkflow.GraphBuilder.BuildGraph` | Agent/agentic_workflow.py:46-54 | the tool node gets the catalogue; START → agent and tools → agent whatever the route, agent routed to tools or END, nothing after END; with memory |
| `AgenticWorkflow.EdgeTarget` | Agent/agentic_workflow.py:51-53 | no fixed edge leaves a node iff none of the edges starts there |
| `AgenticWorkflow.RunAppendsOnly` | Agent/agentic_workflow.py:44-53 | a run of the graph only appends to the conversation and never adds a system message |
| `AgenticWorkflow.Run` | Agent/agentic_workflow.py:46-54 | the compiled graph run from START: the agent appends its reply, and the routing function ends the run or sends it through the tool node and back; its properties are the lemmas below |
| `AgenticWorkflow.RunEndsWithoutToolCalls` | Agent/agentic_workflow.py:52 | under `tools_condition`, an answer without tool calls ends the run, which has added exactly that answer |
| `AgenticWorkflow.RunBeginsWithAnswer` | Agent/agentic_workflow.py:43-53 | whatever the routing decides, a run with fuel left begins with the model's answer to the prompted conversation |
| `AgenticWorkflow.RunCallsToolsThenModel` | Agent/agentic_workflow.py:50-53 | under `tools_condition`, an answer with tool calls is followed by the tool node's messages and then by the model's answer to the conversation holding them |
| `AgenticWorkflow.AgentStepAppendsReply` | Agent/agentic_workflow.py:44 | one agent step adds one AI message and no system message |
| `ExportPlan.Wrap` | scripts/export_plan.py:26-33 | a line is drawn as a number of strings: one if it has at most 100 characters, else one per started 100 |
| `ExportPlan.WrapConcat` | scripts/export_plan.py:28-29 | the drawn pieces of a line concatenate to the line |
| `ExportPlan.WrapSizes` | scripts/export_plan.py:26-33 | a line of at most 100 characters (the empty line too) is one string; a longer one gives at least two pieces of 1 to 100 characters |
| `ExportPlan.Draws` | scripts/export_plan.py:28-30 | one draw call per piece |
| `ExportPlan.DrawLine` | scripts/export_plan.py:22-33 | the page-break check and the chunk loop make exactly the calls of `LineStep` and end at its y |
| `ExportPlan.MdToPdfSimple` | scripts/export_plan.py:4-36 | the paragraph and line loops make exactly the calls of `Render`, ending with the save |
| `ExportPlan.DrawLines` | scripts/export_plan.py:21-33 | the line loop of one paragraph makes exactly the calls of `LinesStep` and ends at its y |
| `ExportPlan.Render` | scripts/export_plan.py:14-36 | every canvas call for a document, in order: paragraphs split on blank lines, lines, pieces, page breaks, then the save |
| `ExportPlan.RunExport` | scripts/export_plan.py:39-51 | exit 1 with fewer than two arguments, exit 2 for a missing input before any layout, else exit 0 with the rendered calls |
| `ExportPlan.RenderAtMargin` | scripts/export_plan.py:16-36 | every string is drawn at x = 40, and the last call is the save |
| `ExportPlan.RenderTexts` | scripts/export_plan.py:20-33 | the drawn strings are the pieces of every line of every paragraph, in order |
| `ExportPlan.LineStepHeights` | scripts/export_plan.py:22-33 | from y ≥ 40 a line adds no page and lowers y by 12 per piece; from below 40 it first shows a page and restarts at height − 40 |
| `ExportPlan.FirstPieceAboveMargin` | scripts/export_plan.py:22-24 | on a page at least 80 high the first piece of each line is drawn at y ≥ 40 |
| `ExportPlan.EmptyParagraphSpace` | scripts/export_plan.py:34 | an empty paragraph draws nothing but still lowers y by 12 |
| `ExportPlan.WrappedLineBelowMargin` | scripts/export_plan.py:22-30 | a 201-character line started at y = 40 is drawn at 40, 28 and 16, below the margin |
| `SetupRequirements.GetRequirements` | setup.py:5-17 | a missing file gives the empty list; otherwise the loop returns `Requirements` of the lines |
| `SetupRequirements.Requirements` | setup.py:10-13 | the stripped lines that are neither empty nor `-e .`, in file order (stated by the rows below) |
| `SetupRequirements.RequirementsMembership` | setup.py:10-13 | a requirement is listed iff some line strips to it and it is neither empty nor `-e .` |
| `SetupRequirements.RequirementsClean` | setup.py:11-12 | every listed requirement is already stripped, non-empty and not `-e .` |
| `SetupRequirements.RequirementsAppend` | setup.py:10-13 | file order is kept: the requirements of a + b are those of a, then those of b |
| `SetupRequirements.RequirementsBound` | setup.py:10-13 | never more requirements than lines |
| `ExpenseCalculator.Multiply` | utils/expense_calculator.py:5-22 | `num1 * num2` |
| `ExpenseCalculator.Add` | utils/expense_calculator.py:25-42 | `num1 + num2` |
| `ExpenseCalculator.CalculateTotal` | utils/expense_calculator.py:46-58 | `sum(x)` from the left, 0 for no values (stated by `TotalAppend`) |
| `ExpenseCalculator.CalculateDailyBudget` | utils/expense_calculator.py:61-74 | for days > 0 the budget times days is the total; otherwise 0, with no division |
| `ExpenseCalculator.TotalAppend` | utils/expense_calculator.py:46-58 | the total of two lists together is the sum of their totals |
| `ExpenseCalculator.TotalRotate` | utils/expense_calculator.py:58 | moving an expense from the front to the back keeps the total |
| `ExpenseCalculator.DailyBudgetOfTotal` | utils/expense_calculator.py:58-74 | the daily budget of a total, multiplied back by the days, is the total |
| `ExpenseCalculator.DailyBudgetOfCombined` | utils/expense_calculator.py:25-74 | the daily budget of two lists of expenses together is the sum of their daily budgets |
| `ExpenseCalculatorTool.EstimateHotelCost` | tools/expense_calculator_tool.py:13-15 | the nightly price times the days, through `Calculator.multiply` |
| `ExpenseCalculatorTool.CalculateTotalExpense` | tools/expense_calculator_tool.py:17-19 | the ticket price times the days, through `Calculator.multiply` |
| `ExpenseCalculatorTool.DailyBudget` | tools/expense_calculator_tool.py:21-23 | `Calculator.calculate_daily_budget` of its arguments |
| `ExpenseCalculatorTool.HotelCostPerNight` | tools/expense_calculator_tool.py:13-15 | zero days cost nothing, one day costs the nightly price, and stays add up |
| `ExpenseCalculatorTool.BudgetOfPerDayCosts` | tools/expense_calculator_tool.py:13-23 | the daily budget of a hotel stay or trip expense over a positive number of days is the nightly or ticket price; with no days it is 0 |
| `ExpenseCalculatorTool.DailyBudgetDelegates` | tools/expense_calculator_tool.py:21-23 | total/days for days > 0, else 0 |
| `ExpenseCalculatorTool.ExportedTools` | tools/expense_calculator_tool.py:24 | exactly three distinct tools, in order |
| `ArithmeticOperationsTool.Multiply` | tools/arithematic_operations_tool.py:13-24 | `a * b` |
| `ArithmeticOperationsTool.Add` | tools/arithematic_operations_tool.py:27-38 | `a + b` |
| `ArithmeticOperationsTool.Subtract` | tools/arithematic_operations_tool.py:41-52 | `a - b` (stated by `SubtractUndoesAdd`) |
| `ArithmeticOperationsTool.Divide` | tools/arithematic_operations_tool.py:55-68 | a number iff the divisor is non-zero, and quotient × divisor is the dividend; else the text `"Error: Division by zero"` |
| `ArithmeticOperationsTool.SubtractUndoesAdd` | tools/arithematic_operations_tool.py:24-52 | subtracting what was added gives back the first number; swapping subtract's arguments negates it |
| `ArithmeticOperationsTool.DivideUndoesMultiply` | tools/arithematic_operations_tool.py:24-68 | dividing a product by a non-zero factor gives back the other factor |
| `ArithmeticOperationsTool.DivideByZeroIsText` | tools/arithematic_operations_tool.py:66-67 | a zero divisor gives the same error text whatever the dividend |
| `ArithmeticOperationsTool.ExportedTools` | tools/arithematic_operations_tool.py:70 | four distinct tools: multiply, add, subtract, divide |
| `Exceptions.NewAppException` | exception/exceptions.py:1-21 | records the message, and the given status or the class's default |
| `Exceptions.DefaultStatuses` | exception/exceptions.py:3-19 | 500 for the base class, 400 for provider errors, 500 for tool and configuration errors; every class is a BaseAppException |
| `Exceptions.Handle` | exception/exception_handler.py:8-34 | the registered handlers as a map from what was raised to status and error text (stated by the rows below) |
| `Exceptions.AppStatusKept` | exception/exception_handler.py:11-26 | an app exception keeps its status code; a provider error's message gets the `"Provider API Error: "` prefix |
| `Exceptions.OtherIsOpaque` | exception/exception_handler.py:28-34 | any other exception answers 500 with a fixed message that does not depend on the exception |
| `Exceptions.DefaultResponses` | exception/exceptions.py:8-21 | raised with default status, provider errors answer 400 and the other classes 500 |
| `Text.Contains` | utils/place_info_search.py:26 | `sub in s` holds exactly when `sub` occurs at some position |
| `Text.JoinSplit` | utils/place_info_search.py:60 | joining the pieces of `s.split(sep)` with `sep` gives back `s` |
| `Text.LastPieceAfterColon` | utils/place_info_search.py:60 | the last `": "` piece of `a + ": " + b` is `b` when `b` has no `": "` |
| `Text.Lower` | utils/place_info_search.py:26 | lower-casing keeps the length and maps each character |
| `Text.StripIdempotent` | setup.py:11 | stripping twice is stripping once |

## Left out

- Network I/O is not modelled: the `httpx` calls, the weather service, the exchange-rate providers, and the SerpAPI and Tavily SDK calls. Their answers are inputs to the model.
- async/await is not modelled: every tool runs sequentially.
- IEEE floating point is not modelled: amounts, rates, prices and temperatures are exact `real`s. A forecast temperature is printed through a `show` parameter. Current-weather values arrive already rendered as text. The A4 page height is a parameter.
- The chat model, `bind_tools`, LangGraph's `ToolNode` and `MemorySaver` are library code. They are parameters or recorded values. AgenticWorkflow.Run takes the routing function as a parameter. AgenticWorkflow.ToolsCondition models LangGraph's `tools_condition` for the lemmas that fix it.
- AgenticWorkflow.Run: bounded by `fuel`. LangGraph's recursion-limit error is not modelled.
- AgenticWorkflow.Run: the `MessagesState` reducer only appends. Replacing a message with the same id is not modelled.
- The system prompt's text (prompt_library/prompt.py) is a parameter. main.py, streamlit_app.py, test_app.py and the YAML reading in utils/config_loader.py are not part of this model; the loaded configuration is a `ConfigDoc` input.
- Logging and `print` are not modelled, including the messages in model_loaders.py, setup.py and export_plan.py.
- Python's `splitlines` is modelled for `"\n"` only. `lower()` and `strip()` are modelled for ASCII only.
- tools/weather_info_tool.py:1 and tools/currency_converter_tool.py:1 lack imports (`os`, `load_dotenv`, `tool`, `List`, `CurrencyConverter`). The model treats those names as resolved.
- tools/place_search_tool.py:32 and the lines like it await the synchronous search methods and pass them an `api_key` keyword they do not accept. PlaceSearchTool.SearchTool models only which back-end is chosen and with which per-request key. The search itself is modelled by PlaceInfoSearch.SerpSearch and PlaceInfoSearch.TavilySearch, which take no key.
- The Tavily searches build a fresh `TavilySearch(topic="general", search_depth='advanced')` per call. Its construction parameters are not modelled; the call is the `invoke` parameter.
- WeatherInfoTool.GetWeatherForecast: forecast entries lacking `dt_txt`, `main.temp` or `weather[0].description` raise KeyError in the source. Every modelled entry has all three.
- CurrencyConverter.Convert: a body that is not JSON raises the decoder's ValueError, modelled with a fixed message. JSON bodies that are not objects are not modelled.
- ModelLoaders.Resolve: a configuration that is not a mapping, an `llm` section that is not a mapping, entries with non-string values, and errors raised inside `init_chat_model` or `ChatGroq` are not modelled.
- ModelLoaders.ModelLoader.LoadLlm: in the source the configuration is always set at construction, so the on-demand load never runs after it. The model keeps the branch.
- ExpenseCalculator.CalculateDailyBudget: the source returns the integer 0 for days ≤ 0 and a float otherwise. The model returns the real 0.
- ExportPlan.MdToPdfSimple: a failed `reportlab` import and the reading of the input file are not modelled. The file's text is an input.
- Null or mistyped JSON values where the source calls `.get` or indexes are not modelled. These raise AttributeError or TypeError in the source, and the model has no such error:
  - a `local_results` that is a list or null (utils/place_info_search.py:48);
  - a null `links` (utils/place_info_search.py:51);
  - a null `main`, `wind` or `weather`, or a `weather[0]` that is not a dict (tools/weather_info_tool.py:22-25);
  - a `configurable` or `api_keys` level that is present but null. RunConfig.ApiKey can only express a missing level.
- AgenticWorkflow.ToolsCondition: LangGraph raises ValueError on a conversation with no messages. The model routes it to END. The routing function only ever sees the conversation after the agent has appended its answer, so that case never arises.
- Exceptions.Handle assumes the most specific handler wins: a ProviderAPIError goes to its own handler, not the BaseAppException one.

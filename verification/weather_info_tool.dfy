/**
 * The two weather tools (tools/weather_info_tool.py): current conditions and
 * a five-day summary grouped by date. The weather service's JSON answer is an
 * input; an error from the service arrives as a dict without "main"/"list"
 * (utils/weather_info.py).
 */
module WeatherInfoTool {
  import opened Wrappers
  import opened Text
  import opened RunConfig

  // ---------------------------------------------------------------------------
  // Keys

  /** The tool with the key read from WEATHER_API_KEY at construction. */
  datatype WeatherInfoTool = WeatherInfoTool(apiKey: Option<string>)

  function NewWeatherInfoTool(env: map<string, string>): (tool: WeatherInfoTool)
    ensures tool.apiKey.Some? <==> "WEATHER_API_KEY" in env
    ensures tool.apiKey.Some? ==> tool.apiKey.value == env["WEATHER_API_KEY"]
  {
    WeatherInfoTool(if "WEATHER_API_KEY" in env then Some(env["WEATHER_API_KEY"]) else None)
  }

  /** The per-request key both tools pass to the service. */
  function UserKey(config: RunnableConfig): Option<string>
  {
    ApiKey(config, "weather_api_key")
  }

  /** The exported tools, in order. */
  const ToolNames: seq<string> := ["get_current_weather", "get_weather_forecast"]

  /** The `appid` the service sends: the per-request key when truthy, else the stored key. */
  function RequestKey(tool: WeatherInfoTool, config: RunnableConfig): (k: Option<string>)
    ensures Truthy(UserKey(config)) ==> k == UserKey(config)
    ensures !Truthy(UserKey(config)) ==> k == tool.apiKey
  {
    Or(UserKey(config), tool.apiKey)
  }

  // ---------------------------------------------------------------------------
  // Current weather

  /** Text shown in place of a missing value. */
  const NotAvailable: string := "N/A"

  /** `main`, with each value already in the text the f-string shows. */
  datatype MainBlock = MainBlock(temp: Option<string>, humidity: Option<string>)
  datatype Condition = Condition(description: Option<string>)
  datatype Wind = Wind(speed: Option<string>)

  /** The current-weather JSON; a missing key is `None`. */
  datatype CurrentData = CurrentData(
    main: Option<MainBlock>,
    weather: Option<seq<Condition>>,
    wind: Option<Wind>,
    name: Option<string>)

  /** The service's error dict `{"error": ...}`: none of the keys the tool reads. */
  const ServiceError: CurrentData := CurrentData(None, None, None, None)

  /** Exceptions the tool body can raise. */
  datatype Raised = IndexError

  function OrNA(v: Option<string>): string
  {
    if v.Some? then v.value else NotAvailable
  }

  function CurrentLine(name: string, temp: string, desc: string, humidity: string, wind: string): string
  {
    "Current Weather in " + name + ": " + temp + "°C, " + desc +
    " (Humidity: " + humidity + "%, Wind: " + wind + " m/s)"
  }

  function CurrentFailure(city: string): string
  {
    "Couldn't fetch current weather for " + city + "."
  }

  /**
   * `get_current_weather` after the service call. An empty "weather" list makes
   * `[0]` raise IndexError; a missing one defaults to `[{}]`.
   */
  function CurrentWeather(city: string, data: CurrentData): Result<string, Raised>
  {
    if data.main.None? then Ok(CurrentFailure(city))
    else
      var conditions := if data.weather.Some? then data.weather.value else [Condition(None)];
      if conditions == [] then Err(IndexError)
      else
        Ok(CurrentLine(
          if data.name.Some? then data.name.value else city,
          OrNA(data.main.value.temp),
          OrNA(conditions[0].description),
          OrNA(data.main.value.humidity),
          if data.wind.Some? then OrNA(data.wind.value.speed) else NotAvailable))
  }

  /** Without "main" the answer is the fixed failure text; the service's error dict lands here. */
  lemma CurrentWeatherWithoutMain(city: string, data: CurrentData)
    requires data.main.None?
    ensures CurrentWeather(city, data) == Ok("Couldn't fetch current weather for " + city + ".")
    ensures CurrentWeather(city, ServiceError) == Ok("Couldn't fetch current weather for " + city + ".")
  {
  }

  /** Every missing value reads "N/A", and a missing name gives the requested city. */
  lemma CurrentWeatherDefaults(city: string, main: MainBlock)
    requires main.temp.None? && main.humidity.None?
    ensures CurrentWeather(city, CurrentData(Some(main), None, None, None)) ==
      Ok(CurrentLine(city, NotAvailable, NotAvailable, NotAvailable, NotAvailable))
    ensures CurrentWeather(city, CurrentData(Some(main), Some([Condition(None)]), Some(Wind(None)), None)) ==
      CurrentWeather(city, CurrentData(Some(main), None, None, None))
  {
  }

  /** With every value present, each appears in its place and the service's name replaces the city. */
  lemma CurrentWeatherAllPresent(city: string, name: string, temp: string, humidity: string, desc: string,
                                 speed: string, more: seq<Condition>)
    ensures CurrentWeather(city, CurrentData(Some(MainBlock(Some(temp), Some(humidity))),
                                             Some([Condition(Some(desc))] + more), Some(Wind(Some(speed))), Some(name))) ==
      Ok(CurrentLine(name, temp, desc, humidity, speed))
  {
  }

  /** Among the modelled shapes of the answer, the one failure: "main" present and an empty "weather" list. */
  lemma CurrentWeatherRaises(city: string, data: CurrentData)
    ensures CurrentWeather(city, data).Err? <==> data.main.Some? && data.weather == Some([])
  {
  }

  // ---------------------------------------------------------------------------
  // Forecast

  /** One 3-hour forecast entry: `dt_txt`, `main.temp`, `weather[0].description`. */
  datatype ForecastEntry = ForecastEntry(dtTxt: string, temp: real, description: string)

  /** The forecast JSON: `list` is `None` when the key is missing (the service's error dict). */
  datatype ForecastData = ForecastData(list: Option<seq<ForecastEntry>>)

  /** The per-day record of `daily_stats`. */
  datatype DayStats = DayStats(min: real, max: real, desc: string)

  /** `dt_txt.split(' ')[0]`. */
  function DateKey(dtTxt: string): string
  {
    Split(dtTxt, " ")[0]
  }

  /** The date key is the text before the first space, or all of `dt_txt` when it has none. */
  lemma DateKeyIsDatePart(dtTxt: string)
    ensures var k := DateKey(dtTxt);
      |k| <= |dtTxt| && k == dtTxt[..|k|] && ' ' !in k &&
      (|k| < |dtTxt| ==> dtTxt[|k|] == ' ')
  {
    SplitAtChar(dtTxt, ' ');
  }

  function Dates(es: seq<ForecastEntry>): (ds: seq<string>)
    ensures |ds| == |es|
    ensures forall i :: 0 <= i < |es| ==> ds[i] == DateKey(es[i].dtTxt)
  {
    seq(|es|, i requires 0 <= i < |es| => DateKey(es[i].dtTxt))
  }

  /** The keys of a dict filled in the order given: each value at its first appearance. */
  function Distinct(xs: seq<string>): seq<string>
  {
    if xs == [] then []
    else
      var d := Distinct(xs[..|xs| - 1]);
      if xs[|xs| - 1] in d then d else d + [xs[|xs| - 1]]
  }

  function Min(a: real, b: real): real { if a <= b then a else b }
  function Max(a: real, b: real): real { if a >= b then a else b }

  /** The record the grouping loop holds for date d after the given entries (None if d never occurred). */
  function DayStatsOf(es: seq<ForecastEntry>, d: string): Option<DayStats>
  {
    if es == [] then None
    else
      var e := es[|es| - 1];
      var prev := DayStatsOf(es[..|es| - 1], d);
      if DateKey(e.dtTxt) != d then prev
      else if prev.None? then Some(DayStats(e.temp, e.temp, e.description))
      else Some(DayStats(Min(prev.value.min, e.temp), Max(prev.value.max, e.temp), prev.value.desc))
  }

  /** One more entry changes the record of its own date only. */
  lemma DayStatsStep(es: seq<ForecastEntry>, e: ForecastEntry, d: string)
    ensures DayStatsOf(es + [e], d) ==
      if DateKey(e.dtTxt) != d then DayStatsOf(es, d)
      else if DayStatsOf(es, d).None? then Some(DayStats(e.temp, e.temp, e.description))
      else Some(DayStats(Min(DayStatsOf(es, d).value.min, e.temp), Max(DayStatsOf(es, d).value.max, e.temp),
                         DayStatsOf(es, d).value.desc))
  {
    assert (es + [e])[..|es|] == es;
  }

  /** What the grouping loop holds after the entries `es`: the key order and one record per date seen. */
  ghost predicate Grouped(es: seq<ForecastEntry>, order: seq<string>, stats: map<string, DayStats>)
  {
    && order == Distinct(Dates(es))
    && (forall d :: d in stats <==> d in order)
    && (forall d :: d in stats ==> DayStatsOf(es, d) == Some(stats[d]))
    && (forall d :: d !in stats ==> DayStatsOf(es, d) == None)
  }

  /** One turn of the grouping loop keeps `Grouped`. */
  lemma GroupedStep(es: seq<ForecastEntry>, e: ForecastEntry, order: seq<string>, stats: map<string, DayStats>,
                    order': seq<string>, stats': map<string, DayStats>)
    requires Grouped(es, order, stats)
    requires DateKey(e.dtTxt) !in stats ==>
      order' == order + [DateKey(e.dtTxt)] && stats' == stats[DateKey(e.dtTxt) := DayStats(e.temp, e.temp, e.description)]
    requires DateKey(e.dtTxt) in stats ==>
      order' == order &&
      stats' == stats[DateKey(e.dtTxt) := DayStats(Min(stats[DateKey(e.dtTxt)].min, e.temp),
                                                   Max(stats[DateKey(e.dtTxt)].max, e.temp), stats[DateKey(e.dtTxt)].desc)]
    ensures Grouped(es + [e], order', stats')
  {
    var date := DateKey(e.dtTxt);
    var es' := es + [e];
    assert Dates(es')[..|es|] == Dates(es);
    assert Dates(es')[|es|] == date;
    assert order' == Distinct(Dates(es')) by {
      assert date in order <==> date in stats;
    }
    assert forall d :: d in stats' <==> d in order';
    forall d | d in stats'
      ensures DayStatsOf(es', d) == Some(stats'[d])
    {
      DayStatsStep(es, e, d);
    }
    forall d | d !in stats'
      ensures DayStatsOf(es', d) == None
    {
      DayStatsStep(es, e, d);
    }
  }

  /** The grouping loop of `get_weather_forecast`: `daily_stats` and its insertion order. */
  method GroupByDay(entries: seq<ForecastEntry>) returns (order: seq<string>, stats: map<string, DayStats>)
    ensures order == Distinct(Dates(entries))
    ensures forall d :: d in stats <==> d in order
    ensures forall d :: d in stats ==> DayStatsOf(entries, d) == Some(stats[d])
  {
    order, stats := [], map[];
    var i := 0;
    while i < |entries|
      invariant 0 <= i <= |entries|
      invariant Grouped(entries[..i], order, stats)
    {
      var entry := entries[i];
      var date := DateKey(entry.dtTxt);
      var temp := entry.temp;
      ghost var (order0, stats0) := (order, stats);
      if date !in stats {
        stats := stats[date := DayStats(temp, temp, entry.description)];
        order := order + [date];
      } else {
        var s := stats[date];
        stats := stats[date := DayStats(Min(s.min, temp), Max(s.max, temp), s.desc)];
      }
      GroupedStep(entries[..i], entry, order0, stats0, order, stats);
      assert entries[..i + 1] == entries[..i] + [entry];
      i := i + 1;
    }
    assert entries[..i] == entries;
  }

  function ForecastHeader(city: string): string
  {
    "5-Day Forecast for " + city + ":"
  }

  function DayLine(date: string, s: DayStats, show: real -> string): string
  {
    "- " + date + ": High " + show(s.max) + "°C, Low " + show(s.min) + "°C (" + s.desc + ")"
  }

  /** One summary line per listed date that has a record. */
  function DayLines(dates: seq<string>, es: seq<ForecastEntry>, show: real -> string): seq<string>
  {
    if dates == [] then []
    else
      var d := dates[|dates| - 1];
      DayLines(dates[..|dates| - 1], es, show) +
        (match DayStatsOf(es, d) case Some(s) => [DayLine(d, s, show)] case None => [])
  }

  /** The lines of the forecast answer: the header, then the first five days in first-seen order. */
  function ForecastLines(city: string, es: seq<ForecastEntry>, show: real -> string): seq<string>
  {
    [ForecastHeader(city)] + DayLines(Take(Distinct(Dates(es)), 5), es, show)
  }

  function ForecastFailure(city: string): string
  {
    "Couldn't fetch forecast for " + city + "."
  }

  /**
   * `get_weather_forecast` after the service call. `show` is how the answer
   * prints a temperature.
   */
  method GetWeatherForecast(city: string, data: ForecastData, show: real -> string) returns (text: string)
    ensures data.list.None? ==> text == ForecastFailure(city)
    ensures data.list.Some? ==> text == Join(ForecastLines(city, data.list.value, show), "\n")
  {
    if data.list.None? {
      return ForecastFailure(city);
    }
    var entries := data.list.value;
    var order, stats := GroupByDay(entries);
    var summary := [ForecastHeader(city)];
    var days := Take(order, 5);
    var k := 0;
    while k < |days|
      invariant 0 <= k <= |days|
      invariant summary == [ForecastHeader(city)] + DayLines(days[..k], entries, show)
    {
      var date := days[k];
      assert days[..k + 1][..k] == days[..k];
      assert date in stats;
      summary := summary + [DayLine(date, stats[date], show)];
      k := k + 1;
    }
    assert days[..k] == days;
    text := Join(summary, "\n");
  }

  // ---------------------------------------------------------------------------
  // Properties of the grouping

  /** A date has a record exactly when some entry falls on it. */
  lemma {:induction false} DayStatsPresent(es: seq<ForecastEntry>, d: string)
    ensures DayStatsOf(es, d).Some? <==> d in Dates(es)
  {
    if es != [] {
      var init := es[..|es| - 1];
      DayStatsPresent(init, d);
      assert Dates(es) == Dates(init) + [DateKey(es[|es| - 1].dtTxt)];
    }
  }

  /** lo and hi are the least and greatest temperature among the entries of date d. */
  ghost predicate Spans(es: seq<ForecastEntry>, d: string, lo: real, hi: real)
  {
    lo <= hi &&
    (forall i :: 0 <= i < |es| && DateKey(es[i].dtTxt) == d ==> lo <= es[i].temp <= hi) &&
    (exists i :: 0 <= i < |es| && DateKey(es[i].dtTxt) == d && es[i].temp == lo) &&
    (exists i :: 0 <= i < |es| && DateKey(es[i].dtTxt) == d && es[i].temp == hi)
  }

  /** An entry of another date leaves the span of d as it was. */
  lemma SpansOther(es: seq<ForecastEntry>, e: ForecastEntry, d: string, lo: real, hi: real)
    requires Spans(es, d, lo, hi) && DateKey(e.dtTxt) != d
    ensures Spans(es + [e], d, lo, hi)
  {
    var p :| 0 <= p < |es| && DateKey(es[p].dtTxt) == d && es[p].temp == lo;
    var q :| 0 <= q < |es| && DateKey(es[q].dtTxt) == d && es[q].temp == hi;
    assert (es + [e])[p] == es[p] && (es + [e])[q] == es[q];
  }

  /** The first entry of date d spans d on its own. */
  lemma SpansFirst(es: seq<ForecastEntry>, e: ForecastEntry, d: string)
    requires d !in Dates(es) && DateKey(e.dtTxt) == d
    ensures Spans(es + [e], d, e.temp, e.temp)
  {
    assert forall i :: 0 <= i < |es| ==> Dates(es)[i] != d;
    assert (es + [e])[|es|] == e;
  }

  /** A further entry of date d widens the span of d to take in its temperature. */
  lemma SpansWiden(es: seq<ForecastEntry>, e: ForecastEntry, d: string, lo: real, hi: real)
    requires Spans(es, d, lo, hi) && DateKey(e.dtTxt) == d
    ensures Spans(es + [e], d, Min(lo, e.temp), Max(hi, e.temp))
  {
    var es' := es + [e];
    var p :| 0 <= p < |es| && DateKey(es[p].dtTxt) == d && es[p].temp == lo;
    var q :| 0 <= q < |es| && DateKey(es[q].dtTxt) == d && es[q].temp == hi;
    assert es'[p] == es[p] && es'[q] == es[q] && es'[|es|] == e;
    forall i | 0 <= i < |es'| && DateKey(es'[i].dtTxt) == d
      ensures Min(lo, e.temp) <= es'[i].temp <= Max(hi, e.temp)
    {
      if i < |es| {
        assert es'[i] == es[i];
      }
    }
  }

  /**
   * A day's low and high are the least and greatest temperature among the
   * entries of that date: every entry lies between them and both are attained.
   */
  lemma {:induction false} DayStatsBounds(es: seq<ForecastEntry>, d: string)
    requires DayStatsOf(es, d).Some?
    ensures var s := DayStatsOf(es, d).value;
      s.min <= s.max &&
      (forall i :: 0 <= i < |es| && DateKey(es[i].dtTxt) == d ==> s.min <= es[i].temp <= s.max) &&
      (exists i :: 0 <= i < |es| && DateKey(es[i].dtTxt) == d && es[i].temp == s.min) &&
      (exists i :: 0 <= i < |es| && DateKey(es[i].dtTxt) == d && es[i].temp == s.max)
  {
    var init := es[..|es| - 1];
    var e := es[|es| - 1];
    assert es == init + [e];
    var prev := DayStatsOf(init, d);
    if DateKey(e.dtTxt) != d {
      DayStatsBounds(init, d);
      SpansOther(init, e, d, prev.value.min, prev.value.max);
    } else if prev.None? {
      DayStatsPresent(init, d);
      SpansFirst(init, e, d);
    } else {
      DayStatsBounds(init, d);
      SpansWiden(init, e, d, prev.value.min, prev.value.max);
    }
  }

  /** A day's description is that of its first entry; later entries never overwrite it. */
  lemma {:induction false} DayStatsFirstDescription(es: seq<ForecastEntry>, d: string)
    requires DayStatsOf(es, d).Some?
    ensures exists i :: (0 <= i < |es| && DateKey(es[i].dtTxt) == d &&
      (forall j :: 0 <= j < i ==> DateKey(es[j].dtTxt) != d) &&
      DayStatsOf(es, d).value.desc == es[i].description)
  {
    var init := es[..|es| - 1];
    var e := es[|es| - 1];
    var prev := DayStatsOf(init, d);
    if prev.Some? {
      DayStatsFirstDescription(init, d);
      var i :| 0 <= i < |init| && DateKey(init[i].dtTxt) == d &&
        (forall j :: 0 <= j < i ==> DateKey(init[j].dtTxt) != d) &&
        prev.value.desc == init[i].description;
      assert es[i] == init[i];
      assert forall j :: 0 <= j < i ==> es[j] == init[j];
    } else {
      DayStatsPresent(init, d);
      forall j | 0 <= j < |init| ensures DateKey(es[j].dtTxt) != d {
        assert Dates(init)[j] == DateKey(init[j].dtTxt);
        assert es[j] == init[j];
      }
    }
  }

  // ---------------------------------------------------------------------------
  // Properties of the first-seen order

  /** Position of the first occurrence. */
  function FirstIndex(xs: seq<string>, x: string): (k: nat)
    requires x in xs
    ensures k < |xs| && xs[k] == x && forall j :: 0 <= j < k ==> xs[j] != x
  {
    if xs[0] == x then 0 else 1 + FirstIndex(xs[1..], x)
  }

  lemma {:induction false} FirstIndexAppend(xs: seq<string>, y: string, x: string)
    requires x in xs
    ensures FirstIndex(xs + [y], x) == FirstIndex(xs, x)
  {
    if xs[0] != x {
      assert (xs + [y])[1..] == xs[1..] + [y];
      FirstIndexAppend(xs[1..], y, x);
    }
  }

  lemma {:induction false} FirstIndexLast(xs: seq<string>, y: string)
    requires y !in xs
    ensures FirstIndex(xs + [y], y) == |xs|
  {
    assert forall j :: 0 <= j < |xs| ==> (xs + [y])[j] != y;
  }

  /**
   * The day order lists every date exactly once, and in the order of each
   * date's first appearance.
   */
  lemma {:induction false} DistinctOrder(xs: seq<string>)
    ensures forall x :: x in Distinct(xs) <==> x in xs
    ensures forall p, q :: 0 <= p < q < |Distinct(xs)| ==> Distinct(xs)[p] != Distinct(xs)[q]
    ensures forall p, q :: 0 <= p < q < |Distinct(xs)| ==>
      FirstIndex(xs, Distinct(xs)[p]) < FirstIndex(xs, Distinct(xs)[q])
  {
    if xs != [] {
      var init := xs[..|xs| - 1];
      var y := xs[|xs| - 1];
      assert xs == init + [y];
      DistinctOrder(init);
      var d := Distinct(init);
      forall x | x in init {
        FirstIndexAppend(init, y, x);
      }
      if y !in d {
        FirstIndexLast(init, y);
      }
    }
  }

  /** Each listed date yields one line, so the answer has one line per day, at most five. */
  lemma {:induction false} DayLinesLength(dates: seq<string>, es: seq<ForecastEntry>, show: real -> string)
    requires forall d :: d in dates ==> d in Dates(es)
    ensures |DayLines(dates, es, show)| == |dates|
  {
    if dates != [] {
      DayLinesLength(dates[..|dates| - 1], es, show);
      DayStatsPresent(es, dates[|dates| - 1]);
    }
  }

  /** The answer is the header followed by one line for each of the first five days, at most five. */
  lemma ForecastLineCount(city: string, es: seq<ForecastEntry>, show: real -> string)
    ensures var n := |Distinct(Dates(es))|;
      |ForecastLines(city, es, show)| == 1 + (if n < 5 then n else 5)
    ensures ForecastLines(city, es, show)[0] == "5-Day Forecast for " + city + ":"
  {
    var days := Take(Distinct(Dates(es)), 5);
    DistinctOrder(Dates(es));
    forall d | d in days ensures d in Dates(es) {
      var k :| 0 <= k < |days| && days[k] == d;
      assert Distinct(Dates(es))[k] == d;
    }
    DayLinesLength(days, es, show);
  }
}

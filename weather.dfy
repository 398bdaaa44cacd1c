/** The two weather tools (src/component/weather.ts): their input schemas,
    and the `get-alerts` and `get-forecast` handlers as decision trees over
    the outcomes of the adapter they await. A handler either returns a tool
    result holding one text block, or lets the adapter's error escape. */
module Weather {
  import opened Js
  import opened Strings
  import opened Nws

  // ---- the tool-result envelope ----

  const TEXT: string := "text"

  datatype ContentBlock = ContentBlock(kind: string, text: string)

  datatype CallToolResult = CallToolResult(content: seq<ContentBlock>)

  /** How one invocation of a tool ends: a result, an error escaping the
      handler, or input the schema refused before the handler ran. */
  datatype HandlerOutcome = Returned(result: CallToolResult) | Raised(message: string) | Rejected

  /** The URLs handed to the adapter, in order, and the outcome. */
  datatype ToolRun = ToolRun(fetched: seq<string>, outcome: HandlerOutcome)

  function TextResult(t: string): CallToolResult
  {
    CallToolResult([ContentBlock(TEXT, t)])
  }

  /** The outcome returns the single text block `t`. */
  predicate ReturnsText(o: HandlerOutcome, t: string)
  {
    o == Returned(TextResult(t))
  }

  predicate SingleTextBlock(r: CallToolResult)
  {
    |r.content| == 1 && r.content[0].kind == TEXT
  }

  // ---- input schemas ----

  /** `z.string().length(2)` */
  predicate AlertsInputValid(state: string)
  {
    |state| == 2
  }

  /** `z.number().min(-90).max(90)` and `z.number().min(-180).max(180)` */
  predicate ForecastInputValid(latitude: real, longitude: real)
  {
    -90.0 <= latitude <= 90.0 && -180.0 <= longitude <= 180.0
  }

  // ---- shared report layout ----

  /** A report: a header line, an empty line, then the rendered blocks. */
  function Report(header: string, rendered: seq<string>): string
  {
    header + "\n\n" + Join(rendered, "\n")
  }

  /** A report of single-line pieces splits into its header, the empty
      line, and every line of every block in order. */
  lemma {:induction false} ReportLines(header: string, blocks: seq<seq<string>>)
    requires '\n' !in header
    requires |blocks| >= 1
    requires forall i :: 0 <= i < |blocks| ==> |blocks[i]| >= 1 && Free(blocks[i], '\n')
    ensures Split(Report(header, JoinEach(blocks, "\n")), '\n') == [header, ""] + Flatten(blocks)
  {
    var flat := Flatten(blocks);
    JoinFlatten(blocks, "\n");
    FlattenFree(blocks, '\n');
    JoinAppend([header, ""], flat, "\n");
    assert Join([header, ""], "\n") == header + "\n" + "";
    assert Report(header, JoinEach(blocks, "\n")) == Join([header, ""] + flat, "\n");
    var lines := [header, ""] + flat;
    assert Free(lines, '\n') by {
      forall i | 0 <= i < |lines| ensures '\n' !in lines[i] {
        if i >= 2 { assert lines[i] == flat[i - 2]; }
      }
    }
    SplitJoin(lines, '\n');
  }

  // ---- get-alerts ----

  const ALERTS_ENDPOINT: string := "https://api.weather.gov/alerts?area="
  const FAILED_TO_RETRIEVE: string := "Failed to retrieve "
  const FAILED_ALERTS: string := FAILED_TO_RETRIEVE + "alerts data"

  function AlertsUrl(code: string): string
  {
    ALERTS_ENDPOINT + code
  }

  function NoAlertsText(code: string): string
  {
    "No active alerts for " + code
  }

  function AlertsHeader(code: string): string
  {
    "Active alerts for " + code + ":"
  }

  /** `features.map(formatAlert).join('\n')` under the header. */
  function AlertsText(code: string, features: seq<AlertFeature>): string
  {
    Report(AlertsHeader(code), seq(|features|, i requires 0 <= i < |features| => FormatAlert(features[i])))
  }

  /** `alertsData.features || []` */
  function FeaturesOf(r: AlertsResponse): (features: seq<AlertFeature>)
    ensures r.features.Some? ==> features == r.features.value
    ensures r.features.None? ==> features == []
  {
    if r.features.Some? then r.features.value else []
  }

  /** The `get-alerts` handler. It fetches once, at the alerts URL of the
      upper-cased state code, and always yields one text block unless the
      adapter throws, whose error then escapes unchanged. A falsy body and
      an empty feature list each have their own fixed message, both naming
      the upper-cased code where a code is shown. */
  function GetAlerts(state: string, fetch: string -> Fetched<AlertsResponse>): (run: ToolRun)
    ensures run.fetched == [AlertsUrl(Upper(state))]
    ensures !run.outcome.Rejected?
    ensures run.outcome.Returned? ==> SingleTextBlock(run.outcome.result)
    ensures var got := fetch(AlertsUrl(Upper(state)));
      && (run.outcome.Raised? <==> got.Threw?)
      && (got.Threw? ==> run.outcome.message == got.message)
      && (ReturnsText(run.outcome, FAILED_ALERTS) <==> got.Falsy?)
      && (ReturnsText(run.outcome, NoAlertsText(Upper(state))) <==> got.Data? && FeaturesOf(got.body) == [])
      && (got.Data? && FeaturesOf(got.body) != [] ==>
            ReturnsText(run.outcome, AlertsText(Upper(state), FeaturesOf(got.body))))
  {
    var code := Upper(state);
    var url := AlertsUrl(code);
    match fetch(url)
    case Threw(m) => ToolRun([url], Raised(m))
    case Falsy => ToolRun([url], Returned(TextResult(FAILED_ALERTS)))
    case Data(alerts) =>
      var features := FeaturesOf(alerts);
      if |features| == 0 then
        assert NoAlertsText(code)[0] == 'N' != FAILED_ALERTS[0];
        ToolRun([url], Returned(TextResult(NoAlertsText(code))))
      else
        var text := AlertsText(code, features);
        assert text[0] == 'A';
        assert NoAlertsText(code)[0] == 'N';
        ToolRun([url], Returned(TextResult(text)))
  }

  /** The alerts report of single-line alerts is its header line, an empty
      line, and then the six lines of each alert, alert after alert in the
      order received. */
  lemma AlertsTextLines(code: string, features: seq<AlertFeature>)
    requires '\n' !in code
    requires |features| >= 1
    requires forall i :: 0 <= i < |features| ==> SingleLine(View(features[i]))
    ensures Split(AlertsText(code, features), '\n') ==
              [AlertsHeader(code), ""] + Flatten(seq(|features|, i requires 0 <= i < |features| => AlertLines(View(features[i]))))
  {
    var blocks := seq(|features|, i requires 0 <= i < |features| => AlertLines(View(features[i])));
    forall i | 0 <= i < |blocks| ensures |blocks[i]| >= 1 && Free(blocks[i], '\n') {
      AlertLinesFree(View(features[i]));
    }
    assert JoinEach(blocks, "\n") == seq(|features|, i requires 0 <= i < |features| => FormatAlert(features[i]));
    NoBreakInConcat("Active alerts for ", code);
    NoBreakInConcat("Active alerts for " + code, ":");
    ReportLines(AlertsHeader(code), blocks);
  }

  /** The tool as the server runs it: the schema is checked first, and
      refused input reaches neither the handler nor the network. */
  function CallGetAlerts(state: string, fetch: string -> Fetched<AlertsResponse>): (run: ToolRun)
    ensures run.outcome.Rejected? <==> !AlertsInputValid(state)
    ensures run.outcome.Rejected? ==> run.fetched == []
    ensures AlertsInputValid(state) ==> run == GetAlerts(state, fetch)
  {
    if AlertsInputValid(state) then GetAlerts(state, fetch) else ToolRun([], Rejected)
  }

  // ---- get-forecast ----

  /** JavaScript's renderings of a number: `${x}` and `x.toFixed(4)`. */
  datatype NumberText = NumberText(show: real -> string, fixed4: real -> string)

  const POINTS_ENDPOINT: string := "https://api.weather.gov/points/"
  const NO_FORECAST_URL: string := "Failed to get forecast URL from grid point data"
  const FAILED_FORECAST: string := FAILED_TO_RETRIEVE + "forecast data"
  const NO_PERIODS: string := "No forecast periods available"
  /** The degree separator exactly as the source spells it (U+00C2 U+00B0). */
  const DEGREE: string := "\U{00C2}\U{00B0}"

  function PointsUrl(latitude: real, longitude: real, num: NumberText): string
  {
    POINTS_ENDPOINT + num.fixed4(latitude) + "," + num.fixed4(longitude)
  }

  function GridPointFailure(latitude: real, longitude: real, num: NumberText): string
  {
    FAILED_TO_RETRIEVE + "grid point data for coordinates: " + num.show(latitude) + ", " + num.show(longitude)
    + ". This location may not be supported by the NWS API (only US locations are supported)."
  }

  /** `pointsData.properties?.forecast`, when truthy. */
  function ForecastUrlOf(p: PointsResponse): (r: Option<string>)
    ensures r.Some? <==> p.properties.Some? && p.properties.value.forecast.Some? && p.properties.value.forecast.value != ""
    ensures r.Some? ==> r.value == p.properties.value.forecast.value
  {
    if p.properties.Some? && p.properties.value.forecast.Some? && p.properties.value.forecast.value != ""
    then Some(p.properties.value.forecast.value) else None
  }

  /** `forecastData.properties?.periods || []` */
  function PeriodsOf(r: ForecastResponse): (periods: seq<ForecastPeriod>)
    ensures r.properties.Some? && r.properties.value.periods.Some? ==> periods == r.properties.value.periods.value
    ensures r.properties.None? || r.properties.value.periods.None? ==> periods == []
  {
    if r.properties.Some? && r.properties.value.periods.Some? then r.properties.value.periods.value else []
  }

  /** `${period.temperature || 'Unknown'}`: a zero temperature is falsy and
      shows as `Unknown`, like a missing one. */
  function TemperatureText(t: Option<real>, num: NumberText): (r: string)
    ensures t.None? || t.value == 0.0 ==> r == "Unknown"
    ensures t.Some? && t.value != 0.0 ==> r == num.show(t.value)
  {
    if t.Some? && t.value != 0.0 then num.show(t.value) else "Unknown"
  }

  /** The five lines of a period: the name (or `Unknown`) and a colon; the
      temperature with its unit (or `F`); the wind speed (or `Unknown`) and
      direction (or nothing); the short forecast (or `No forecast
      available`); and the delimiter. */
  function PeriodLines(p: ForecastPeriod, num: NumberText): (lines: seq<string>)
    ensures |lines| == 5 && lines[4] == DELIMITER
    ensures p.name.Some? && p.name.value != "" ==> lines[0] == p.name.value + ":"
    ensures p.name.None? || p.name.value == "" ==> lines[0] == "Unknown" + ":"
    ensures p.temperatureUnit.Some? && p.temperatureUnit.value != "" ==>
              lines[1] == "Temperature: " + TemperatureText(p.temperature, num) + DEGREE + p.temperatureUnit.value
    ensures p.temperatureUnit.None? || p.temperatureUnit.value == "" ==>
              lines[1] == "Temperature: " + TemperatureText(p.temperature, num) + DEGREE + "F"
    ensures lines[2] == "Wind: " + Or(p.windSpeed, "Unknown") + " " + Or(p.windDirection, "")
    ensures p.shortForecast.Some? && p.shortForecast.value != "" ==> lines[3] == p.shortForecast.value
    ensures p.shortForecast.None? || p.shortForecast.value == "" ==> lines[3] == "No forecast available"
  {
    [ Or(p.name, "Unknown") + ":",
      "Temperature: " + TemperatureText(p.temperature, num) + DEGREE + Or(p.temperatureUnit, "F"),
      "Wind: " + Or(p.windSpeed, "Unknown") + " " + Or(p.windDirection, ""),
      Or(p.shortForecast, "No forecast available"),
      DELIMITER ]
  }

  /** `lines.join('\n')` of a period: it starts with the name line and ends
      with the delimiter line, with no trailing line break. */
  function FormatPeriod(p: ForecastPeriod, num: NumberText): (text: string)
    ensures |text| >= |PeriodLines(p, num)[0]| + 4
    ensures text[..|PeriodLines(p, num)[0]|] == PeriodLines(p, num)[0]
    ensures text[|text| - 4..] == "\n---"
  {
    var lines := PeriodLines(p, num);
    JoinLast(lines, "\n");
    assert "\n" + lines[4] == "\n---";
    Join(lines, "\n")
  }

  function ForecastHeader(latitude: real, longitude: real, num: NumberText): string
  {
    "Forecast for " + num.show(latitude) + ", " + num.show(longitude) + ":"
  }

  function ForecastText(latitude: real, longitude: real, num: NumberText, periods: seq<ForecastPeriod>): string
  {
    Report(ForecastHeader(latitude, longitude, num),
           seq(|periods|, i requires 0 <= i < |periods| => FormatPeriod(periods[i], num)))
  }

  /** The `get-forecast` handler. It always fetches the grid point first,
      and fetches the forecast URL found there second, only when the grid
      point came back with one; each stage has its own failure message, and
      an adapter error escapes unchanged. */
  function GetForecast(latitude: real, longitude: real, num: NumberText,
                       fetchPoints: string -> Fetched<PointsResponse>,
                       fetchForecast: string -> Fetched<ForecastResponse>): (run: ToolRun)
    ensures 1 <= |run.fetched| <= 2 && run.fetched[0] == PointsUrl(latitude, longitude, num)
    ensures !run.outcome.Rejected?
    ensures run.outcome.Returned? ==> SingleTextBlock(run.outcome.result)
    ensures var points := fetchPoints(PointsUrl(latitude, longitude, num));
      && (|run.fetched| == 2 <==> points.Data? && ForecastUrlOf(points.body).Some?)
      && (|run.fetched| == 2 ==> run.fetched[1] == ForecastUrlOf(points.body).value)
      && (points.Threw? ==> run.outcome == Raised(points.message))
      && (points.Falsy? ==> ReturnsText(run.outcome, GridPointFailure(latitude, longitude, num)))
      && (points.Data? && ForecastUrlOf(points.body).None? ==> ReturnsText(run.outcome, NO_FORECAST_URL))
    ensures |run.fetched| == 2 ==>
      var forecast := fetchForecast(run.fetched[1]);
      && (forecast.Threw? ==> run.outcome == Raised(forecast.message))
      && (forecast.Falsy? ==> ReturnsText(run.outcome, FAILED_FORECAST))
      && (forecast.Data? && PeriodsOf(forecast.body) == [] ==> ReturnsText(run.outcome, NO_PERIODS))
      && (forecast.Data? && PeriodsOf(forecast.body) != [] ==>
            ReturnsText(run.outcome, ForecastText(latitude, longitude, num, PeriodsOf(forecast.body))))
    ensures ReturnsText(run.outcome, GridPointFailure(latitude, longitude, num)) ==>
              fetchPoints(PointsUrl(latitude, longitude, num)).Falsy?
    ensures ReturnsText(run.outcome, FAILED_FORECAST) ==>
              |run.fetched| == 2 && fetchForecast(run.fetched[1]).Falsy?
  {
    ForecastMessagesDistinct(latitude, longitude, num);
    var pointsUrl := PointsUrl(latitude, longitude, num);
    match fetchPoints(pointsUrl)
    case Threw(m) => ToolRun([pointsUrl], Raised(m))
    case Falsy => ToolRun([pointsUrl], Returned(TextResult(GridPointFailure(latitude, longitude, num))))
    case Data(points) =>
      match ForecastUrlOf(points)
      case None => ToolRun([pointsUrl], Returned(TextResult(NO_FORECAST_URL)))
      case Some(forecastUrl) =>
        var fetched := [pointsUrl, forecastUrl];
        match fetchForecast(forecastUrl)
        case Threw(m) => ToolRun(fetched, Raised(m))
        case Falsy => ToolRun(fetched, Returned(TextResult(FAILED_FORECAST)))
        case Data(forecast) =>
          var periods := PeriodsOf(forecast);
          if |periods| == 0 then ToolRun(fetched, Returned(TextResult(NO_PERIODS)))
          else
            ForecastTextDistinct(latitude, longitude, num, periods);
            ToolRun(fetched, Returned(TextResult(ForecastText(latitude, longitude, num, periods))))
  }

  /** The fixed messages of `get-forecast` differ from one another. */
  lemma ForecastMessagesDistinct(latitude: real, longitude: real, num: NumberText)
    ensures var grid := GridPointFailure(latitude, longitude, num);
      && grid != FAILED_FORECAST && grid != NO_FORECAST_URL && grid != NO_PERIODS
      && FAILED_FORECAST != NO_FORECAST_URL && FAILED_FORECAST != NO_PERIODS
  {
    var grid := GridPointFailure(latitude, longitude, num);
    assert grid[19] == 'g' && FAILED_FORECAST[19] == 'f';
    assert grid[10] == 'r' && NO_FORECAST_URL[10] == 'g' && FAILED_FORECAST[10] == 'r';
    assert grid[0] == 'F' && NO_PERIODS[0] == 'N';
  }

  /** A forecast report is neither of the failure messages. */
  lemma ForecastTextDistinct(latitude: real, longitude: real, num: NumberText, periods: seq<ForecastPeriod>)
    ensures var text := ForecastText(latitude, longitude, num, periods);
      text != GridPointFailure(latitude, longitude, num) && text != FAILED_FORECAST
  {
    assert ForecastText(latitude, longitude, num, periods)[1] == 'o';
    assert GridPointFailure(latitude, longitude, num)[1] == 'a' && FAILED_FORECAST[1] == 'a';
  }

  /** A forecast period renders as exactly five lines: name, temperature,
      wind, short forecast, delimiter, when none of its shown values holds
      a line break. */
  lemma PeriodTextLines(p: ForecastPeriod, num: NumberText)
    requires Free(PeriodLines(p, num), '\n')
    ensures Split(FormatPeriod(p, num), '\n') == PeriodLines(p, num)
    ensures |Split(FormatPeriod(p, num), '\n')| == 5
    ensures Split(FormatPeriod(p, num), '\n')[4] == DELIMITER
  {
    SplitJoin(PeriodLines(p, num), '\n');
  }

  /** The forecast report is its header line, an empty line, and then the
      five lines of each period in the order received. */
  lemma ForecastTextLines(latitude: real, longitude: real, num: NumberText, periods: seq<ForecastPeriod>)
    requires '\n' !in ForecastHeader(latitude, longitude, num)
    requires |periods| >= 1
    requires forall i :: 0 <= i < |periods| ==> Free(PeriodLines(periods[i], num), '\n')
    ensures Split(ForecastText(latitude, longitude, num, periods), '\n') ==
              [ForecastHeader(latitude, longitude, num), ""]
              + Flatten(seq(|periods|, i requires 0 <= i < |periods| => PeriodLines(periods[i], num)))
  {
    var blocks := seq(|periods|, i requires 0 <= i < |periods| => PeriodLines(periods[i], num));
    assert JoinEach(blocks, "\n") == seq(|periods|, i requires 0 <= i < |periods| => FormatPeriod(periods[i], num));
    ReportLines(ForecastHeader(latitude, longitude, num), blocks);
  }

  /** The tool as the server runs it: out-of-range coordinates are refused
      before any fetch. */
  function CallGetForecast(latitude: real, longitude: real, num: NumberText,
                           fetchPoints: string -> Fetched<PointsResponse>,
                           fetchForecast: string -> Fetched<ForecastResponse>): (run: ToolRun)
    ensures run.outcome.Rejected? <==> !ForecastInputValid(latitude, longitude)
    ensures run.outcome.Rejected? ==> run.fetched == []
    ensures ForecastInputValid(latitude, longitude) ==> run == GetForecast(latitude, longitude, num, fetchPoints, fetchForecast)
  {
    if ForecastInputValid(latitude, longitude) then GetForecast(latitude, longitude, num, fetchPoints, fetchForecast)
    else ToolRun([], Rejected)
  }

  // ---- the handlers over the real adapter ----

  /** Through `makeNWSRequest`, `get-alerts` never shows "Failed to retrieve
      alerts data": a failed request or an empty body makes the handler
      throw instead, with the HTTP client's message or the HTTP error. */
  lemma AlertsOverNws(state: string, get: HttpGet -> AxiosOutcome<AlertsResponse>)
    ensures var run := GetAlerts(state, NwsAdapter(get));
      var response := get(NwsGet(AlertsUrl(Upper(state))));
      && !ReturnsText(run.outcome, FAILED_ALERTS)
      && (run.outcome.Raised? <==> response.RequestFailed? || response.data.None?)
      && (response.RequestFailed? ==> run.outcome == Raised(response.message))
      && (response.Response? && response.data.None? ==> run.outcome == Raised(HttpErrorMessage(response.status)))
  {
    var url := AlertsUrl(Upper(state));
    assert NwsAdapter(get)(url) == MakeNWSRequest(get, url).outcome;
  }

  /** Through `makeNWSRequest`, a grid-point request that fails or comes
      back empty makes `get-forecast` throw before the forecast is fetched. */
  lemma ForecastOverNwsStopsEarly(latitude: real, longitude: real, num: NumberText,
                                  getPoints: HttpGet -> AxiosOutcome<PointsResponse>,
                                  getForecast: HttpGet -> AxiosOutcome<ForecastResponse>)
    ensures var run := GetForecast(latitude, longitude, num, NwsAdapter(getPoints), NwsAdapter(getForecast));
      var response := getPoints(NwsGet(PointsUrl(latitude, longitude, num)));
      && (response.RequestFailed? ==> run == ToolRun([PointsUrl(latitude, longitude, num)], Raised(response.message)))
      && (response.Response? && response.data.None? ==>
            run == ToolRun([PointsUrl(latitude, longitude, num)], Raised(HttpErrorMessage(response.status))))
  {
    var pointsUrl := PointsUrl(latitude, longitude, num);
    assert NwsAdapter(getPoints)(pointsUrl) == MakeNWSRequest(getPoints, pointsUrl).outcome;
  }

  /** Through `makeNWSRequest`, neither of the falsy-body messages of
      `get-forecast` is ever shown. */
  lemma ForecastOverNwsNoFalsyMessages(latitude: real, longitude: real, num: NumberText,
                                       getPoints: HttpGet -> AxiosOutcome<PointsResponse>,
                                       getForecast: HttpGet -> AxiosOutcome<ForecastResponse>)
    ensures var run := GetForecast(latitude, longitude, num, NwsAdapter(getPoints), NwsAdapter(getForecast));
      && !ReturnsText(run.outcome, GridPointFailure(latitude, longitude, num))
      && !ReturnsText(run.outcome, FAILED_FORECAST)
  {
    var pointsUrl := PointsUrl(latitude, longitude, num);
    assert NwsAdapter(getPoints)(pointsUrl) == MakeNWSRequest(getPoints, pointsUrl).outcome;
    var run := GetForecast(latitude, longitude, num, NwsAdapter(getPoints), NwsAdapter(getForecast));
    if |run.fetched| == 2 {
      assert NwsAdapter(getForecast)(run.fetched[1]) == MakeNWSRequest(getForecast, run.fetched[1]).outcome;
    }
  }
}

/** The National Weather Service adapter (src/component/integration/nws.ts):
    the response shapes, the single-GET request helper `makeNWSRequest`
    over an abstract HTTP client, and the alert renderer `formatAlert`. */
module Nws {
  import opened Js
  import opened Strings

  // ---- response shapes (parsed JSON; absent properties are `None`) ----

  datatype AlertProperties = AlertProperties(
    event: Option<string>,
    areaDesc: Option<string>,
    severity: Option<string>,
    status: Option<string>,
    headline: Option<string>)

  datatype AlertFeature = AlertFeature(properties: AlertProperties)

  datatype AlertsResponse = AlertsResponse(features: Option<seq<AlertFeature>>)

  datatype PointsProperties = PointsProperties(forecast: Option<string>)

  datatype PointsResponse = PointsResponse(properties: Option<PointsProperties>)

  /** A forecast period; `temperature` is a JavaScript number. */
  datatype ForecastPeriod = ForecastPeriod(
    name: Option<string>,
    temperature: Option<real>,
    temperatureUnit: Option<string>,
    windSpeed: Option<string>,
    windDirection: Option<string>,
    shortForecast: Option<string>)

  datatype ForecastProperties = ForecastProperties(periods: Option<seq<ForecastPeriod>>)

  datatype ForecastResponse = ForecastResponse(properties: Option<ForecastProperties>)

  // ---- the request helper ----

  const GEO_JSON: string := "application/geo+json"

  /** One HTTP GET: the URL and its `Accept` header. */
  datatype HttpGet = HttpGet(url: string, accept: string)

  /** What the HTTP client's `get` settles to: a response whose `data` may
      be falsy (`None`), or a rejection with its error message. */
  datatype AxiosOutcome<T> = Response(status: nat, data: Option<T>) | RequestFailed(message: string)

  /** What a weather handler can get back from the adapter it awaits: a
      body, a falsy value, or a thrown error. */
  datatype Fetched<T> = Data(body: T) | Falsy | Threw(message: string)

  /** The only request the helper sends for `url`. */
  function NwsGet(url: string): (g: HttpGet)
    ensures g.url == url && g.accept == GEO_JSON
  {
    HttpGet(url, GEO_JSON)
  }

  function HttpErrorMessage(status: nat): string
  {
    "HTTP error! status: " + NatToString(status)
  }

  /** One call of the request helper: the requests it sent, in order, and
      what it yields to its caller. */
  datatype Exchange<T> = Exchange(sent: seq<HttpGet>, outcome: Fetched<T>)

  /** `makeNWSRequest(url)` against the HTTP client `get`. It sends exactly
      one request, the GET of `url` with the GeoJSON `Accept` header, and
      never retries; its outcome is decided by the response to that request.
      It never yields a falsy value: an empty body is thrown as an HTTP
      error, and a failed request is rethrown with its own message. */
  function MakeNWSRequest<T>(get: HttpGet -> AxiosOutcome<T>, url: string): (r: Exchange<T>)
    ensures r.sent == [NwsGet(url)]
    ensures !r.outcome.Falsy?
    ensures r.outcome.Data? <==> get(r.sent[0]).Response? && get(r.sent[0]).data.Some?
    ensures r.outcome.Data? ==> get(r.sent[0]).data == Some(r.outcome.body)
    ensures get(r.sent[0]).RequestFailed? ==> r.outcome == Threw(get(r.sent[0]).message)
    ensures get(r.sent[0]).Response? && get(r.sent[0]).data.None? ==>
              r.outcome == Threw(HttpErrorMessage(get(r.sent[0]).status))
  {
    var request := NwsGet(url);
    var outcome :=
      match get(request)
      case RequestFailed(m) => Threw(m)
      case Response(status, data) =>
        if data.None? then Threw(HttpErrorMessage(status)) else Data(data.value);
    Exchange([request], outcome)
  }

  /** The helper seen as an adapter: what the weather handlers await. */
  function NwsAdapter<T>(get: HttpGet -> AxiosOutcome<T>): string -> Fetched<T>
  {
    url => MakeNWSRequest(get, url).outcome
  }

  // ---- formatAlert ----

  const EVENT_LABEL: string := "Event: "
  const AREA_LABEL: string := "Area: "
  const SEVERITY_LABEL: string := "Severity: "
  const STATUS_LABEL: string := "Status: "
  const HEADLINE_LABEL: string := "Headline: "
  const DELIMITER: string := "---"

  /** The five values an alert shows, after defaulting. */
  datatype AlertView = AlertView(event: string, area: string, severity: string, status: string, headline: string)

  /** Each property is shown verbatim when present and non-empty; otherwise
      `Unknown`, or `No headline` for the headline. */
  function View(f: AlertFeature): (v: AlertView)
    ensures var p := f.properties;
      && (p.event.Some? && p.event.value != "" ==> v.event == p.event.value)
      && (p.event.None? || p.event.value == "" ==> v.event == "Unknown")
      && (p.areaDesc.Some? && p.areaDesc.value != "" ==> v.area == p.areaDesc.value)
      && (p.areaDesc.None? || p.areaDesc.value == "" ==> v.area == "Unknown")
      && (p.severity.Some? && p.severity.value != "" ==> v.severity == p.severity.value)
      && (p.severity.None? || p.severity.value == "" ==> v.severity == "Unknown")
      && (p.status.Some? && p.status.value != "" ==> v.status == p.status.value)
      && (p.status.None? || p.status.value == "" ==> v.status == "Unknown")
      && (p.headline.Some? && p.headline.value != "" ==> v.headline == p.headline.value)
      && (p.headline.None? || p.headline.value == "" ==> v.headline == "No headline")
  {
    var p := f.properties;
    AlertView(Or(p.event, "Unknown"), Or(p.areaDesc, "Unknown"), Or(p.severity, "Unknown"),
              Or(p.status, "Unknown"), Or(p.headline, "No headline"))
  }

  /** The six lines of an alert: each label followed by its value, then the
      delimiter; the value is read back from its line by its label. */
  function AlertLines(v: AlertView): (lines: seq<string>)
    ensures |lines| == 6 && lines[5] == DELIMITER
    ensures StripLabel(lines[0], EVENT_LABEL) == Some(v.event)
    ensures StripLabel(lines[1], AREA_LABEL) == Some(v.area)
    ensures StripLabel(lines[2], SEVERITY_LABEL) == Some(v.severity)
    ensures StripLabel(lines[3], STATUS_LABEL) == Some(v.status)
    ensures StripLabel(lines[4], HEADLINE_LABEL) == Some(v.headline)
  {
    StripLabelOf(EVENT_LABEL, v.event);
    StripLabelOf(AREA_LABEL, v.area);
    StripLabelOf(SEVERITY_LABEL, v.severity);
    StripLabelOf(STATUS_LABEL, v.status);
    StripLabelOf(HEADLINE_LABEL, v.headline);
    [EVENT_LABEL + v.event, AREA_LABEL + v.area, SEVERITY_LABEL + v.severity,
     STATUS_LABEL + v.status, HEADLINE_LABEL + v.headline, DELIMITER]
  }

  /** `formatAlert(feature)`: starts with the event label and ends with the
      delimiter line, with no trailing newline. */
  function FormatAlert(f: AlertFeature): (text: string)
    ensures |text| >= |EVENT_LABEL| + 4
    ensures text[..|EVENT_LABEL|] == EVENT_LABEL
    ensures text[|text| - 4..] == "\n---"
  {
    var lines := AlertLines(View(f));
    JoinLast(lines, "\n");
    assert "\n" + lines[5] == "\n---";
    assert lines[0][..|EVENT_LABEL|] == EVENT_LABEL;
    Join(lines, "\n")
  }

  /** No shown value contains a line break. */
  predicate SingleLine(v: AlertView)
  {
    '\n' !in v.event && '\n' !in v.area && '\n' !in v.severity && '\n' !in v.status && '\n' !in v.headline
  }

  /** The text after `tag` when `line` starts with it. */
  function StripLabel(line: string, tag: string): (r: Option<string>)
    ensures r.Some? <==> |tag| <= |line| && line[..|tag|] == tag
    ensures r.Some? ==> line == tag + r.value
  {
    if |tag| <= |line| && line[..|tag|] == tag then Some(line[|tag|..]) else None
  }

  /** Reads an alert back from its rendering: six lines, the five labelled
      ones in order and then the delimiter. */
  function ParseAlert(text: string): Option<AlertView>
  {
    var lines := Split(text, '\n');
    if |lines| != 6 || lines[5] != DELIMITER then None
    else
      var e, a, s, st, h := StripLabel(lines[0], EVENT_LABEL), StripLabel(lines[1], AREA_LABEL),
                            StripLabel(lines[2], SEVERITY_LABEL), StripLabel(lines[3], STATUS_LABEL),
                            StripLabel(lines[4], HEADLINE_LABEL);
      if e.Some? && a.Some? && s.Some? && st.Some? && h.Some?
      then Some(AlertView(e.value, a.value, s.value, st.value, h.value))
      else None
  }

  lemma StripLabelOf(tag: string, x: string)
    ensures StripLabel(tag + x, tag) == Some(x)
  {
    assert (tag + x)[..|tag|] == tag;
    assert (tag + x)[|tag|..] == x;
  }

  /** The rendering of a single-line alert is exactly six lines, the labelled
      values followed by the delimiter, and reading it back gives the shown
      values. */
  lemma AlertRoundTrip(f: AlertFeature)
    requires SingleLine(View(f))
    ensures Split(FormatAlert(f), '\n') == AlertLines(View(f))
    ensures ParseAlert(FormatAlert(f)) == Some(View(f))
  {
    var v := View(f);
    AlertLinesFree(v);
    SplitJoin(AlertLines(v), '\n');
  }

  /** The six lines of a single-line alert hold no line break. */
  lemma AlertLinesFree(v: AlertView)
    requires SingleLine(v)
    ensures Free(AlertLines(v), '\n')
  {
    var lines := AlertLines(v);
    forall i | 0 <= i < |lines| ensures '\n' !in lines[i] {
      if i == 0 { NoBreakInConcat(EVENT_LABEL, v.event); }
      else if i == 1 { NoBreakInConcat(AREA_LABEL, v.area); }
      else if i == 2 { NoBreakInConcat(SEVERITY_LABEL, v.severity); }
      else if i == 3 { NoBreakInConcat(STATUS_LABEL, v.status); }
      else if i == 4 { NoBreakInConcat(HEADLINE_LABEL, v.headline); }
      else { assert lines[5] == "---"; }
    }
  }
}

# intelligence-service: weather tools, tool-calling client, request validation

This Dafny project models the decision and formatting logic of the
intelligence-service repository, a Model Context Protocol (MCP) tool server
with a command-line client driven by a language model:

- **The National Weather Service adapter** (`nws.dfy`, module `Nws`). The
  request helper `makeNWSRequest` sends exactly one GET with the GeoJSON
  `Accept` header. It throws on an empty body and rethrows every failure.
  `formatAlert` renders an alert as five labelled lines and a closing `---`
  line.
- **The weather tools** (`weather.dfy`, module `Weather`). The `get-alerts`
  and `get-forecast` handlers are decision trees over the outcomes of the
  adapter they await, which may be a body, a falsy value, or a thrown error.
  Each handler returns a tool result with exactly one text block, or lets
  the adapter's error escape. Their input schemas are plain predicates. A
  set of lemmas composes the handlers with the real adapter.
- **The tool-calling client** (`ollama.dfy`, module `Ollama`). `MCPClient`
  is a class with the source's fields. `connectToServer` maps the server's
  tools and resets the transport on failure. `processQuery` is a method
  with a dispatch loop, proved equal to the specification function
  `Process`. The facts about the conversation are proved of `Process`: at
  most two model calls, message order, one `tool` message per call,
  per-call error absorption, and the stringification rule. The `quit` test
  and the query loop of `chatLoop` are modelled too.
- **Request validation** (`validate.dfy`, module `Validation`). The
  validation chains run in order on a `Request` object. The collected
  errors are then shaped into nothing, one error, or the full list.

`js.dfy` (module `Js`) holds the JavaScript value semantics the others use:
optional properties, the `||` default on strings, and JSON-like values.
`strings.dfy` (module `Strings`) holds the string operations: `join`,
one-character `split`, ASCII `toUpperCase`/`toLowerCase`, `trim`, and the
decimal rendering of a status code.

Everything outside the core is a parameter of the model:
- HTTP client (`HttpGet -> AxiosOutcome<T>`)
- NWS adapter as the handlers see it (`string -> Fetched<T>`)
- `URL` parser, tool server and model service (the `Services` value of the client)
- `JSON.stringify`
- JavaScript's number rendering (`NumberText`)
- the errors a validation chain finds (`Chain`)

Each is a deterministic function of what it is sent.

Behaviour of the code worth knowing:
- Adapter failures are thrown and are never turned into a text result.
  `makeNWSRequest` rethrows every failure and throws on an empty body, so a
  handler's "Failed to retrieve …" branches run only for a falsy value,
  which the real adapter never returns. The lemmas `Weather.AlertsOverNws`,
  `Weather.ForecastOverNwsStopsEarly` and
  `Weather.ForecastOverNwsNoFalsyMessages` prove this for the composed
  system. So a failing points lookup raises the adapter's error; it does
  not return the grid-point message.
- An alert is six lines: five labelled lines and a closing `---`. A
  forecast period is five lines: four lines and a closing `---`. Blocks are
  joined with a line break, so each block ends with its own delimiter.
- A failed connection is rethrown by `connectToServer`. `chatLoop` catches
  it and ends; it does not answer queries with a "not connected" message.

## Model

| member | source | states |
|---|---|---|
| Js.Or | src/component/integration/nws.ts:63-67 | the `or` default on an optional string: the value when present and non-empty, otherwise the default |
| Strings.Upper | src/component/weather.ts:14 | upper-casing keeps the length, leaves no lower-case ASCII letter, shifts exactly the lower-case letters and keeps every other character |
| Strings.Lower | src/component/mcp/ollama.ts:163 | lower-casing keeps the length, leaves no upper-case ASCII letter, shifts exactly the upper-case letters and keeps every other character |
| Strings.Trim | src/component/mcp/ollama.ts:152-158 | the trimmed setting has no white space at either end, and a string with none there is unchanged |
| Strings.TrimKeepsMiddle | src/component/mcp/ollama.ts:152-158 | the trimmed string is an unbroken run of the original, everything before it and after it being white space |
| Strings.Join | src/component/weather.ts:42 | joining nothing gives the empty string; otherwise the result is as long as the parts plus one separator between each two, and starts with the first part |
| Strings.JoinLast | src/component/integration/nws.ts:62-69 | a join of two or more parts ends with the separator followed by the last part |
| Strings.NatToString | src/component/integration/nws.ts:49 | the status in the HTTP error is its decimal digits, with no leading zero, denoting the status |
| Nws.NwsGet | src/component/integration/nws.ts:43-47 | the request is a GET of the given URL with `Accept: application/geo+json` |
| Nws.MakeNWSRequest | src/component/integration/nws.ts:40-57 | sends exactly one request, `NwsGet(url)`; never yields a falsy value; yields the body exactly when the response has one; an empty body throws `HTTP error! status: <status>`; a failed request is rethrown with its own message |
| Nws.View | src/component/integration/nws.ts:61-67 | each shown value is the property when present and non-empty, else `Unknown` (`No headline` for the headline) |
| Nws.AlertLines | src/component/integration/nws.ts:62-68 | six lines: each of the first five is its label (`Event: `, `Area: `, `Severity: `, `Status: `, `Headline: `) followed by the shown value, and the sixth is `---` |
| Nws.FormatAlert | src/component/integration/nws.ts:60-70 | the text starts with `Event: ` and ends with the `---` line, with no trailing line break |
| Nws.StripLabel | src/component/integration/nws.ts:63-67 | a line holds a value right after a label exactly when it starts with that label, and the line is the label followed by the value |
| Nws.AlertRoundTrip | src/component/integration/nws.ts:62-69 | for single-line values the rendering splits into exactly the six lines Event, Area, Severity, Status, Headline, `---`, and reading it back gives the shown values |
| Weather.ReportLines | src/component/weather.ts:42 | a header, an empty line, then every line of every block in order, when the header and blocks are single-line |
| Weather.FeaturesOf | src/component/weather.ts:29 | the features of the alerts body when it has them, otherwise none |
| Weather.GetAlerts | src/component/weather.ts:13-52 | one fetch, of the alerts URL with the upper-cased code; a thrown error escapes unchanged, and only then; `Failed to retrieve alerts data` exactly on a falsy body; `No active alerts for <CODE>` exactly on no features; otherwise the alerts report; every returned result is one text block |
| Weather.AlertsTextLines | src/component/weather.ts:41-42 | the alerts report is the header, an empty line, then the six lines of each alert in the order received |
| Weather.CallGetAlerts | src/component/weather.ts:10-13 | a state that is not exactly two characters long is refused before any fetch; otherwise the handler runs |
| Weather.ForecastUrlOf | src/component/weather.ts:78-79 | a forecast URL is found exactly when the points body has a non-empty `properties.forecast`, and it is that value |
| Weather.TemperatureText | src/component/weather.ts:119 | a missing or zero temperature shows as `Unknown`; any other is shown as a number |
| Weather.GetForecast | src/component/weather.ts:62-136 | the points URL is fetched first; the forecast is fetched second exactly when the points body has a forecast URL; each stage's falsy body and missing URL or periods gives its own fixed message; a thrown error escapes unchanged; the report otherwise; every returned result is one text block, and the two falsy-body messages occur only on a falsy body |
| Weather.ForecastMessagesDistinct | src/component/weather.ts:72-109 | the fixed messages of `get-forecast` are pairwise different |
| Weather.ForecastTextDistinct | src/component/weather.ts:126 | a forecast report is neither of the falsy-body messages |
| Weather.PeriodsOf | src/component/weather.ts:103 | the periods of the forecast body when it has properties holding periods, otherwise none |
| Weather.PeriodLines | src/component/weather.ts:116-123 | five lines: the name (or `Unknown`) and a colon; `Temperature: `, the temperature text, the degree sign and the unit (or `F`); `Wind: `, the speed (or `Unknown`), a space and the direction (or nothing); the short forecast (or `No forecast available`); `---` |
| Weather.FormatPeriod | src/component/weather.ts:116-124 | the period text starts with its name line and ends with the `---` line, with no trailing line break |
| Weather.PeriodTextLines | src/component/weather.ts:116-124 | a single-line period renders as exactly five lines ending with `---` |
| Weather.ForecastTextLines | src/component/weather.ts:116-126 | the forecast report is the header, an empty line, then the five lines of each period in the order received |
| Weather.CallGetForecast | src/component/weather.ts:58-62 | latitude outside [-90, 90] or longitude outside [-180, 180] (bounds inclusive) is refused before any fetch; otherwise the handler runs |
| Weather.AlertsOverNws | src/component/weather.ts:16-27 | through the real adapter `Failed to retrieve alerts data` is never shown; the handler throws exactly when the request fails or the body is empty, with the adapter's message |
| Weather.ForecastOverNwsStopsEarly | src/component/weather.ts:64-76 | through the real adapter a failed or empty points request throws after one fetch, before the forecast is fetched |
| Weather.ForecastOverNwsNoFalsyMessages | src/component/weather.ts:67-101 | through the real adapter neither falsy-body message of `get-forecast` is ever shown |
| Ollama.ToOllamaTools | src/component/mcp/ollama.ts:41-50 | one `function` tool per server tool, same length and order, each carrying the server tool's name, description and input schema |
| Ollama.ContentText | src/component/mcp/ollama.ts:102-109 | a string result is used verbatim, `null`/`undefined` becomes `Tool returned no content.`, anything else is JSON-serialised |
| Ollama.ToolMessage | src/component/mcp/ollama.ts:95-122 | a `tool` message holding the result's text, or `Error executing tool <name>: <msg>` when the call throws |
| Ollama.Dispatch | src/component/mcp/ollama.ts:90-123 | one message per tool call, each a `tool` message carrying no tool calls of its own |
| Ollama.DispatchShape | src/component/mcp/ollama.ts:90-123 | sequential dispatch yields exactly one tool message per call, in call order, each answering its own call |
| Ollama.Process | src/component/mcp/ollama.ts:59-140 | without a transport or tools: the not-connected text and no model call; otherwise the conversation starts with the user's query and the first call offers the tools; with no tool calls (or an error) one model call and its content (or `Error processing query with Ollama: <msg>`); with tool calls exactly two model calls, the second without tools over a conversation extending the first, the assistant message second, the tool requests those of the first reply only |
| Ollama.ChatText | src/component/mcp/ollama.ts:131-138 | the answer is the reply's content, or `Error processing query with Ollama: <msg>` when the model service fails |
| Ollama.ConversationShape | src/component/mcp/ollama.ts:88-123 | after tool use the conversation is the user's query, the assistant message, then exactly one tool message per call, in call order, each answering its own call |
| Ollama.ToolErrorAbsorbed | src/component/mcp/ollama.ts:116-122 | a throwing call is answered by `Error executing tool <name>: <msg>` and every other call is still answered |
| Ollama.ConversationWellOrdered | src/component/mcp/ollama.ts:86-123 | every `tool` message follows, in an unbroken run of tool messages, an assistant message with at least that many calls |
| Ollama.IsQuitCases | src/component/mcp/ollama.ts:163 | the loop stops on exactly the four letters `quit`, each in either case |
| Ollama.UntilQuit | src/component/mcp/ollama.ts:161-165 | the processed queries are a prefix of the input holding no `quit`, ended by `quit` or the end of input |
| Ollama.SettingCases | src/component/mcp/ollama.ts:150-158 | a non-empty answer is trimmed and used; an empty answer gives way to the default, trimmed |
| Ollama.Replies | src/component/mcp/ollama.ts:166-172 | one line per query: `\nOllama: ` and the query's answer when a transport is held, the not-connected notice for every query otherwise |
| Ollama.MCPClient.constructor | src/component/mcp/ollama.ts:23-28 | the host and model are those given; no transport and no tools yet |
| Ollama.MCPClient.ConnectToServer | src/component/mcp/ollama.ts:30-57 | succeeds exactly when the URL parses and the tools are listed; then the transport is set and the tools are the mapped list; on failure the transport is reset, the tools are kept and the error is returned |
| Ollama.MCPClient.ProcessQuery | src/component/mcp/ollama.ts:59-140 | the loop over the tool calls computes exactly `Process` for the client's current state |
| Ollama.MCPClient.Converse | src/component/mcp/ollama.ts:161-173 | one line per query before the first `quit`: `\nOllama: ` and the answer when a transport is held, the not-connected notice otherwise |
| Ollama.MCPClient.Session | src/component/mcp/ollama.ts:156-173 | connects to the URL; on success the transport and the mapped tools are those of that server and the queries up to `quit` are answered; on failure there is no transport, the tools are kept and nothing is answered; host and model are untouched |
| Ollama.MCPClient.ChatLoop | src/component/mcp/ollama.ts:142-188 | host and model are the trimmed answers or their defaults; a transport is held exactly when the server at the chosen URL connects, and then the transport and tools are that server's; otherwise the tools are kept and nothing is answered; on success the lines are the answers to the queries up to `quit`; closing is asked for exactly when a transport is held |
| Validation.RunChains | src/component/validate.ts:5-7 | no chains leave the body and add no error; the errors of the first chain come first |
| Validation.RunChainsAppend | src/component/validate.ts:5-7 | running chains `a + b` runs `a` and then `b` on the body `a` left, with `a`'s errors first |
| Validation.Shape | src/component/validate.ts:9-17 | no errors give `undefined`; exactly one error without `requireArray` gives that error; otherwise the array; the value always carries exactly the collected errors, in order |
| Validation.Validate | src/component/validate.ts:4-18 | every chain runs on the request in order; the request ends with the errors of all chains appended; the result is their shaping |

## Left out

- Floating-point rendering: `${x}` and `x.toFixed(4)` of the coordinates and temperatures are the uninterpreted functions of `NumberText`. `NaN` and the other non-finite numbers are not modelled.
- Strings.Upper and Strings.Lower map ASCII letters only. JavaScript's full Unicode case mapping, including length-changing mappings, is not modelled. For the `quit` test the model is exact.
- Weather.CallGetAlerts counts code points. zod counts UTF-16 code units, so a state made of two astral characters differs between the two.
- An alert feature without `properties`, which makes `formatAlert` throw a TypeError, is not representable in the model.
- Nws.MakeNWSRequest: a response's `data` is a parsed body or absent. Falsy non-object bodies such as `0` or `""` are treated as absent.
- The un-awaited `this.mcp.connect(transport)` in `connectToServer` is not modelled; the model treats the transport as ready once set. Only the listing of tools decides success.
- ChatLoop takes the three prompt defaults as parameters that default to the literals the prompts offer; the source cannot be given other defaults.
- Readline prompts, the closing of the readline interface and the MCP client, and all logging are not modelled. The lines `chatLoop` logs are returned as values. `ChatLoop` reports whether closing is asked for.
- Running out of input without typing `quit` makes the real `rl.question` reject. The model ends the loop at the end of the given queries instead.
- Ollama.Process: the model service returns a reply's content and tool calls. The pushed message is modelled as an assistant message, which is the role the model service gives it.
- `JSON.stringify` throwing (for example on a cycle) is not modelled; `stringify` is total.
- The `Accept` header is the only header modelled; the HTTP client's base configuration and retries are not part of this model.
- The Express server, route handlers, MCP session lifecycle, tool registration, logging and configuration are not part of this model.
- Validation.Validate: `requireArray` is a boolean. A non-boolean truthy value behaves as `false` in the source, because the test is `!== true`; the model cannot pass one.

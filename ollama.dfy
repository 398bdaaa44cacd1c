/** The command-line chat client (src/component/mcp/ollama.ts): an
    `MCPClient` that connects to a tool server, offers its tools to a
    language model, runs the tool calls the model asks for, and hands the
    results back for one final answer.

    The model service, the tool server and the URL parser are oracles: the
    `Services` value the client is built with. `ProcessQuery` changes no
    field of the client, so it returns, beside the answer, the record of
    what it sent: the chat requests, the tool requests and the final
    conversation. */
module Ollama {
  import opened Js
  import opened Strings

  // ---- messages and tools ----

  datatype Role = User | Assistant | Tool

  /** A tool call the model asks for. */
  datatype ToolCall = ToolCall(name: string, arguments: JsValue)

  datatype Message = Message(role: Role, content: string, toolCalls: seq<ToolCall>)

  /** The assistant message a chat response carries. */
  datatype ChatReply = ChatReply(content: string, toolCalls: seq<ToolCall>)

  /** A tool as the tool server lists it. */
  datatype McpServerTool = McpServerTool(name: string, description: string, inputSchema: JsValue)

  datatype FunctionSpec = FunctionSpec(name: string, description: string, parameters: JsValue)

  /** A tool as the model service expects it. */
  datatype OllamaTool = OllamaTool(kind: string, fn: FunctionSpec)

  /** One chat request; `tools` is `undefined` when absent. */
  datatype ChatRequest = ChatRequest(model: string, messages: seq<Message>, tools: Option<seq<OllamaTool>>)

  datatype CallToolRequest = CallToolRequest(name: string, arguments: JsValue)

  /** A settled promise: its value, or the message of the error it threw. */
  datatype Outcome<T> = Ok(value: T) | Err(message: string)

  /** The collaborators the client awaits, as functions of what they are
      sent: `new URL(s)` (its normalised form), the tool server's
      `listTools` and `callTool` (by server URL), the model service's
      `chat` (by host), and `JSON.stringify`. */
  datatype Services = Services(
    parseUrl: string -> Outcome<string>,
    listTools: string -> Outcome<seq<McpServerTool>>,
    callTool: (string, CallToolRequest) -> Outcome<JsValue>,
    chat: (string, ChatRequest) -> Outcome<ChatReply>,
    stringify: JsValue -> string)

  const FUNCTION_KIND: string := "function"
  const NOT_CONNECTED: string := "Not connected to an MCP server with tools. Please connect first."
  const NO_CONTENT: string := "Tool returned no content."
  const QUERY_ERROR_PREFIX: string := "Error processing query with Ollama: "
  const DEFAULT_HOST: string := "http://localhost:11434"
  const DEFAULT_MODEL: string := "llama3"
  const PROMPT_DEFAULT_MODEL: string := "llama3.2:latest"
  const DEFAULT_SERVER_URL: string := "http://localhost:8080/service/v1.0/mcp"
  const REPLY_PREFIX: string := "\nOllama: "
  const LOOP_NOT_CONNECTED: string := "Not connected to MCP server. Please restart and provide a valid server script path."

  // ---- the tool mapping of connectToServer ----

  function ToOllamaTool(t: McpServerTool): OllamaTool
  {
    OllamaTool(FUNCTION_KIND, FunctionSpec(t.name, t.description, t.inputSchema))
  }

  /** The server tool an offered tool was made from. */
  function ToServerTool(t: OllamaTool): McpServerTool
  {
    McpServerTool(t.fn.name, t.fn.description, t.fn.parameters)
  }

  /** `tools.map(...)`: one function tool per server tool, in the same
      order, losing nothing: each maps back to the tool it came from. */
  function ToOllamaTools(listed: seq<McpServerTool>): (r: seq<OllamaTool>)
    ensures |r| == |listed|
    ensures forall i :: 0 <= i < |r| ==> r[i].kind == FUNCTION_KIND && ToServerTool(r[i]) == listed[i]
  {
    seq(|listed|, i requires 0 <= i < |listed| => ToOllamaTool(listed[i]))
  }

  // ---- one query ----

  function AssistantMessage(r: ChatReply): Message
  {
    Message(Assistant, r.content, r.toolCalls)
  }

  /** The text of a tool result: a string as it is, `null`/`undefined` as
      a fixed notice, anything else through `JSON.stringify`. */
  function ContentText(c: JsValue, stringify: JsValue -> string): (r: string)
    ensures c.Str? ==> r == c.s
    ensures c.Null? || c.Undefined? ==> r == NO_CONTENT
    ensures !(c.Str? || c.Null? || c.Undefined?) ==> r == stringify(c)
  {
    match c
    case Str(s) => s
    case Null => NO_CONTENT
    case Undefined => NO_CONTENT
    case _ => stringify(c)
  }

  function RequestOf(call: ToolCall): CallToolRequest
  {
    CallToolRequest(call.name, call.arguments)
  }

  /** The `tool` message appended for one call: its result's text, or the
      error it threw, naming the tool. */
  function ToolMessage(call: ToolCall, result: Outcome<JsValue>, stringify: JsValue -> string): (m: Message)
    ensures m.role == Tool && m.toolCalls == []
    ensures result.Ok? ==> m.content == ContentText(result.value, stringify)
    ensures result.Err? ==> m.content == "Error executing tool " + call.name + ": " + result.message
  {
    match result
    case Ok(c) => Message(Tool, ContentText(c, stringify), [])
    case Err(e) => Message(Tool, "Error executing tool " + call.name + ": " + e, [])
  }

  /** The tool messages for `calls`, dispatched one after another against
      the server at `url`. */
  function Dispatch(calls: seq<ToolCall>, url: string, svc: Services): (ms: seq<Message>)
    ensures |ms| == |calls|
    ensures forall i :: 0 <= i < |ms| ==> ms[i].role == Tool && ms[i].toolCalls == []
    decreases |calls|
  {
    if calls == [] then []
    else
      var last := calls[|calls| - 1];
      Dispatch(calls[..|calls| - 1], url, svc) + [ToolMessage(last, svc.callTool(url, RequestOf(last)), svc.stringify)]
  }

  /** One tool message per call, in call order, each the answer to its own
      call; a failing call costs only its own message. */
  lemma {:induction false} DispatchShape(calls: seq<ToolCall>, url: string, svc: Services)
    ensures |Dispatch(calls, url, svc)| == |calls|
    ensures forall i :: 0 <= i < |calls| ==>
              Dispatch(calls, url, svc)[i] == ToolMessage(calls[i], svc.callTool(url, RequestOf(calls[i])), svc.stringify)
    decreases |calls|
  {
    if calls != [] {
      var init := calls[..|calls| - 1];
      DispatchShape(init, url, svc);
      forall i | 0 <= i < |init| ensures init[i] == calls[i] { }
    }
  }

  function Requests(calls: seq<ToolCall>): (r: seq<CallToolRequest>)
    ensures |r| == |calls|
  {
    seq(|calls|, i requires 0 <= i < |calls| => RequestOf(calls[i]))
  }

  /** What one query produced: the answer, the chat requests and tool
      requests sent, in order, and the conversation as it ended. */
  datatype QueryRun = QueryRun(reply: string, chats: seq<ChatRequest>, toolRequests: seq<CallToolRequest>, messages: seq<Message>)

  /** The answer a query returns for a settled chat: the reply's content,
      or the error's message after the fixed prefix. */
  function ChatText(r: Outcome<ChatReply>): (text: string)
    ensures r.Ok? ==> text == r.value.content
    ensures r.Err? ==> text == QUERY_ERROR_PREFIX + r.message
  {
    if r.Ok? then r.value.content else QUERY_ERROR_PREFIX + r.message
  }

  /** `processQuery(query)` for a client whose transport, tools, model and
      host are given. Without a transport or without tools nothing is sent.
      Otherwise the conversation starts with the user's query and the model
      is asked once with the tools; only if it asks for tools are they run
      and the model asked a second time, without tools, over the grown
      conversation, so there are never more than two chat requests and the
      tool calls of the second reply are never run. An error from the model
      becomes the answer text. */
  function Process(svc: Services, transport: Option<string>, tools: seq<OllamaTool>,
                   model: string, host: string, query: string): (run: QueryRun)
    ensures |run.chats| <= 2
    ensures transport.None? || tools == [] ==> run == QueryRun(NOT_CONNECTED, [], [], [])
    ensures transport.Some? && tools != [] ==>
      && |run.chats| >= 1 && |run.messages| >= 1
      && run.chats[0] == ChatRequest(model, [Message(User, query, [])], Some(tools))
      && run.messages[0] == Message(User, query, [])
      && var first := svc.chat(host, run.chats[0]);
      && (first.Err? || first.value.toolCalls == [] ==>
            |run.chats| == 1 && run.toolRequests == [] && run.messages == [Message(User, query, [])]
            && run.reply == ChatText(first))
      && (first.Ok? && first.value.toolCalls != [] ==>
            && |run.chats| == 2 && |run.messages| >= 2
            && run.messages[1] == AssistantMessage(first.value)
            && run.chats[1] == ChatRequest(model, run.messages, None)
            && run.chats[0].messages <= run.chats[1].messages
            && run.toolRequests == Requests(first.value.toolCalls)
            && run.reply == ChatText(svc.chat(host, run.chats[1])))
  {
    if transport.None? || |tools| == 0 then QueryRun(NOT_CONNECTED, [], [], [])
    else
      var start := [Message(User, query, [])];
      var firstRequest := ChatRequest(model, start, Some(tools));
      var first := svc.chat(host, firstRequest);
      if first.Err? || first.value.toolCalls == [] then QueryRun(ChatText(first), [firstRequest], [], start)
      else
        var calls := first.value.toolCalls;
        var messages := start + [AssistantMessage(first.value)] + Dispatch(calls, transport.value, svc);
        var secondRequest := ChatRequest(model, messages, None);
        QueryRun(ChatText(svc.chat(host, secondRequest)), [firstRequest, secondRequest], Requests(calls), messages)
  }

  /** After a query that used tools, the conversation is the user's query,
      the assistant message carrying the calls, then exactly one `tool`
      message per call, in call order, each answering its own call (a
      failed call is answered with its error and the rest still run). */
  lemma ConversationShape(svc: Services, transport: Option<string>, tools: seq<OllamaTool>,
                          model: string, host: string, query: string)
    ensures var run := Process(svc, transport, tools, model, host, query);
      |run.chats| == 2 ==>
        && transport.Some?
        && |run.messages| >= 2
        && run.messages[0] == Message(User, query, [])
        && run.messages[1].role == Assistant
        && var calls := run.messages[1].toolCalls;
        && |calls| >= 1
        && |run.messages| == 2 + |calls|
        && run.toolRequests == Requests(calls)
        && forall i :: 0 <= i < |calls| ==>
             run.messages[2 + i] == ToolMessage(calls[i], svc.callTool(transport.value, RequestOf(calls[i])), svc.stringify)
  {
    var run := Process(svc, transport, tools, model, host, query);
    if |run.chats| == 2 {
      var first := svc.chat(host, run.chats[0]);
      var calls := first.value.toolCalls;
      DispatchShape(calls, transport.value, svc);
      var dispatched := Dispatch(calls, transport.value, svc);
      assert run.messages == [Message(User, query, []), AssistantMessage(first.value)] + dispatched;
      forall i | 0 <= i < |calls|
        ensures run.messages[2 + i] == ToolMessage(calls[i], svc.callTool(transport.value, RequestOf(calls[i])), svc.stringify)
      {
        assert run.messages[2 + i] == dispatched[i];
      }
    }
  }

  /** A tool call that throws is answered by a `tool` message naming the
      tool and its error, and the loop goes on: every later call is still
      dispatched and the model is still asked a second time. */
  lemma ToolErrorAbsorbed(svc: Services, transport: Option<string>, tools: seq<OllamaTool>,
                          model: string, host: string, query: string, i: nat)
    requires transport.Some?
    requires var run := Process(svc, transport, tools, model, host, query);
      |run.chats| == 2 && |run.messages| >= 2 && i < |run.messages[1].toolCalls|
    requires var call := Process(svc, transport, tools, model, host, query).messages[1].toolCalls[i];
      svc.callTool(transport.value, RequestOf(call)).Err?
    ensures var run := Process(svc, transport, tools, model, host, query);
      var call := run.messages[1].toolCalls[i];
      && |run.messages| == 2 + |run.messages[1].toolCalls|
      && run.messages[2 + i] == Message(Tool, "Error executing tool " + call.name + ": "
                                              + svc.callTool(transport.value, RequestOf(call)).message, [])
  {
    ConversationShape(svc, transport, tools, model, host, query);
  }

  /** Every `tool` message follows, within an unbroken run of `tool`
      messages, an assistant message with at least as many calls as that
      run has messages so far. */
  predicate ToolMessagesFollowCalls(ms: seq<Message>)
  {
    forall i :: 0 <= i < |ms| && ms[i].role == Tool ==>
      exists j :: 0 <= j < i && ms[j].role == Assistant && i - j <= |ms[j].toolCalls|
                  && forall k :: j < k < i ==> ms[k].role == Tool
  }

  /** No conversation a query builds has a `tool` message that does not
      answer a call of the assistant message before it. */
  lemma ConversationWellOrdered(svc: Services, transport: Option<string>, tools: seq<OllamaTool>,
                                model: string, host: string, query: string)
    ensures ToolMessagesFollowCalls(Process(svc, transport, tools, model, host, query).messages)
  {
    var run := Process(svc, transport, tools, model, host, query);
    var ms := run.messages;
    if |run.chats| == 2 {
      ConversationShape(svc, transport, tools, model, host, query);
      forall i | 0 <= i < |ms| && ms[i].role == Tool
        ensures exists j :: 0 <= j < i && ms[j].role == Assistant && i - j <= |ms[j].toolCalls|
                            && forall k :: j < k < i ==> ms[k].role == Tool
      {
        assert i >= 2;
        var calls := ms[1].toolCalls;
        forall k | 1 < k < |ms| ensures ms[k].role == Tool {
          var c := k - 2;
          assert ms[2 + c] == ToolMessage(calls[c], svc.callTool(transport.value, RequestOf(calls[c])), svc.stringify);
        }
        assert ms[1].role == Assistant && i - 1 <= |ms[1].toolCalls|;
      }
    } else {
      assert forall i :: 0 <= i < |ms| ==> ms[i].role == User;
    }
  }

  // ---- the chat loop ----

  /** `message.toLowerCase() === 'quit'`. */
  predicate IsQuit(message: string)
  {
    Lower(message) == "quit"
  }

  /** Exactly the four letters of `quit`, each in either case, stop the
      loop; nothing longer or shorter does. */
  lemma IsQuitCases(message: string)
    ensures IsQuit(message) <==>
      |message| == 4 && (message[0] == 'q' || message[0] == 'Q') && (message[1] == 'u' || message[1] == 'U')
      && (message[2] == 'i' || message[2] == 'I') && (message[3] == 't' || message[3] == 'T')
  {
    var low := Lower(message);
    if |message| == 4 {
      assert low == "quit" <==> (low[0] == 'q' && low[1] == 'u' && low[2] == 'i' && low[3] == 't');
    }
  }

  /** The queries the loop processes: those before the first `quit`. */
  function UntilQuit(queries: seq<string>): (r: seq<string>)
    ensures |r| <= |queries| && r == queries[..|r|]
    ensures forall k :: 0 <= k < |r| ==> !IsQuit(r[k])
    ensures |r| < |queries| ==> IsQuit(queries[|r|])
  {
    if queries == [] then []
    else if IsQuit(queries[0]) then []
    else
      var rest := UntilQuit(queries[1..]);
      assert [queries[0]] + rest == queries[..|rest| + 1];
      [queries[0]] + rest
  }

  /** What the loop logs for one query. */
  function LoopLine(svc: Services, transport: Option<string>, tools: seq<OllamaTool>,
                    model: string, host: string, query: string): string
  {
    if transport.Some? then REPLY_PREFIX + Process(svc, transport, tools, model, host, query).reply
    else LOOP_NOT_CONNECTED
  }

  /** What the loop logs for each of `queries`: `\nOllama: ` and the answer
      when a transport is held, the not-connected notice otherwise. */
  function Replies(svc: Services, transport: Option<string>, tools: seq<OllamaTool>,
                   model: string, host: string, queries: seq<string>): (lines: seq<string>)
    ensures |lines| == |queries|
    ensures transport.Some? ==> forall k :: 0 <= k < |lines| ==>
              lines[k] == REPLY_PREFIX + Process(svc, transport, tools, model, host, queries[k]).reply
    ensures transport.None? ==> forall k :: 0 <= k < |lines| ==> lines[k] == LOOP_NOT_CONNECTED
  {
    seq(|queries|, k requires 0 <= k < |queries| => LoopLine(svc, transport, tools, model, host, queries[k]))
  }

  /** Answering one more query adds its line at the end. */
  lemma RepliesSnoc(svc: Services, transport: Option<string>, tools: seq<OllamaTool>,
                    model: string, host: string, queries: seq<string>)
    requires queries != []
    ensures Replies(svc, transport, tools, model, host, queries)
         == Replies(svc, transport, tools, model, host, queries[..|queries| - 1])
            + [LoopLine(svc, transport, tools, model, host, queries[|queries| - 1])]
  {
  }

  /** The settings the chat loop reads: an empty answer takes the default,
      and the result is trimmed. */
  function Setting(answer: string, default: string): string
  {
    Trim(OrString(answer, default))
  }

  /** A non-empty answer is trimmed and used; an empty one gives way to the
      default, trimmed. */
  lemma SettingCases(answer: string, default: string)
    ensures answer != "" ==> Setting(answer, default) == Trim(answer)
    ensures answer == "" ==> Setting(answer, default) == Trim(default)
  {
  }

  /** Whether `connectToServer(url)` succeeds. */
  predicate Connects(svc: Services, url: string)
  {
    svc.parseUrl(url).Ok? && svc.listTools(svc.parseUrl(url).value).Ok?
  }

  /** The state `connectToServer(url)` leaves on success: the transport is
      the parsed URL and the tools are the server's listed tools, mapped. */
  predicate ConnectedTo(svc: Services, url: string, transport: Option<string>, tools: seq<OllamaTool>)
  {
    && Connects(svc, url)
    && transport == Some(svc.parseUrl(url).value)
    && tools == ToOllamaTools(svc.listTools(svc.parseUrl(url).value).value)
  }

  class MCPClient {
    const services: Services
    var ollamaHost: string
    var transport: Option<string>
    var tools: seq<OllamaTool>
    var activeModel: string

    /** `new MCPClient(ollamaHost?, defaultModel?)`. */
    constructor (services: Services, ollamaHost: string := DEFAULT_HOST, defaultModel: string := DEFAULT_MODEL)
      ensures this.services == services && this.ollamaHost == ollamaHost && activeModel == defaultModel
      ensures transport.None? && tools == []
    {
      this.services := services;
      this.ollamaHost := ollamaHost;
      this.activeModel := defaultModel;
      this.transport := None;
      this.tools := [];
    }

    /** `connectToServer(urlString)`: on success the transport is the
        server's URL and the tools are its listed tools, mapped; on any
        failure the transport is reset, the tools are left as they were,
        and the error is rethrown. */
    method ConnectToServer(urlString: string) returns (r: Outcome<()>)
      modifies this
      ensures ollamaHost == old(ollamaHost) && activeModel == old(activeModel)
      ensures r.Ok? <==> Connects(services, urlString)
      ensures r.Ok? ==> ConnectedTo(services, urlString, transport, tools)
      ensures r.Err? ==> transport.None? && tools == old(tools)
      ensures services.parseUrl(urlString).Err? ==> r == Err(services.parseUrl(urlString).message)
      ensures services.parseUrl(urlString).Ok? ==>
        var url := services.parseUrl(urlString).value;
        && (services.listTools(url).Err? ==> r == Err(services.listTools(url).message))
        && (services.listTools(url).Ok? ==> transport == Some(url) && tools == ToOllamaTools(services.listTools(url).value))
    {
      var parsed := services.parseUrl(urlString);
      if parsed.Err? {
        transport := None;
        return Err(parsed.message);
      }
      transport := Some(parsed.value);
      var listed := services.listTools(parsed.value);
      if listed.Err? {
        transport := None;
        return Err(listed.message);
      }
      tools := ToOllamaTools(listed.value);
      r := Ok(());
    }

    /** `processQuery(query)`: the guard, one chat request with the tools,
        and, when the model asks for tools, each call in turn followed by
        one chat request without tools. */
    method ProcessQuery(query: string) returns (run: QueryRun)
      ensures run == Process(services, transport, tools, activeModel, ollamaHost, query)
    {
      if transport.None? || |tools| == 0 {
        return QueryRun(NOT_CONNECTED, [], [], []);
      }
      var url := transport.value;
      var messages := [Message(User, query, [])];
      var firstRequest := ChatRequest(activeModel, messages, Some(tools));
      var first := services.chat(ollamaHost, firstRequest);
      if first.Err? {
        return QueryRun(QUERY_ERROR_PREFIX + first.message, [firstRequest], [], messages);
      }
      var reply := first.value;
      if |reply.toolCalls| == 0 {
        return QueryRun(reply.content, [firstRequest], [], messages);
      }
      messages := messages + [AssistantMessage(reply)];
      var calls := reply.toolCalls;
      var requests: seq<CallToolRequest> := [];
      var i := 0;
      while i < |calls|
        invariant 0 <= i <= |calls|
        invariant messages == [Message(User, query, []), AssistantMessage(reply)] + Dispatch(calls[..i], url, services)
        invariant requests == Requests(calls[..i])
      {
        var request := RequestOf(calls[i]);
        var result := services.callTool(url, request);
        messages := messages + [ToolMessage(calls[i], result, services.stringify)];
        requests := requests + [request];
        assert calls[..i + 1][..i] == calls[..i];
        i := i + 1;
      }
      assert calls[..i] == calls;
      assert messages == [Message(User, query, [])] + [AssistantMessage(reply)] + Dispatch(calls, url, services);
      var secondRequest := ChatRequest(activeModel, messages, None);
      var second := services.chat(ollamaHost, secondRequest);
      var answer := if second.Ok? then second.value.content else QUERY_ERROR_PREFIX + second.message;
      run := QueryRun(answer, [firstRequest, secondRequest], requests, messages);
    }

    /** The query loop of `chatLoop`: each query before the first `quit`
        is answered in turn (or met with a notice when there is no
        transport), and nothing after it is read. */
    method Converse(queries: seq<string>) returns (lines: seq<string>)
      ensures lines == Replies(services, transport, tools, activeModel, ollamaHost, UntilQuit(queries))
    {
      lines := [];
      var i := 0;
      while i < |queries| && !IsQuit(queries[i])
        invariant 0 <= i <= |queries|
        invariant forall k :: 0 <= k < i ==> !IsQuit(queries[k])
        invariant lines == Replies(services, transport, tools, activeModel, ollamaHost, queries[..i])
      {
        var line: string;
        if transport.Some? {
          var run := ProcessQuery(queries[i]);
          line := REPLY_PREFIX + run.reply;
        } else {
          line := LOOP_NOT_CONNECTED;
        }
        RepliesSnoc(services, transport, tools, activeModel, ollamaHost, queries[..i + 1]);
        assert queries[..i + 1][..i] == queries[..i];
        lines := lines + [line];
        i := i + 1;
      }
      assert |UntilQuit(queries)| == i;
    }

    /** The part of `chatLoop` after the settings: connect to `url` and, on
        success, answer the queries up to `quit`; a failed connection
        leaves no transport, keeps the tools and answers nothing. */
    method Session(url: string, queries: seq<string>) returns (lines: seq<string>)
      modifies this
      ensures ollamaHost == old(ollamaHost) && activeModel == old(activeModel)
      ensures transport.Some? <==> Connects(services, url)
      ensures transport.Some? ==> ConnectedTo(services, url, transport, tools)
      ensures transport.None? ==> tools == old(tools) && lines == []
      ensures transport.Some? ==> lines == Replies(services, transport, tools, activeModel, ollamaHost, UntilQuit(queries))
    {
      var connected := ConnectToServer(url);
      if connected.Ok? {
        lines := Converse(queries);
      } else {
        lines := [];
      }
    }

    /** `chatLoop()` given the three answers to its prompts and the queries
        typed after them. It sets the model service's host and the model,
        connects, and on success answers the queries up to `quit`; a failed
        connection ends it with nothing answered. On the way out it asks to
        close the connection exactly when a transport is held. The three
        defaults an empty answer gives way to are the ones the prompts
        offer unless a caller says otherwise. */
    method ChatLoop(hostAnswer: string, modelAnswer: string, urlAnswer: string, queries: seq<string>,
                    hostDefault: string := DEFAULT_HOST, modelDefault: string := PROMPT_DEFAULT_MODEL,
                    urlDefault: string := DEFAULT_SERVER_URL)
      returns (lines: seq<string>, closeRequested: bool)
      modifies this
      ensures ollamaHost == Setting(hostAnswer, hostDefault)
      ensures activeModel == Setting(modelAnswer, modelDefault)
      ensures transport.Some? <==> Connects(services, Setting(urlAnswer, urlDefault))
      ensures transport.Some? ==> ConnectedTo(services, Setting(urlAnswer, urlDefault), transport, tools)
      ensures transport.None? ==> tools == old(tools) && lines == []
      ensures transport.Some? ==> lines == Replies(services, transport, tools, activeModel, ollamaHost, UntilQuit(queries))
      ensures closeRequested == transport.Some?
    {
      ollamaHost := Setting(hostAnswer, hostDefault);
      activeModel := Setting(modelAnswer, modelDefault);
      lines := Session(Setting(urlAnswer, urlDefault), queries);
      closeRequested := transport.Some?;
    }
  }
}

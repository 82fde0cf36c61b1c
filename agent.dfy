/** The MCP agent of cmd/promptc/main.go, run sequentially: one object holds
    what the program keeps in its global `metrics` and `hub` records, plus
    what it writes out (the JSON-RPC responses on standard output and the last
    metrics snapshot saved). Clock readings, latencies, probe outcomes,
    decoded request bodies and the optimizer calls are parameters. */
module Agent {
  import opened Wrappers
  import opened GoStrings
  import opened Engine
  import opened Providers
  import opened Sdk
  import opened Audit
  import opened Metrics
  import opened Protocol

  /** The Ollama node's address when PROMPTC_MACMINI_IP is not set. */
  const DefaultRemoteIP: string := "100.90.6.101"

  // ---------------------------------------------------------------------------
  // The events the agent records
  // ---------------------------------------------------------------------------

  function NodeOnlineEvent(remoteIP: string): AuditEvent
  {
    AuditEvent("KERNEL", "NODE_ONLINE", "mac-mini", remoteIP + ":11434", "OK", 0,
               "Nodo Ollama respondió heartbeat")
  }

  function NodeOfflineEvent(remoteIP: string): AuditEvent
  {
    AuditEvent("KERNEL", "NODE_OFFLINE", "mac-mini", remoteIP + ":11434", "WARN", 0,
               "Nodo no responde — activando fallback Gemini")
  }

  /** The events one heartbeat probe emits: one on a change of state, none
      otherwise. */
  function HeartbeatEvents(wasOnline: bool, probeOk: bool, remoteIP: string): (es: seq<AuditEvent>)
    ensures |es| <= 1
    ensures |es| == 1 <==> wasOnline != probeOk
    ensures probeOk && !wasOnline ==> es == [NodeOnlineEvent(remoteIP)]
    ensures !probeOk && wasOnline ==> es == [NodeOfflineEvent(remoteIP)]
  {
    if probeOk && !wasOnline then [NodeOnlineEvent(remoteIP)]
    else if !probeOk && wasOnline then [NodeOfflineEvent(remoteIP)]
    else []
  }

  /** The audit lines of a list of events, all at one clock reading. */
  function AuditLines(stamp: string, es: seq<AuditEvent>): (ls: seq<string>)
    ensures |ls| == |es| && forall i :: 0 <= i < |es| ==> ls[i] == AuditLine(stamp, es[i])
  {
    seq(|es|, i requires 0 <= i < |es| => AuditLine(stamp, es[i]))
  }

  /** The audit lines of one event and of two. */
  lemma AuditLinesShort(stamp: string, e1: AuditEvent, e2: AuditEvent)
    ensures AuditLines(stamp, [e1]) == [AuditLine(stamp, e1)]
    ensures AuditLines(stamp, [e1, e2]) == [AuditLine(stamp, e1), AuditLine(stamp, e2)]
  {
  }

  function HotReloadEvent(count: int): AuditEvent
  {
    AuditEvent("SYSTEM", "HOT_RELOAD", "dashboard-operator", "", "OK", 0, Itoa(count) + " templates recargados")
  }

  function ParseErrorEvent(error: string): AuditEvent
  {
    AuditEvent("MCP", "TOOL_PARSE_ERROR", "claude-desktop", "", "FAIL", 0, error)
  }

  function ToolInvokedEvent(tool: string): AuditEvent
  {
    AuditEvent("MCP", "TOOL_INVOKED", "claude-desktop", tool, "OK", 0, "")
  }

  /** The node that will serve an inference: the Mac mini while it answers
      heartbeats, Gemini otherwise. */
  function InferenceActor(nodeOnline: bool): string
  {
    if nodeOnline then "mac-mini" else "gemini-cloud"
  }

  function PipelineStartEvent(nodeOnline: bool): AuditEvent
  {
    AuditEvent("INFERENCE", "PIPELINE_START", "promptc-engine", InferenceActor(nodeOnline), "OK", 0, "")
  }

  function BootEvent(mode: string): AuditEvent
  {
    AuditEvent("KERNEL", "BOOT", "promptc-engine", "", "OK", 0, "PROMPTC v0.3.1 [" + mode + "] iniciado")
  }

  // ---------------------------------------------------------------------------
  // optimize_prompt
  // ---------------------------------------------------------------------------

  /** A known template_name replaces the task with the template's content; an
      unknown or empty one keeps the task given. */
  function TaskOf(a: OptimizeArgs, templates: map<string, Template>): (task: string)
    ensures a.templateName != "" && a.templateName in templates ==> task == templates[a.templateName].content
    ensures a.templateName == "" || a.templateName !in templates ==> task == a.task
  {
    if a.templateName != "" && a.templateName in templates then templates[a.templateName].content else a.task
  }

  /** The prompt handed to the SDK. */
  function PromptOf(a: OptimizeArgs, task: string): Prompt
  {
    Prompt("", "", a.role, a.context, task, a.constraints, a.variables)
  }

  /** The token estimate of a reply: a quarter of its length in bytes,
      rounded down. */
  function EstimatedTokens(res: string): (n: int)
    ensures 0 <= n && 4 * n <= ByteLen(res) < 4 * n + 4
  {
    ByteLen(res) / 4
  }

  /** The template counts after resolving the task of `a`. */
  function TemplateCallsAfter(a: OptimizeArgs, templates: map<string, Template>, calls: map<string, int>): map<string, int>
  {
    if a.templateName != "" && a.templateName in templates then TemplateCallRecorded(calls, a.templateName) else calls
  }

  /** `res` is what the SDK delivers for `p` when the variables are visited
      in some order of their keys. */
  ghost predicate Routed(res: string, app: PromptC, p: Prompt, optimize: OptimizeCall)
  {
    exists order :: IsKeyOrder(order, p.variables) && res == Optimized(app, p, order, optimize)
  }

  /** The order a Go `range` visits the keys of `m` in: every key once, in an
      order the model leaves open. */
  method EnumerateKeys(m: map<string, string>) returns (order: seq<string>)
    ensures IsKeyOrder(order, m)
  {
    order := [];
    var rest := m.Keys;
    while rest != {}
      invariant forall k :: k in m <==> k in order || k in rest
      invariant forall k :: k in rest ==> k !in order
      invariant forall i, j :: 0 <= i < j < |order| ==> order[i] != order[j]
      decreases |rest|
    {
      var k :| k in rest;
      order := order + [k];
      rest := rest - {k};
    }
  }

  // ---------------------------------------------------------------------------
  // tools/call
  // ---------------------------------------------------------------------------

  /** Whether a tools/call runs optimize_prompt's pipeline: its params name
      that tool and its arguments decode. */
  predicate RunsPipeline(params: CallParams)
  {
    params.ToolCall? && params.name == "optimize_prompt" && params.optimizeArgs.Some?
  }

  /** The text of handleToolCall's response when it does not come from the
      SDK: None exactly when the pipeline runs. */
  function ToolReply(params: CallParams, templates: map<string, Template>): (r: Option<string>)
    ensures r.None? <==> RunsPipeline(params)
  {
    match params
    case Unparsable(error) => Some(ParseErrorPrefix + error)
    case ToolCall(name, templateArgs, optimizeArgs) =>
      if name == "get_template" then
        if templateArgs.None? then Some(InvalidArguments)
        else if templateArgs.value !in templates then Some(TemplateNotFound)
        else Some(templates[templateArgs.value].content)
      else if name == "optimize_prompt" then
        if optimizeArgs.None? then Some(InvalidArguments) else None
      else Some(UnknownTool)
  }

  /** The audit events of one tools/call: a parse error, or the invocation
      followed, when the pipeline runs, by its start. */
  function ToolCallEvents(params: CallParams, nodeOnline: bool): seq<AuditEvent>
  {
    if params.Unparsable? then [ParseErrorEvent(params.error)]
    else if RunsPipeline(params) then [ToolInvokedEvent(params.name), PipelineStartEvent(nodeOnline)]
    else [ToolInvokedEvent(params.name)]
  }

  /** The counters after one tools/call whose response text is `reply`: a
      known template counts one call, and the pipeline also records one
      successful inference. */
  function ToolCallCounters(c: Counters, params: CallParams, templates: map<string, Template>,
                            latencyMs: int, reply: string, nodeOnline: bool): Counters
  {
    if RunsPipeline(params) then
      var a := params.optimizeArgs.value;
      Recorded(c.(templateCalls := TemplateCallsAfter(a, templates, c.templateCalls)),
               true, latencyMs, EstimatedTokens(reply), !nodeOnline)
    else if params.ToolCall? && params.name == "get_template" && params.templateArgs.Some?
            && params.templateArgs.value in templates then
      c.(templateCalls := TemplateCallRecorded(c.templateCalls, params.templateArgs.value))
    else c
  }

  /** The template a tools/call counts a call of, if any: the one
      get_template returns, or the known template_name of a pipeline run. */
  function CountedTemplate(params: CallParams, templates: map<string, Template>): Option<string>
  {
    if params.ToolCall? && params.name == "get_template" && params.templateArgs.Some?
       && params.templateArgs.value in templates then Some(params.templateArgs.value)
    else if RunsPipeline(params) && params.optimizeArgs.value.templateName != ""
            && params.optimizeArgs.value.templateName in templates then Some(params.optimizeArgs.value.templateName)
    else None
  }

  /** A tools/call records one inference exactly when the pipeline runs, and
      it is always a success, served by Gemini when the node is offline; it
      counts a call of at most one template; and it is audited by two events
      when the pipeline runs, by one otherwise. */
  lemma ToolCallAccounting(c: Counters, params: CallParams, templates: map<string, Template>,
                           latencyMs: int, reply: string, nodeOnline: bool)
    ensures var r := ToolCallCounters(c, params, templates, latencyMs, reply, nodeOnline);
            var n := if RunsPipeline(params) then 1 else 0;
            && r.inferenceCount == c.inferenceCount + n
            && r.inferenceSuccess == c.inferenceSuccess + n
            && r.inferenceFail == c.inferenceFail
            && r.geminiCallCount == c.geminiCallCount + (if RunsPipeline(params) && !nodeOnline then 1 else 0)
            && (CountedTemplate(params, templates).None? ==> r.templateCalls == c.templateCalls)
            && (CountedTemplate(params, templates).Some? ==>
                  r.templateCalls == TemplateCallRecorded(c.templateCalls, CountedTemplate(params, templates).value))
            && |ToolCallEvents(params, nodeOnline)| == n + 1
  {
  }

  // ---------------------------------------------------------------------------
  // The agent
  // ---------------------------------------------------------------------------

  class Agent {
    /** metrics.NodeOnline and metrics.LastHeartbeat (a clock reading). */
    var nodeOnline: bool
    var lastHeartbeat: int
    /** The counters of `metrics`. */
    var counters: Counters
    /** metrics.CurrentMode. */
    var currentMode: string
    /** hub.Logs and hub.Templates. */
    var logs: seq<string>
    var templates: map<string, Template>
    /** What has been written on standard output, in order. */
    var responses: seq<Response>
    /** The last snapshot saved to metrics.json, if any. */
    var persisted: Option<MetricsSnapshot>
    /** The inference count the persistence ticker last saw. */
    var tickerCount: int

    /** The state before main runs. */
    constructor ()
      ensures !nodeOnline && lastHeartbeat == 0 && counters == Fresh && currentMode == ""
      ensures logs == [] && templates == map[] && responses == [] && persisted == None && tickerCount == 0
    {
      nodeOnline := false;
      lastHeartbeat := 0;
      counters := Fresh;
      currentMode := "";
      logs := [];
      templates := map[];
      responses := [];
      persisted := None;
      tickerCount := 0;
    }

    /** The last response written. */
    function LastResponse(): Response
      reads this
      requires |responses| > 0
    {
      responses[|responses| - 1]
    }

    /** auditLog: appends exactly one line to the log. */
    method AuditLog(stamp: string, e: AuditEvent)
      modifies this
      ensures logs == old(logs) + [AuditLine(stamp, e)]
      ensures nodeOnline == old(nodeOnline) && lastHeartbeat == old(lastHeartbeat) && counters == old(counters)
      ensures currentMode == old(currentMode) && templates == old(templates) && responses == old(responses)
      ensures persisted == old(persisted) && tickerCount == old(tickerCount)
    {
      logs := logs + [AuditLine(stamp, e)];
    }

    /** addLog: appends exactly one internal line to the log. */
    method AddLog(stamp: string, msg: string)
      modifies this
      ensures logs == old(logs) + [AddLogLine(stamp, msg)]
      ensures nodeOnline == old(nodeOnline) && lastHeartbeat == old(lastHeartbeat) && counters == old(counters)
      ensures currentMode == old(currentMode) && templates == old(templates) && responses == old(responses)
      ensures persisted == old(persisted) && tickerCount == old(tickerCount)
    {
      logs := logs + [AddLogLine(stamp, msg)];
    }

    /** sendResponse: writes one JSON-RPC 2.0 response. */
    method SendResponse(id: string, result: Reply)
      modifies this
      ensures responses == old(responses) + [Response("2.0", id, result)]
      ensures nodeOnline == old(nodeOnline) && lastHeartbeat == old(lastHeartbeat) && counters == old(counters)
      ensures currentMode == old(currentMode) && templates == old(templates) && logs == old(logs)
      ensures persisted == old(persisted) && tickerCount == old(tickerCount)
    {
      responses := responses + [Response("2.0", id, result)];
    }

    /** saveMetrics: writes the snapshot of the counters. */
    method SaveMetrics()
      modifies this
      ensures persisted == Some(SnapshotOf(counters))
      ensures nodeOnline == old(nodeOnline) && lastHeartbeat == old(lastHeartbeat) && counters == old(counters)
      ensures currentMode == old(currentMode) && templates == old(templates) && logs == old(logs)
      ensures responses == old(responses) && tickerCount == old(tickerCount)
    {
      persisted := Some(SnapshotOf(counters));
    }

    /** loadMetrics: a decoded snapshot overwrites the counters, and the
        template counts when it has them; otherwise nothing changes. */
    method LoadMetrics(stored: StoredMetrics)
      modifies this
      ensures counters == Restored(old(counters), stored)
      ensures nodeOnline == old(nodeOnline) && lastHeartbeat == old(lastHeartbeat) && persisted == old(persisted)
      ensures currentMode == old(currentMode) && templates == old(templates) && logs == old(logs)
      ensures responses == old(responses) && tickerCount == old(tickerCount)
    {
      match stored {
        case NoFile =>
        case Unparsable =>
        case Parsed(snap) =>
          var calls := counters.templateCalls;
          if snap.templateCalls.Some? {
            calls := snap.templateCalls.value;
          }
          counters := Counters(snap.inferenceCount, snap.inferenceSuccess, snap.inferenceFail,
                               snap.totalLatencyMs, snap.totalTokens, snap.geminiCallCount, calls);
      }
    }

    /** recordInference: counts one inference and saves the counters when
        the new count is a multiple of ten. */
    method RecordInference(success: bool, latencyMs: int, tokens: int, usedGemini: bool)
      modifies this
      ensures counters == Recorded(old(counters), success, latencyMs, tokens, usedGemini)
      ensures persisted == if SaveDue(counters) then Some(SnapshotOf(counters)) else old(persisted)
      ensures nodeOnline == old(nodeOnline) && lastHeartbeat == old(lastHeartbeat)
      ensures currentMode == old(currentMode) && templates == old(templates) && logs == old(logs)
      ensures responses == old(responses) && tickerCount == old(tickerCount)
    {
      var c := counters;
      c := c.(inferenceCount := c.inferenceCount + 1);
      c := c.(totalLatencyMs := c.totalLatencyMs + latencyMs);
      c := c.(totalTokens := c.totalTokens + tokens);
      if success {
        c := c.(inferenceSuccess := c.inferenceSuccess + 1);
      } else {
        c := c.(inferenceFail := c.inferenceFail + 1);
      }
      if usedGemini {
        c := c.(geminiCallCount := c.geminiCallCount + 1);
      }
      counters := c;
      if counters.inferenceCount % 10 == 0 {
        SaveMetrics();
      }
    }

    /** recordTemplatCall: one more call of template `name`. */
    method RecordTemplateCall(name: string)
      modifies this
      ensures counters == old(counters).(templateCalls := TemplateCallRecorded(old(counters).templateCalls, name))
      ensures nodeOnline == old(nodeOnline) && lastHeartbeat == old(lastHeartbeat) && persisted == old(persisted)
      ensures currentMode == old(currentMode) && templates == old(templates) && logs == old(logs)
      ensures responses == old(responses) && tickerCount == old(tickerCount)
    {
      var calls := counters.templateCalls;
      var n := if name in calls then calls[name] else 0;
      counters := counters.(templateCalls := calls[name := n + 1]);
    }

    /** One tick of the persistence ticker: a save exactly when the count
        moved since the last tick. */
    method PersistenceTick()
      modifies this
      ensures tickerCount == counters.inferenceCount
      ensures persisted == if counters.inferenceCount != old(tickerCount) then Some(SnapshotOf(counters))
                           else old(persisted)
      ensures nodeOnline == old(nodeOnline) && lastHeartbeat == old(lastHeartbeat) && counters == old(counters)
      ensures currentMode == old(currentMode) && templates == old(templates) && logs == old(logs)
      ensures responses == old(responses)
    {
      var current := counters.inferenceCount;
      if current != tickerCount {
        SaveMetrics();
        tickerCount := current;
      }
    }

    /** One step of the heartbeat loop, after a probe of the node at
        `remoteIP` that answered 200 (`probeOk`) or not, at time `now`. */
    method HeartbeatStep(remoteIP: string, probeOk: bool, now: int, stamp: string)
      modifies this
      ensures nodeOnline == probeOk
      ensures lastHeartbeat == if probeOk then now else old(lastHeartbeat)
      ensures logs == old(logs) + AuditLines(stamp, HeartbeatEvents(old(nodeOnline), probeOk, remoteIP))
      ensures counters == old(counters) && persisted == old(persisted) && tickerCount == old(tickerCount)
      ensures currentMode == old(currentMode) && templates == old(templates) && responses == old(responses)
    {
      if probeOk {
        var wasOffline := !nodeOnline;
        nodeOnline := true;
        lastHeartbeat := now;
        if wasOffline {
          AuditLog(stamp, NodeOnlineEvent(remoteIP));
        }
      } else {
        var wasOnline := nodeOnline;
        nodeOnline := false;
        if wasOnline {
          AuditLog(stamp, NodeOfflineEvent(remoteIP));
        }
      }
    }

    /** A POST to /api/config: a decoded body replaces the templates wholesale
        and is announced by one HOT_RELOAD event; a body that does not decode
        changes nothing. */
    method HotReload(body: Option<map<string, Template>>, stamp: string)
      modifies this
      ensures body.None? ==> templates == old(templates) && logs == old(logs)
      ensures body.Some? ==> templates == body.value
                             && logs == old(logs) + [AuditLine(stamp, HotReloadEvent(|body.value|))]
      ensures nodeOnline == old(nodeOnline) && lastHeartbeat == old(lastHeartbeat) && counters == old(counters)
      ensures currentMode == old(currentMode) && responses == old(responses)
      ensures persisted == old(persisted) && tickerCount == old(tickerCount)
    {
      if body.Some? {
        templates := body.value;
        AuditLog(stamp, HotReloadEvent(|body.value|));
      }
    }

    /** The get_template branch: the content of a known template, counted as
        one call; an error text otherwise. */
    method GetTemplate(id: string, args: Option<string>)
      modifies this
      ensures |responses| == |old(responses)| + 1 && responses[..|old(responses)|] == old(responses)
      ensures LastResponse().id == id && LastResponse().jsonrpc == "2.0"
      ensures args.None? ==> LastResponse().result == TextContent(InvalidArguments) && counters == old(counters)
      ensures args.Some? && args.value !in templates ==>
                LastResponse().result == TextContent(TemplateNotFound) && counters == old(counters)
      ensures args.Some? && args.value in templates ==>
                && LastResponse().result == TextContent(templates[args.value].content)
                && counters == old(counters).(templateCalls := TemplateCallRecorded(old(counters).templateCalls, args.value))
      ensures nodeOnline == old(nodeOnline) && lastHeartbeat == old(lastHeartbeat) && persisted == old(persisted)
      ensures currentMode == old(currentMode) && templates == old(templates) && logs == old(logs)
      ensures tickerCount == old(tickerCount)
    {
      if args.None? {
        SendResponse(id, TextContent(InvalidArguments));
        return;
      }
      var name := args.value;
      if name !in templates {
        SendResponse(id, TextContent(TemplateNotFound));
        return;
      }
      var tmpl := templates[name];
      RecordTemplateCall(name);
      SendResponse(id, TextContent(tmpl.content));
    }

    /** The task resolution of optimize_prompt: a known template_name gives
        the task and counts as one call of that template. */
    method ResolveTask(a: OptimizeArgs) returns (task: string)
      modifies this
      ensures task == TaskOf(a, templates)
      ensures counters == old(counters).(templateCalls := TemplateCallsAfter(a, templates, old(counters).templateCalls))
      ensures nodeOnline == old(nodeOnline) && lastHeartbeat == old(lastHeartbeat) && persisted == old(persisted)
      ensures currentMode == old(currentMode) && templates == old(templates) && logs == old(logs)
      ensures responses == old(responses) && tickerCount == old(tickerCount)
    {
      task := a.task;
      if a.templateName != "" {
        if a.templateName in templates {
          task := templates[a.templateName].content;
          RecordTemplateCall(a.templateName);
        }
      }
    }

    /** The pipeline of optimize_prompt once the task is known: the start is
        audited with the node expected to serve, the SDK routes the prompt
        with the variables in some key order, the inference is recorded as a
        success with the reply's token estimate, and the reply is the SDK's
        text. */
    method RunPipeline(id: string, a: OptimizeArgs, task: string, app: PromptC, optimize: OptimizeCall,
                       stamp: string, latencyMs: int)
      modifies this
      ensures |responses| == |old(responses)| + 1 && responses[..|old(responses)|] == old(responses)
      ensures LastResponse() == Response("2.0", id, LastResponse().result) && LastResponse().result.TextContent?
      ensures Routed(LastResponse().result.text, app, PromptOf(a, task), optimize)
      ensures logs == old(logs) + [AuditLine(stamp, PipelineStartEvent(nodeOnline))]
      ensures counters == Recorded(old(counters), true, latencyMs, EstimatedTokens(LastResponse().result.text), !nodeOnline)
      ensures persisted == if SaveDue(counters) then Some(SnapshotOf(counters)) else old(persisted)
      ensures nodeOnline == old(nodeOnline) && lastHeartbeat == old(lastHeartbeat)
      ensures currentMode == old(currentMode) && templates == old(templates) && tickerCount == old(tickerCount)
    {
      var online := nodeOnline;
      AuditLog(stamp, PipelineStartEvent(online));
      var p := PromptOf(a, task);
      var order := EnumerateKeys(a.variables);
      var res, _ := CompileAndOptimize(app, p, order, optimize);
      assert Routed(res, app, p, optimize);
      var tokens := ByteLen(res) / 4;
      RecordInference(true, latencyMs, tokens, !online);
      SendResponse(id, TextContent(res));
    }

    /** The optimize_prompt branch: arguments that do not decode are refused
        with nothing recorded; otherwise the task is resolved and the
        pipeline runs. */
    method OptimizePrompt(id: string, args: Option<OptimizeArgs>, app: PromptC, optimize: OptimizeCall,
                          stamp: string, latencyMs: int)
      modifies this
      ensures |responses| == |old(responses)| + 1 && responses[..|old(responses)|] == old(responses)
      ensures LastResponse().id == id && LastResponse().jsonrpc == "2.0"
      ensures args.None? ==> && LastResponse().result == TextContent(InvalidArguments)
                              && counters == old(counters) && logs == old(logs) && persisted == old(persisted)
      ensures args.Some? ==>
        var a := args.value;
        && LastResponse().result.TextContent?
        && Routed(LastResponse().result.text, app, PromptOf(a, TaskOf(a, templates)), optimize)
        && logs == old(logs) + [AuditLine(stamp, PipelineStartEvent(nodeOnline))]
        && counters == Recorded(old(counters).(templateCalls := TemplateCallsAfter(a, templates, old(counters).templateCalls)),
                                true, latencyMs, EstimatedTokens(LastResponse().result.text), !nodeOnline)
        && persisted == if SaveDue(counters) then Some(SnapshotOf(counters)) else old(persisted)
      ensures nodeOnline == old(nodeOnline) && lastHeartbeat == old(lastHeartbeat)
      ensures currentMode == old(currentMode) && templates == old(templates) && tickerCount == old(tickerCount)
    {
      if args.None? {
        SendResponse(id, TextContent(InvalidArguments));
        return;
      }
      var task := ResolveTask(args.value);
      RunPipeline(id, args.value, task, app, optimize, stamp, latencyMs);
    }

    /** handleToolCall: every path writes exactly one text response carrying
        the request's id. Its text is ToolReply's when that is fixed, and the
        SDK's routed text when optimize_prompt's pipeline runs. The log gains
        ToolCallEvents, the counters become ToolCallCounters, and the
        snapshot is saved only by a pipeline inference that falls due. */
    method HandleToolCall(id: string, params: CallParams, app: PromptC, optimize: OptimizeCall,
                          stamp: string, latencyMs: int)
      modifies this
      ensures |responses| == |old(responses)| + 1 && responses[..|old(responses)|] == old(responses)
      ensures Ids(responses) == Ids(old(responses)) + [id]
      ensures LastResponse().id == id && LastResponse().jsonrpc == "2.0" && LastResponse().result.TextContent?
      ensures ToolReply(params, templates).Some? ==> LastResponse().result.text == ToolReply(params, templates).value
      ensures RunsPipeline(params) ==>
                var a := params.optimizeArgs.value;
                Routed(LastResponse().result.text, app, PromptOf(a, TaskOf(a, templates)), optimize)
      ensures logs == old(logs) + AuditLines(stamp, ToolCallEvents(params, nodeOnline))
      ensures counters == ToolCallCounters(old(counters), params, templates, latencyMs,
                                           LastResponse().result.text, nodeOnline)
      ensures persisted == if RunsPipeline(params) && SaveDue(counters) then Some(SnapshotOf(counters))
                           else old(persisted)
      ensures nodeOnline == old(nodeOnline) && lastHeartbeat == old(lastHeartbeat)
      ensures currentMode == old(currentMode) && templates == old(templates) && tickerCount == old(tickerCount)
    {
      if params.Unparsable? {
        AuditLog(stamp, ParseErrorEvent(params.error));
        SendResponse(id, TextContent(ParseErrorPrefix + params.error));
        AuditLinesShort(stamp, ParseErrorEvent(params.error), ParseErrorEvent(params.error));
      } else {
        DispatchTool(id, params, app, optimize, stamp, latencyMs);
      }
      assert responses == old(responses) + [LastResponse()];
      IdsConcat(old(responses), [LastResponse()]);
    }

    /** The switch of handleToolCall once the params decode: the invocation
        is audited, then the named tool runs, or an unknown tool is refused. */
    method DispatchTool(id: string, params: CallParams, app: PromptC, optimize: OptimizeCall,
                        stamp: string, latencyMs: int)
      requires params.ToolCall?
      modifies this
      ensures |responses| == |old(responses)| + 1 && responses[..|old(responses)|] == old(responses)
      ensures LastResponse().id == id && LastResponse().jsonrpc == "2.0" && LastResponse().result.TextContent?
      ensures ToolReply(params, templates).Some? ==> LastResponse().result.text == ToolReply(params, templates).value
      ensures RunsPipeline(params) ==>
                var a := params.optimizeArgs.value;
                Routed(LastResponse().result.text, app, PromptOf(a, TaskOf(a, templates)), optimize)
      ensures logs == old(logs) + AuditLines(stamp, ToolCallEvents(params, nodeOnline))
      ensures counters == ToolCallCounters(old(counters), params, templates, latencyMs,
                                           LastResponse().result.text, nodeOnline)
      ensures persisted == if RunsPipeline(params) && SaveDue(counters) then Some(SnapshotOf(counters))
                           else old(persisted)
      ensures nodeOnline == old(nodeOnline) && lastHeartbeat == old(lastHeartbeat)
      ensures currentMode == old(currentMode) && templates == old(templates) && tickerCount == old(tickerCount)
    {
      AuditLog(stamp, ToolInvokedEvent(params.name));
      AuditLinesShort(stamp, ToolInvokedEvent(params.name), PipelineStartEvent(nodeOnline));
      if params.name == "get_template" {
        GetTemplate(id, params.templateArgs);
      } else if params.name == "optimize_prompt" {
        ghost var invoked := logs;
        OptimizePrompt(id, params.optimizeArgs, app, optimize, stamp, latencyMs);
        if params.optimizeArgs.Some? {
          ghost var invokedLine, startLine := AuditLine(stamp, ToolInvokedEvent(params.name)),
                                        AuditLine(stamp, PipelineStartEvent(nodeOnline));
          AppendAssoc(old(logs), [invokedLine], [startLine]);
          assert [invokedLine] + [startLine] == [invokedLine, startLine];
        }
      } else {
        SendResponse(id, TextContent(UnknownTool));
      }
    }

    /** One line of the scan loop: garbage is skipped, initialize and
        tools/list are answered, tools/call is handled, and
        notifications/initialized and unknown methods get no response. Only
        tools/call touches the log, the counters and the snapshot. */
    method HandleLine(line: Line, app: PromptC, optimize: OptimizeCall, stamp: string, latencyMs: int)
      modifies this
      ensures Ids(responses) == Ids(old(responses)) + AnswerTo(line)
      ensures !(line.Request? && Answered(line.methodName)) ==> responses == old(responses)
      ensures Extends(old(responses), responses)
      ensures line.Request? && line.methodName == "initialize" ==>
                LastResponse() == Response("2.0", line.id, InitializeResult(ProtocolVersion, ServerName, ServerVersion))
      ensures line.Request? && line.methodName == "tools/list" ==>
                LastResponse() == Response("2.0", line.id, ToolsList(Tools))
      ensures line.Request? && line.methodName == "tools/call" ==>
                && LastResponse().id == line.id && LastResponse().jsonrpc == "2.0"
                && LastResponse().result.TextContent?
                && (ToolReply(line.params, templates).Some? ==>
                      LastResponse().result.text == ToolReply(line.params, templates).value)
                && (RunsPipeline(line.params) ==>
                      var a := line.params.optimizeArgs.value;
                      Routed(LastResponse().result.text, app, PromptOf(a, TaskOf(a, templates)), optimize))
                && logs == old(logs) + AuditLines(stamp, ToolCallEvents(line.params, nodeOnline))
                && counters == ToolCallCounters(old(counters), line.params, templates, latencyMs,
                                                LastResponse().result.text, nodeOnline)
                && persisted == if RunsPipeline(line.params) && SaveDue(counters) then Some(SnapshotOf(counters))
                                else old(persisted)
      ensures !(line.Request? && line.methodName == "tools/call") ==>
                counters == old(counters) && logs == old(logs) && persisted == old(persisted)
      ensures Extends(old(logs), logs)
      ensures nodeOnline == old(nodeOnline) && lastHeartbeat == old(lastHeartbeat)
      ensures currentMode == old(currentMode) && templates == old(templates) && tickerCount == old(tickerCount)
    {
      if line.Request? && line.methodName == "tools/call" {
        HandleToolCall(line.id, line.params, app, optimize, stamp, latencyMs);
        assert logs == old(logs) + AuditLines(stamp, ToolCallEvents(line.params, nodeOnline));
        assert logs[..|old(logs)|] == old(logs);
      } else {
        HandleOtherLine(line);
      }
    }

    /** A line other than tools/call: initialize and tools/list are answered,
        everything else is skipped, and only the responses change. */
    method HandleOtherLine(line: Line)
      requires !(line.Request? && line.methodName == "tools/call")
      modifies this
      ensures Ids(responses) == Ids(old(responses)) + AnswerTo(line)
      ensures !(line.Request? && Answered(line.methodName)) ==> responses == old(responses)
      ensures |old(responses)| <= |responses| && responses[..|old(responses)|] == old(responses)
      ensures line.Request? && line.methodName == "initialize" ==>
                LastResponse() == Response("2.0", line.id, InitializeResult(ProtocolVersion, ServerName, ServerVersion))
      ensures line.Request? && line.methodName == "tools/list" ==>
                LastResponse() == Response("2.0", line.id, ToolsList(Tools))
      ensures counters == old(counters) && logs == old(logs) && persisted == old(persisted)
      ensures nodeOnline == old(nodeOnline) && lastHeartbeat == old(lastHeartbeat)
      ensures currentMode == old(currentMode) && templates == old(templates) && tickerCount == old(tickerCount)
    {
      if line.Request? {
        if line.methodName == "initialize" {
          SendResponse(line.id, InitializeResult(ProtocolVersion, ServerName, ServerVersion));
        } else if line.methodName == "notifications/initialized" {
          // the handshake is confirmed; nothing is written
        } else if line.methodName == "tools/list" {
          SendResponse(line.id, ToolsList(Tools));
        }
      }
      if line.Request? && Answered(line.methodName) {
        assert responses == old(responses) + [LastResponse()];
        IdsConcat(old(responses), [LastResponse()]);
      }
    }

    /** The scan loop of main: lines are read until one is too long for the
        scanner; garbage is skipped, initialize and tools/list are answered,
        tools/call is handled, and notifications/initialized and unknown
        methods get no response. The responses carry, in order, the ids of
        exactly the answered lines that were read. Logs only grow, and a run
        without tools/call leaves the log, the counters and the snapshot as
        they were. `stampAt(i)` and `latencyAt(i)` are the clock reading and
        the inference latency while line `i` is handled. */
    method Serve(lines: seq<Line>, app: PromptC, optimize: OptimizeCall,
                 stampAt: nat -> string, latencyAt: nat -> int)
      modifies this
      ensures |responses| == |old(responses)| + |AnsweredIds(lines[..ScanEnd(lines)])|
      ensures Ids(responses) == Ids(old(responses)) + AnsweredIds(lines[..ScanEnd(lines)])
      ensures responses[..|old(responses)|] == old(responses)
      ensures |old(logs)| <= |logs| && logs[..|old(logs)|] == old(logs)
      ensures (forall i :: 0 <= i < |lines| ==> !(lines[i].Request? && lines[i].methodName == "tools/call")) ==>
                counters == old(counters) && logs == old(logs) && persisted == old(persisted)
      ensures nodeOnline == old(nodeOnline) && lastHeartbeat == old(lastHeartbeat)
      ensures currentMode == old(currentMode) && templates == old(templates) && tickerCount == old(tickerCount)
    {
      ghost var quiet := forall i :: 0 <= i < |lines| ==> !(lines[i].Request? && lines[i].methodName == "tools/call");
      ghost var r0, l0, c0, p0 := responses, logs, counters, persisted;
      var i := 0;
      while i < |lines| && !lines[i].TooLong?
        invariant 0 <= i <= ScanEnd(lines)
        invariant ServedSoFar(lines, i, quiet, r0, l0, c0, p0)
        invariant nodeOnline == old(nodeOnline) && lastHeartbeat == old(lastHeartbeat)
        invariant currentMode == old(currentMode) && templates == old(templates) && tickerCount == old(tickerCount)
      {
        ServeLine(lines, i, app, optimize, stampAt(i), latencyAt(i), quiet, r0, l0, c0, p0);
        i := i + 1;
      }
    }

    /** What the scan loop has done once it has read the first `i` lines,
        against the responses, log, counters and snapshot it started from. */
    ghost predicate ServedSoFar(lines: seq<Line>, i: nat, quiet: bool, r0: seq<Response>, l0: seq<string>,
                                c0: Counters, p0: Option<MetricsSnapshot>)
      reads this
      requires i <= |lines|
    {
      && Ids(responses) == Ids(r0) + AnsweredIds(lines[..i])
      && Extends(r0, responses)
      && Extends(l0, logs)
      && (quiet ==> counters == c0 && logs == l0 && persisted == p0)
    }

    /** One turn of the scan loop: line `i` is handled, and what the loop has
        done extends to it. */
    method ServeLine(lines: seq<Line>, i: nat, app: PromptC, optimize: OptimizeCall, stamp: string, latencyMs: int,
                     ghost quiet: bool, ghost r0: seq<Response>, ghost l0: seq<string>,
                     ghost c0: Counters, ghost p0: Option<MetricsSnapshot>)
      requires i < |lines|
      requires quiet ==> !(lines[i].Request? && lines[i].methodName == "tools/call")
      requires ServedSoFar(lines, i, quiet, r0, l0, c0, p0)
      modifies this
      ensures ServedSoFar(lines, i + 1, quiet, r0, l0, c0, p0)
      ensures nodeOnline == old(nodeOnline) && lastHeartbeat == old(lastHeartbeat)
      ensures currentMode == old(currentMode) && templates == old(templates) && tickerCount == old(tickerCount)
    {
      var line := lines[i];
      ghost var before, logged := responses, logs;
      HandleLine(line, app, optimize, stamp, latencyMs);
      ExtendsTrans(r0, before, responses);
      ExtendsTrans(l0, logged, logs);
      assert lines[..i + 1] == lines[..i] + [line];
      AnsweredIdsSnoc(lines[..i], line);
      AppendAssoc(Ids(r0), AnsweredIds(lines[..i]), AnswerTo(line));
    }

    /** The start-up of main before the scan loop: the mode is recorded,
        the metrics are loaded, the stored templates are decoded into the
        template map, the node address defaults, outside enterprise mode the
        node is marked offline, the persistence ticker starts from the loaded
        inference count, the SDK is built and the boot is audited.
        Returns the SDK and the node address. In enterprise mode the
        heartbeat then runs as HeartbeatStep calls. */
    method Start(mode: string, envRemoteIP: string, storedMetrics: StoredMetrics,
                 storedTemplates: Option<map<string, Template>>, now: int, stamp: string,
                 mask: Masker, geminiKey: string, clientError: Option<string>, listing: ModelListing)
      returns (app: PromptC, remoteIP: string)
      modifies this
      ensures currentMode == mode
      ensures counters == Restored(old(counters), storedMetrics)
      ensures templates == if storedTemplates.Some? then old(templates) + storedTemplates.value else old(templates)
      ensures remoteIP == if envRemoteIP == "" then DefaultRemoteIP else envRemoteIP
      ensures mode != "enterprise" ==> !nodeOnline && lastHeartbeat == now
      ensures mode == "enterprise" ==> nodeOnline == old(nodeOnline) && lastHeartbeat == old(lastHeartbeat)
      ensures app.mask == mask
      ensures remoteIP != "" && |app.optimizers| > 0 && app.optimizers[0] == Ollama(NewOllamaProvider(remoteIP))
      ensures forall i :: 0 <= i < |app.optimizers| && app.optimizers[i].Ollama? ==> i == 0
      ensures var geminiUp := geminiKey != "" && clientError.None? && listing.failure.None?
                              && Candidates(listing.models) != {};
              var ranked := FirstRanked(Candidates(listing.models), 0);
              && |app.optimizers| == 1 + (if geminiUp then 1 else 0)
              && (geminiUp ==>
                    && app.optimizers[1].Gemini?
                    && (ranked.Some? ==> app.optimizers[1].gemini.activeModel == ranked.value))
      ensures forall i :: 0 <= i < |app.optimizers| && app.optimizers[i].Gemini? ==>
                i == 1 && fresh(app.optimizers[i].gemini)
                && app.optimizers[i].gemini.activeModel in Candidates(listing.models)
      ensures logs == old(logs) + [AuditLine(stamp, BootEvent(mode))]
      ensures tickerCount == counters.inferenceCount
      ensures responses == old(responses) && persisted == old(persisted)
    {
      remoteIP := Configure(mode, envRemoteIP, storedMetrics, storedTemplates, now);
      app := NewSDK(mask, geminiKey, remoteIP, clientError, listing);
      AuditLog(stamp, BootEvent(mode));
    }

    /** The part of Start before the SDK is built: everything but the SDK
        and the boot line. */
    method Configure(mode: string, envRemoteIP: string, storedMetrics: StoredMetrics,
                     storedTemplates: Option<map<string, Template>>, now: int)
      returns (remoteIP: string)
      modifies this
      ensures currentMode == mode
      ensures counters == Restored(old(counters), storedMetrics)
      ensures templates == if storedTemplates.Some? then old(templates) + storedTemplates.value else old(templates)
      ensures remoteIP == if envRemoteIP == "" then DefaultRemoteIP else envRemoteIP
      ensures mode != "enterprise" ==> !nodeOnline && lastHeartbeat == now
      ensures mode == "enterprise" ==> nodeOnline == old(nodeOnline) && lastHeartbeat == old(lastHeartbeat)
      ensures tickerCount == counters.inferenceCount
      ensures logs == old(logs) && responses == old(responses) && persisted == old(persisted)
    {
      currentMode := mode;
      LoadMetrics(storedMetrics);
      if storedTemplates.Some? {
        templates := templates + storedTemplates.value;
      }
      remoteIP := envRemoteIP;
      if remoteIP == "" {
        remoteIP := DefaultRemoteIP;
      }
      if mode != "enterprise" {
        nodeOnline := false;
        lastHeartbeat := now;
      }
      tickerCount := counters.inferenceCount;
    }
  }

  // ---------------------------------------------------------------------------
  // Properties
  // ---------------------------------------------------------------------------

  /** The state after a run of heartbeat probes from `online`. */
  function AfterProbes(online: bool, probes: seq<bool>): bool
  {
    if |probes| == 0 then online else probes[|probes| - 1]
  }

  /** The events a run of heartbeat probes emits, in order. */
  function ProbeEvents(online: bool, probes: seq<bool>, remoteIP: string): seq<AuditEvent>
  {
    if |probes| == 0 then []
    else
      var init := probes[..|probes| - 1];
      ProbeEvents(online, init, remoteIP) + HeartbeatEvents(AfterProbes(online, init), probes[|probes| - 1], remoteIP)
  }

  /** The number of state changes along a run of probes. */
  function Transitions(online: bool, probes: seq<bool>): nat
  {
    if |probes| == 0 then 0
    else
      var init := probes[..|probes| - 1];
      Transitions(online, init) + (if AfterProbes(online, init) != probes[|probes| - 1] then 1 else 0)
  }

  /** A run of probes emits one event per change of state and no more: a
      node that keeps answering (or keeps failing) is announced once. */
  lemma {:induction false} ProbeEventsCountTransitions(online: bool, probes: seq<bool>, remoteIP: string)
    ensures |ProbeEvents(online, probes, remoteIP)| == Transitions(online, probes)
    ensures (forall i :: 0 <= i < |probes| ==> probes[i] == online) ==> ProbeEvents(online, probes, remoteIP) == []
  {
    if |probes| > 0 {
      var init := probes[..|probes| - 1];
      ProbeEventsCountTransitions(online, init, remoteIP);
      if forall i :: 0 <= i < |probes| ==> probes[i] == online {
        assert forall i :: 0 <= i < |init| ==> init[i] == probes[i];
        if |init| > 0 {
          assert AfterProbes(online, init) == probes[|probes| - 2];
        }
      }
    }
  }

  /** From the initial offline state, repeated good probes announce the node
      exactly once. */
  lemma {:induction false} FirstGoodProbeAnnounces(n: nat, remoteIP: string)
    requires n > 0
    ensures ProbeEvents(false, seq(n, _ => true), remoteIP) == [NodeOnlineEvent(remoteIP)]
  {
    var probes := seq(n, _ => true);
    if n == 1 {
      assert probes[..0] == [];
    } else {
      assert probes[..n - 1] == seq(n - 1, _ => true);
      FirstGoodProbeAnnounces(n - 1, remoteIP);
      assert AfterProbes(false, probes[..n - 1]) == true;
    }
  }
}

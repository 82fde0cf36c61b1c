# promptc, modelled in Dafny

promptc is a prompt compiler and an MCP ("Model Context Protocol") agent,
written in Go. Its parts:

- A local **compiler engine** (`pkg/engine`). It masks personal data, resolves
  the `{{role}}`, `{{context}}` and `{{variable}}` placeholders of a task, and
  assembles the Markdown blocks ROLE, CONTEXT, TASK and CONSTRAINTS.
- A weighted **analyzer** in the same package. It scores a prompt from 0 to
  100 and calls it reliable from 75 up.
- An **SDK** (`pkg/sdk`). It sends a prompt that is not reliable to an
  ordered chain of optimizers: first the local Ollama node, then Gemini. The
  first success wins. It falls back to the local compilation when the chain
  is empty or every optimizer fails.
- The **Gemini provider's model discovery** (`pkg/provider/gemini.go`): it
  filters the models, then ranks them.
- Two older pipelines: the validating compiler of `internal/core` and the
  anti-hallucination heuristics of `internal/analyzer`. Beside them sit the
  size validator of `pkg/security` and the string helpers of the YAML
  auto-fixer in `internal/llm`.
- The **agent** of `cmd/promptc/main.go`. It keeps inference metrics and
  persists them, tracks the Ollama node with a heartbeat, and writes
  column-aligned audit lines. It also hot-reloads templates, and serves the
  two MCP tools `get_template` and `optimize_prompt` over JSON-RPC 2.0 on
  standard input and output.

Modules:

- Pure code is functions and lemmas.
- Code that changes state step by step is methods with loops and invariants,
  each proved against a specification function:
  - `Engine.Compile` and `Engine.Analyze`
  - `Sdk.CompileAndOptimize`
  - `Providers.GeminiProvider.DiscoverBestModel`
  - `CoreCompiler.Render`, `Analyzer.Analyze`, the `Llm` formatters
- The agent's global `metrics` and `hub` records are one class,
  `Agent.Agent`. Each handler is a method on it that states the whole new
  state.

Go's `len` on a string counts UTF-8 bytes; it is `GoStrings.ByteLen`.
`fmt`'s `%-Ns` pads by characters; it is `GoStrings.PadRight`.

Things the model takes as parameters:

- The regular-expression masker is a function parameter `mask`; the test
  vectors use the identity.
- The order in which a Go `range` visits a map is a parameter `order`: any
  enumeration of the keys, produced by `Agent.EnumerateKeys`.
- An optimizer call is an oracle `optimize(optimizer, prompt, issues)`.
- Clock readings, probe results, latencies and decoded request bodies are
  parameters.

## Model

| member | source | states |
|---|---|---|
| Engine.Blocks | pkg/engine/compiler.go:45-66 | ROLE is present iff the masked role is non-empty, and CONTEXT iff the masked context is non-empty. TASK, holding the resolved task, always comes next. CONSTRAINTS is last iff there are constraints. The block count follows. |
| Engine.MaskVariables | pkg/engine/compiler.go:27-29 | The loop over the keys leaves every value replaced by its masked form and the key set unchanged. |
| Engine.ReplaceVariables | pkg/engine/compiler.go:39-43 | The loop replaces each `{{k}}` by the value of `k`, in the order the keys are visited. |
| Engine.BuildConstraintsBlock | pkg/engine/compiler.go:55-66 | The builder loop yields the header, then `- ` plus the masked constraint per line, with no newline after the last line. |
| Engine.Compile | pkg/engine/compiler.go:21-69 | The result is the blocks joined by a blank line. There is no error result, because none is ever returned. |
| Engine.CompiledStartsWithRole | pkg/engine/compiler.go:46-68 | The output starts with `### ROLE\n` iff the masked role is non-empty. |
| Engine.CompiledEnding | pkg/engine/compiler.go:53-68 | The output ends with the CONSTRAINTS block when there are constraints, and with the TASK block otherwise. |
| Engine.PlaceholdersSurviveWhenEmpty | pkg/engine/compiler.go:31-38 | `{{role}}` is replaced only when the masked role is non-empty, and `{{context}}` only when the masked context is non-empty. Otherwise the placeholder stays. |
| Engine.CompiledThreeBlocks | pkg/engine/compiler.go:45-68 | With a role, a context, no constraints and no variables, the output is exactly the three blocks, with both placeholders resolved. |
| Engine.CompileBaseVector | pkg/engine/compiler_test.go:19-25 | The first test prompt compiles to exactly the expected text. |
| Engine.Analyze | pkg/engine/compiler.go:71-112 | The step-by-step score and issues equal the specified analysis. The score is a multiple of 20 from 0 to 100. Reliable iff the score is at least 75. Reliable implies a trimmed task of at least 50 bytes. |
| Engine.AnalysisIsTable | pkg/engine/compiler.go:76-105 | The score equals the weighted check table's score, and no other masker changes it. The issues are at most one SECURITY warning, present iff the masker detects something, followed by the failed-check issues of the table. |
| Engine.PointsIsTableScore | pkg/engine/compiler.go:82-105 | The check-by-check points and issues agree with the table: weights 20/20/40/20, with one issue per failed check, in check order. |
| Engine.PointsRange | pkg/engine/compiler.go:83-108 | The score is at most 100 and a multiple of 20. Reaching 75 needs the task check. |
| Engine.ScoreRange | pkg/engine/compiler.go:82-105 | Over any list of checks, the score is a multiple of 20 and at most the total weight. |
| Engine.TotalWeightAll | pkg/engine/compiler.go:82-105 | The four weights sum to 100. |
| Engine.ReliableNeedsTask | pkg/engine/compiler.go:94-108 | Reliable iff the task check passes together with at least two of the other three checks. |
| Engine.IssuesPerFailedCheck | pkg/engine/compiler.go:82-105 | Each check yields its points or exactly one issue. The score is 0 iff no check passed. |
| Engine.AnalyzeIndustrialVector | pkg/engine/compiler_test.go:74-86 | The complete test prompt scores 100 and is reliable. |
| Engine.AnalyzeWeakVector | pkg/engine/compiler_test.go:65-71 | The weak test prompt scores 0, is not reliable, and gets all four failed-check issues, in order. |
| Sdk.NewSDK | pkg/sdk/sdk.go:20-43 | There is one optimizer per configured layer. Ollama is the first optimizer iff an address is given, and it is never anywhere else. Gemini is the last optimizer iff a key is given and its construction succeeds. It is fresh, and its active model is the highest-ranked candidate. Empty arguments give no optimizers, and there is never an error. |
| Sdk.FirstSuccess | pkg/sdk/sdk.go:67-74 | The index found is the first optimizer from `i` on whose call succeeds. None iff every call from `i` on fails. |
| Sdk.CompileAndOptimize | pkg/sdk/sdk.go:46-79 | A reliable prompt, or an empty chain, gives the local compilation with no call. Otherwise optimizers are called in order, each once, with the original prompt and the analysis issues. The calls stop after the first success, whose text is returned verbatim; if all fail, the result is the local compilation. No path errors. |
| Sdk.BypassVector | pkg/sdk/sdk_test.go:28-50 | An SDK built by NewSDK without a key or an address returns the local compilation from CompileAndOptimize, whatever the Gemini client and the optimizers would do. That compilation begins with `### ROLE\nArquitecto Cloud`. |
| Providers.NewOllamaProvider | pkg/provider/ollama.go:23-31 | The endpoint is `http://` + ip + `:11434/api/generate`, so it is 26 characters longer than the address. The model is llama3. |
| Providers.Candidates | pkg/provider/gemini.go:50-63 | A name is available iff some listed model has that name (without `models/`), supports generateContent, and has no `-exp` in its name. |
| Providers.FirstRanked | pkg/provider/gemini.go:67-73 | The first ranking entry that is available. None iff no ranking entry is available. |
| Providers.SupportsGenerate | pkg/provider/gemini.go:53-59 | The loop with its early break finds generateContent iff it is among the methods. |
| Providers.GeminiProvider.constructor | pkg/provider/gemini.go:25 | A provider starts with no active model. |
| Providers.GeminiProvider.Name | pkg/provider/gemini.go:84-89 | The name starts with "Google Gemini". It is exactly that iff no model is active. With an active model, it is `Google Gemini (` + model + `)`, and the model reads back from between the parentheses. |
| Providers.GeminiProvider.DiscoverBestModel | pkg/provider/gemini.go:34-82 | An iterator error is returned at once. Otherwise the highest-ranked available model is chosen, else some available model, else an error with the model left unset. |
| Providers.NewGeminiProvider | pkg/provider/gemini.go:19-32 | A client error is wrapped; a discovery error is passed on. On success, the provider is fresh and its model is one of the candidates. When a ranked candidate exists, the model is the highest-ranked one. |
| Providers.RankingOrder | pkg/provider/gemini.go:67-73 | Flash beats pro and pro beats 1.0, whatever else is available. |
| Providers.ExperimentalExcluded | pkg/provider/gemini.go:61-63 | A model whose name contains `-exp` is never a candidate. |
| Providers.PrefixStripped | pkg/provider/gemini.go:50-63 | `models/gemini-1.5-pro` is available under its short name. |
| CoreCompiler.Analyze | internal/core/compiler.go:41-52 | A context warning appears iff the context is empty, and a constraints warning iff there are fewer than 2 constraints. When both appear, they are in that order. |
| CoreCompiler.Render | internal/core/compiler.go:54-61 | The loop's output is role, task, `Contexto:` and `Restricciones:`, followed by one `- c\n` per constraint. |
| CoreCompiler.Compile | internal/core/compiler.go:17-39 | An empty role gives ErrMissingRole before the task is checked. Otherwise a task under 10 bytes gives ErrTooVague. Success comes exactly otherwise, with score 100 − 20·(number of warnings). |
| CoreCompiler.CompiledScore | internal/core/compiler.go:27-28 | A success scores 60, 80 or 100: 100 iff there are no warnings. |
| CoreCompiler.ConstraintLinesConcat | internal/core/compiler.go:56-59 | The constraint lines of a concatenation are the lines of each part, in order. |
| CoreCompiler.ConstraintLinesCount | internal/core/compiler.go:57-59 | Constraints without line breaks give exactly one line each, and a trailing newline. |
| CoreCompiler.RenderedStartsWithRoleAndTask | internal/core/compiler.go:60 | The render starts with role, blank line, task, blank line, then `Contexto: ` and the context. |
| CoreCompiler.CompileSuccessVector | internal/core/compiler_test.go:9-24 | The test prompt compiles, scoring 60 (so at least 50). |
| Analyzer.AnyNegative | internal/analyzer/analyzer.go:21-27 | True iff some constraint, lower-cased, contains "no", "evita" or "sin". |
| Analyzer.ClarityFrom | internal/analyzer/analyzer.go:46-51 | The search with early return succeeds iff some remaining verb, lower-cased, occurs in the lower-cased task. |
| Analyzer.DetectSpanishClarity | internal/analyzer/analyzer.go:43-52 | True iff some strong verb, lower-cased, occurs in the lower-cased task. |
| Analyzer.Analyze | internal/analyzer/analyzer.go:10-41 | The step-by-step score and issues equal the deductions. Each issue is present iff its deduction applies. |
| Analyzer.IssuesDistinct | internal/analyzer/analyzer.go:17-37 | The three issue texts differ. |
| Analyzer.ScoreValues | internal/analyzer/analyzer.go:11-40 | The score is one of 100, 85, 80, 70, 65, 55, 50, 35. |
| Analyzer.IssuesCount | internal/analyzer/analyzer.go:14-39 | There is one issue per deduction, and no issues iff the score is 100. |
| Analyzer.ScoreDeterminesIssues | internal/analyzer/analyzer.go:11-40 | Equal scores mean equal deductions and equal issues. |
| Analyzer.NoConstraintsLose30 | internal/analyzer/analyzer.go:21-32 | Without constraints, the 30 points are always lost. |
| Analyzer.StrongVerbsLower | internal/analyzer/analyzer.go:45-47 | Lower-casing each verb of the list gives, position by position, analiza, genera, escribe, valida, calcula, resume and traduce. |
| Analyzer.AnalizaIsClear | internal/analyzer/analyzer.go:43-52 | A task that begins with "Analiza" is clear. |
| Analyzer.LeadingNoIsNegative | internal/analyzer/analyzer.go:22-26 | A constraint that starts with "no" in any case is negative. |
| Security.NewResourceValidator | pkg/security/validator.go:9-19 | The default limit is 100·1024 = 102400 bytes. |
| Security.Validate | pkg/security/validator.go:21-28 | There is an error iff the byte length exceeds the limit. The error carries both numbers. |
| Security.ErrorWrapsSentinel | pkg/security/validator.go:24-25 | The message starts with ErrPromptTooLarge's text. |
| Security.ErrorReportsSize | pkg/security/validator.go:24-25 | The size printed in the message reads back as the measured size. |
| Security.DefaultLimitBoundary | pkg/security/validator.go:23 | Content is accepted iff it has at most 102400 bytes, the boundary included. |
| Security.ShortPromptValidates | pkg/security/validator_test.go:11-16 | A short prompt validates. |
| Llm.FormatIssues | internal/llm/gemini.go:44-47 | The builder loop yields `- [Type]: Message\n` per issue, in order. |
| Llm.IssueLinesConcat | internal/llm/gemini.go:45-47 | The formatting distributes over concatenation. |
| Llm.IssueLinesCount | internal/llm/gemini.go:45-47 | Issues without line breaks give exactly one line each. |
| Llm.FormatConstraintsList | internal/llm/gemini.go:92-101 | No constraints give `  []`. Otherwise the output is one `  - "c"\n` per constraint, in order. |
| Llm.QuotedLinesCount | internal/llm/gemini.go:97-99 | A non-empty list ends with a newline and has one line per constraint without line breaks. |
| Llm.CleanFence | internal/llm/gemini.go:81-83 | The text splits into two leading pieces, the result and a trailing piece. The first piece is `` ```yaml\n `` exactly when the text starts with it, and empty otherwise. The second is `` ```\n `` exactly when what follows the first begins with it. The trailing piece is `` \n``` `` exactly when the rest ends with it. So each fence that is present is trimmed once, and only then. |
| Llm.CleanFenceUnfenced | internal/llm/gemini.go:81-83 | Text without any of the fences comes back unchanged. |
| Llm.CleanFenceWrapped | internal/llm/gemini.go:81-83 | A body wrapped in a yaml fence is recovered exactly. |
| Llm.AutoFix | internal/llm/gemini.go:16-89 | The key is checked first, then the client, then the request and the first text part, which is returned fence-cleaned. |
| Llm.AutoFixNeedsKey | internal/llm/gemini.go:17-20 | Without a key, the result is that error, whatever the client and the model would do. |
| Llm.AutoFixUsesResponse | internal/llm/gemini.go:70-88 | With a key and a client, the result depends only on what the model answers for this prompt. |
| Metrics.TemplateCallRecorded | cmd/promptc/main.go:248-252 | The named count goes up by one, with an absent name counting as 0. Every other count is unchanged. |
| Metrics.RecordedCounts | cmd/promptc/main.go:231-243 | The count goes up by one, and exactly one of success and failure goes up, so success + failure − count is kept. Latency and tokens are added. The Gemini count goes up iff Gemini served the call. Template counts are unchanged. |
| Metrics.SavesEveryTenth | cmd/promptc/main.go:231-246 | Counting from a multiple of ten, a save is due after the tenth inference and not before. |
| Metrics.SaveLoadRoundTrip | cmd/promptc/main.go:164-214 | Loading a saved snapshot restores every counter and every template count. |
| Metrics.LoadKeepsWhatIsMissing | cmd/promptc/main.go:164-186 | A missing or undecodable file changes nothing. A snapshot without template counts keeps the ones in memory. |
| Audit.AuditLineStart | cmd/promptc/main.go:80-91 | The line starts with the padded head. The resource column follows iff there is a resource; otherwise ` result=` follows at once. |
| Audit.AuditLineEnd | cmd/promptc/main.go:89-95 | The line ends with ` \| detail` when there is a detail. Otherwise it ends with the latency when the latency is positive, and with the result when it is not. |
| Audit.AuditColumns | cmd/promptc/main.go:80-85 | Type, action and actor start 3, 14 and 39 characters after the clock reading, and the head is 55 characters longer than the reading. |
| Audit.AddLogShiftsResult | cmd/promptc/main.go:113-118 | An addLog line is the auditLog line of the same internal event, with one extra space before ` result=`. |
| Protocol.AnsweredIds | cmd/promptc/main.go:775-828 | There are at most as many responses as lines. |
| Protocol.ScanEnd | cmd/promptc/main.go:772-775 | The scan reads exactly the lines before the first line too long for the scanner, or all lines if none is. |
| Protocol.TooLongEndsScan | cmd/promptc/main.go:772-775 | After a line too long for the scanner, nothing is read or answered: the answered ids are those of the lines before it. |
| Protocol.AnswerTo | cmd/promptc/main.go:781-827 | A line is answered at most once. |
| Protocol.SilentLinesAnswerNothing | cmd/promptc/main.go:775-828 | Garbage, `notifications/initialized` and unknown methods produce no response. |
| Protocol.HandshakeVector | cmd/promptc/main.go:775-828 | initialize, the notification, a garbage line and tools/list answer the first and last ids, in order. |
| Agent.HeartbeatEvents | cmd/promptc/main.go:333-363 | One probe emits an event iff the state changes: NODE_ONLINE when the node comes up, NODE_OFFLINE when it goes down. |
| Agent.TaskOf | cmd/promptc/main.go:654-662 | A known template_name replaces the task with the template's content. An empty or unknown name keeps the given task. |
| Agent.EstimatedTokens | cmd/promptc/main.go:695 | The token estimate is the byte length divided by 4, rounded down. |
| Agent.EnumerateKeys | pkg/engine/compiler.go:40-42 | A map range visits every key exactly once, in an order left open. |
| Agent.ProbeEventsCountTransitions | cmd/promptc/main.go:327-367 | A run of probes emits exactly one event per change of state. Identical probes emit nothing. |
| Agent.FirstGoodProbeAnnounces | cmd/promptc/main.go:327-367 | The node starts offline: that is the zero value of `metrics` at cmd/promptc/main.go:160-162. From there, repeated good probes of the heartbeat loop announce the node exactly once. |
| Agent.ToolReply | cmd/promptc/main.go:581-716 | The response text is fixed by the request and the templates exactly when optimize_prompt's pipeline does not run. |
| Agent.ToolCallAccounting | cmd/promptc/main.go:600-715 | A tools/call records one inference iff the pipeline runs, and then always as a success; failures never change. The Gemini count goes up iff the pipeline runs with the node offline. At most one template call is counted: the template get_template returns, or the known template_name of a pipeline run. The call is audited by two events when the pipeline runs and by one otherwise. |
| Agent.Agent.constructor | cmd/promptc/main.go:146-162 | Offline, no counts, no logs, no templates. |
| Agent.Agent.AuditLog | cmd/promptc/main.go:78-111 | Appends exactly the event's line to the logs. Nothing else changes. |
| Agent.Agent.AddLog | cmd/promptc/main.go:113-126 | Appends exactly the internal line to the logs. Nothing else changes. |
| Agent.Agent.SendResponse | cmd/promptc/main.go:128-132 | Writes one JSON-RPC 2.0 response with the given id. Nothing else changes. |
| Agent.Agent.SaveMetrics | cmd/promptc/main.go:188-214 | The persisted snapshot is that of the counters, with a copy of the template counts. |
| Agent.Agent.LoadMetrics | cmd/promptc/main.go:164-186 | The counters become the restored counters. Nothing else changes. |
| Agent.Agent.RecordInference | cmd/promptc/main.go:231-246 | The counters are recorded, and a snapshot is saved iff the new count is a multiple of 10. |
| Agent.Agent.RecordTemplateCall | cmd/promptc/main.go:248-252 | Only the named template count changes, by one. |
| Agent.Agent.PersistenceTick | cmd/promptc/main.go:216-229 | A save happens iff the count moved since the last tick. |
| Agent.Agent.HeartbeatStep | cmd/promptc/main.go:331-363 | The state becomes the probe result. The heartbeat time is updated only on success. Exactly the transition's events are logged. |
| Agent.Agent.HotReload | cmd/promptc/main.go:555-569 | A decoded body replaces the templates wholesale and logs one HOT_RELOAD line that counts them. An undecodable body changes nothing. |
| Agent.Agent.GetTemplate | cmd/promptc/main.go:611-636 | One response with the request id. A known name returns its content and counts one call. An unknown name or bad arguments return the error text and leave the counters unchanged. |
| Agent.Agent.ResolveTask | cmd/promptc/main.go:654-662 | The task is resolved. A known template counts one call. |
| Agent.Agent.RunPipeline | cmd/promptc/main.go:665-708 | PIPELINE_START is logged with the expected node. The reply is the SDK's result for some key order. One success is recorded with the reply's token estimate. |
| Agent.Agent.OptimizePrompt | cmd/promptc/main.go:638-708 | Bad arguments give the error text with nothing recorded. Otherwise the task is resolved, the pipeline runs, and exactly one response is written. |
| Agent.Agent.HandleToolCall | cmd/promptc/main.go:581-716 | Every path appends exactly one `2.0` text response with the request's id, and keeps the earlier responses. Its text is ToolReply's when that is fixed (parse error, template or its error, bad arguments, unknown tool). When the pipeline runs, it is the SDK's routed text. The log grows by exactly ToolCallEvents. The counters become ToolCallCounters. A snapshot is saved iff the pipeline's inference is due. The node state, mode, templates and ticker are unchanged. |
| Agent.Agent.DispatchTool | cmd/promptc/main.go:602-715 | Once the params decode, TOOL_INVOKED is logged, then the named tool runs or an unknown tool gets the error text. The response, log, counters and snapshot are as in HandleToolCall. |
| Agent.Agent.HandleLine | cmd/promptc/main.go:776-827 | An answered method adds exactly one response with its id, and anything else adds none. initialize and tools/list return the server's constants. A tools/call has HandleToolCall's full effect: one `2.0` text response with its id, and the same log, counters and snapshot. Any other line changes only the responses. |
| Agent.Agent.HandleOtherLine | cmd/promptc/main.go:781-824 | initialize and tools/list are answered with the server's constants. Garbage, the notification and unknown methods get nothing. Only the responses change. |
| Agent.Agent.Serve | cmd/promptc/main.go:772-828 | Only the lines before the first one too long for the 1 MiB scanner are read. The response ids are, in order, exactly the ids of the answered lines among them. The earlier responses and log lines are kept. Without any tools/call, the log, the counters and the snapshot are unchanged. The node state, mode, templates and ticker are always unchanged. |
| Agent.Agent.Start | cmd/promptc/main.go:718-771 | Records the mode, loads the metrics, and merges the stored templates. Defaults the node address and marks the node offline outside enterprise mode. Starts the persistence ticker from the loaded inference count. Builds the SDK and logs the boot. The SDK is the one NewSDK builds from the key and that address: Ollama first and only there, then Gemini iff the key, the client and the listing succeed. Gemini, if present, is fresh and runs the highest-ranked candidate. |
| Agent.Agent.Configure | cmd/promptc/main.go:718-749 | Everything Start does before the SDK is built, without touching the log, the responses or the snapshot. |

## Left out

- Network and SDK internals:
  - The bodies of the Ollama, OpenRouter and Gemini `Optimize` calls and of the AutoFix request are left out; they are HTTP/SDK calls. They appear only as oracle results.
  - The genai client and its API key are left out. They come in only as the client's error and the model listing.
- The regular-expression masker of `pkg/security/masker.go` is left out because it depends on Go's `regexp`. It is an uninterpreted parameter.
- Concurrency is left out: goroutines, mutexes, atomics, the tickers, sleeps and signal handling. Each loop body is one sequential method: `HeartbeatStep`, `PersistenceTick`, `HandleLine`.
- Agent.Agent.RecordInference: the save that Go starts asynchronously is modelled as done at once.
- I/O and encoding are left out:
  - JSON encoding and decoding: a request line is a `Line` datatype, and a decoded body is an `Option`.
  - The stderr copy of every log line, the websocket broadcast, the JSON audit file, and the temporary file plus rename behind `metrics.json`. The model keeps only the last saved snapshot; write failures are not modelled.
  - The dashboard HTML and its HTTP server, and the `/api/config` GET.
  - `SavedAt`: the save time of a snapshot.
- Agent.Agent.Start: stored templates are merged into an empty or existing map. This is what `json.Unmarshal` does into a map; its other decoding rules are not modelled.
- The derived dashboard figures of `metricsSnapshotAPI` are left out. They are floating point and runtime statistics.
- Audit lines take one clock reading, `stamp`, per line. Go reads the clock twice, once for the JSON copy, which is not modelled.
- Go's `int64` counters are unbounded integers: overflow is not modelled.
- Agent.Agent.HandleToolCall: the error branch after `CompileAndOptimize` (cmd/promptc/main.go:697-703) is not modelled, because `Sdk.CompileAndOptimize` has no error outcome on any path.
- Agent.Agent.Serve: the counters, log and snapshot after a whole run are not folded over the lines. Each line's effect on them is stated by `Agent.Agent.HandleLine`. Serve itself states the response ids, that the log only grows, and that a run without tools/call leaves all three unchanged. An optimize_prompt reply is fixed only up to the key order of variable substitution, so a fold over the run would have to carry that choice for each line.
- Engine.Compile: the write-back of the masked values into the caller's `Variables` map is not modelled. The masked map is returned by `Engine.MaskVariables` and used locally.
- Map iteration order is not fixed:
  - the key order of variable substitution is any enumeration of the keys;
  - the Gemini fallback pick (`Providers.GeminiProvider.DiscoverBestModel`) is any available model.
- The CLI (`cmd/promptc` apart from `main.go`, `internal/cli`), the configuration and the YAML parsers are not part of this model.

## Notes on the tests

Some test files expect behaviour the code does not have. The model follows the code:

- `pkg/engine/compiler_test.go:39` expects a `### VARIABLES` block, which `Compile` never emits.
- `pkg/engine/compiler_test.go:65-71` expects a score of at least 20 for the weak prompt. The code scores it 0 (`Engine.AnalyzeWeakVector`).
- `pkg/security/validator_test.go:20` uses `MaxPromptLength`, a name the package does not define.
- `pkg/sdk/sdk_test.go:37-38` says the prompt is reliable. With the engine's checks it scores 20, so it is not. The local compilation comes back only because no optimizer is configured (`Sdk.BypassVector`).

The `addLog` format puts ` result=` one column to the right of where `auditLog` puts it (`Audit.AddLogShiftsResult`).

/** The JSON-RPC messages the stdio server of cmd/promptc/main.go reads and
    writes, after decoding and before encoding: JSON itself is not modelled.
    A request id is kept as its raw JSON text (empty when absent). */
module Protocol {
  import opened Wrappers

  /** Template (cmd/promptc/main.go:61-64). */
  datatype Template = Template(description: string, content: string)

  /** The arguments of optimize_prompt, once decoded. */
  datatype OptimizeArgs = OptimizeArgs(
    role: string,
    context: string,
    task: string,
    templateName: string,
    constraints: seq<string>,
    variables: map<string, string>)

  /** The params of a tools/call request: either they do not decode (with the
      decoder's error text), or they name a tool. The raw arguments are kept
      as what they decode to for each tool: `templateArgs` is the
      template_name get_template would read, `optimizeArgs` the arguments
      optimize_prompt would read, None when decoding into that tool's
      argument struct fails. */
  datatype CallParams =
    | Unparsable(error: string)
    | ToolCall(name: string, templateArgs: Option<string>, optimizeArgs: Option<OptimizeArgs>)

  /** One line of standard input: not a JSON-RPC message, a request, or a
      line the scanner cannot hold. The scanner's buffer is capped at 1 MiB
      (main.go:773), so a line of 1048576 bytes or more before its newline
      makes Scan return false and ends the loop. */
  datatype Line = Garbage | Request(id: string, methodName: string, params: CallParams) | TooLong

  /** How many lines the scan loop reads: those before the first line that
      is too long, or all of them. */
  function ScanEnd(lines: seq<Line>): (n: nat)
    ensures n <= |lines|
    ensures forall i :: 0 <= i < n ==> !lines[i].TooLong?
    ensures n < |lines| ==> lines[n].TooLong?
  {
    if |lines| == 0 || lines[0].TooLong? then 0
    else
      var n := 1 + ScanEnd(lines[1..]);
      assert forall i :: 1 <= i < n ==> lines[i] == lines[1..][i - 1];
      n
  }

  /** A tool as tools/list describes it. */
  datatype ToolSpec = ToolSpec(name: string, description: string, required: seq<string>)

  /** The result member of a response. */
  datatype Reply =
    | InitializeResult(protocolVersion: string, serverName: string, serverVersion: string)
    | ToolsList(tools: seq<ToolSpec>)
    | TextContent(text: string)

  /** JSONRPCResponse. */
  datatype Response = Response(jsonrpc: string, id: string, result: Reply)

  const ProtocolVersion: string := "2024-11-05"
  const ServerName: string := "PROMPTC"
  const ServerVersion: string := "0.3.1"

  const InvalidArguments: string := "Error: argumentos inválidos"
  const TemplateNotFound: string := "Error: template no encontrado"
  const UnknownTool: string := "Error: herramienta no registrada"
  const ParseErrorPrefix: string := "Error parseando tool call: "

  /** The two tools, in the order tools/list gives them. */
  const Tools: seq<ToolSpec> := [
    ToolSpec("get_template", "Obtiene una plantilla industrial por nombre desde el almacén local.",
             ["template_name"]),
    ToolSpec("optimize_prompt", "Compila y optimiza un prompt. Acepta template_name.",
             ["role", "context", "task"])
  ]

  /** The methods the server answers; every other method, and
      notifications/initialized, gets no response. */
  predicate Answered(name: string)
  {
    name == "initialize" || name == "tools/list" || name == "tools/call"
  }

  /** The id a line is answered with, if it is answered. */
  function AnswerTo(line: Line): (ids: seq<string>)
    ensures |ids| <= 1
  {
    if line.Request? && Answered(line.methodName) then [line.id] else []
  }

  /** The ids of the responses a sequence of lines calls for, in order. */
  function AnsweredIds(lines: seq<Line>): (ids: seq<string>)
    ensures |ids| <= |lines|
  {
    if |lines| == 0 then []
    else AnsweredIds(lines[..|lines| - 1]) + AnswerTo(lines[|lines| - 1])
  }

  /** One more line answers its id when it is an answered request. */
  lemma AnsweredIdsSnoc(lines: seq<Line>, line: Line)
    ensures AnsweredIds(lines + [line]) == AnsweredIds(lines) + AnswerTo(line)
  {
    assert (lines + [line])[..|lines|] == lines;
  }

  /** `b` starts with `a`. */
  predicate Extends<T(==)>(a: seq<T>, b: seq<T>)
  {
    |a| <= |b| && b[..|a|] == a
  }

  /** Starting with a prefix of a prefix. */
  lemma ExtendsTrans<T>(a: seq<T>, b: seq<T>, c: seq<T>)
    requires Extends(a, b) && Extends(b, c)
    ensures Extends(a, c)
  {
    assert c[..|a|] == c[..|b|][..|a|];
  }

  /** Concatenation regrouped. */
  lemma AppendAssoc<T>(a: seq<T>, b: seq<T>, c: seq<T>)
    ensures (a + b) + c == a + (b + c)
  {
  }

  /** The ids of a list of responses. */
  function Ids(rs: seq<Response>): (ids: seq<string>)
    ensures |ids| == |rs| && forall i :: 0 <= i < |rs| ==> ids[i] == rs[i].id
  {
    if |rs| == 0 then [] else Ids(rs[..|rs| - 1]) + [rs[|rs| - 1].id]
  }

  /** Ids of a concatenation. */
  lemma IdsConcat(a: seq<Response>, b: seq<Response>)
    ensures Ids(a + b) == Ids(a) + Ids(b)
  {
    assert forall i :: 0 <= i < |a + b| ==> Ids(a + b)[i] == (Ids(a) + Ids(b))[i];
  }

  /** Only answered methods produce responses: garbage, notifications and
      unknown methods in between change nothing. */
  lemma {:induction false} SilentLinesAnswerNothing(lines: seq<Line>)
    requires forall i :: 0 <= i < |lines| ==> !(lines[i].Request? && Answered(lines[i].methodName))
    ensures AnsweredIds(lines) == []
  {
    if |lines| > 0 {
      SilentLinesAnswerNothing(lines[..|lines| - 1]);
    }
  }

  /** Nothing after a line that is too long is read: only the lines before
      it are answered. */
  lemma {:induction false} TooLongEndsScan(before: seq<Line>, after: seq<Line>)
    requires forall i :: 0 <= i < |before| ==> !before[i].TooLong?
    ensures ScanEnd(before + [TooLong] + after) == |before|
    ensures AnsweredIds((before + [TooLong] + after)[..ScanEnd(before + [TooLong] + after)]) == AnsweredIds(before)
  {
    var lines := before + [TooLong] + after;
    if |before| > 0 {
      assert lines[1..] == before[1..] + [TooLong] + after;
      TooLongEndsScan(before[1..], after);
    }
    assert lines[..|before|] == before;
  }

  /** The handshake: initialize, the notification, a garbage line, then
      tools/list are answered with the ids of the first and the last line. */
  lemma HandshakeVector(a: string, b: string, p: CallParams)
    ensures AnsweredIds([Request(a, "initialize", p), Request("", "notifications/initialized", p),
                         Garbage, Request(b, "tools/list", p)]) == [a, b]
  {
    var lines := [Request(a, "initialize", p), Request("", "notifications/initialized", p),
                  Garbage, Request(b, "tools/list", p)];
    assert !Answered("notifications/initialized") by {
      assert |"notifications/initialized"| == 25;
    }
    assert lines[..1][..0] == [];
    assert AnsweredIds(lines[..1]) == [a];
    assert lines[..2][..1] == lines[..1];
    assert AnsweredIds(lines[..2]) == [a];
    assert lines[..3][..2] == lines[..2];
    assert AnsweredIds(lines[..3]) == [a];
    assert lines[..3] == lines[..|lines| - 1];
  }
}

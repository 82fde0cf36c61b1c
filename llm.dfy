/** The prompt repair request of internal/llm/gemini.go (AutoFix): the
    linter's issues and the original prompt are formatted into a meta-prompt,
    the Gemini client is asked for a corrected YAML text, and stray Markdown
    fences are removed from the answer.

    The client library is not modelled: creating the client and generating
    content are parameters (an optional creation error and an oracle from the
    model name, the system instruction and the user prompt to a response). */
module Llm {
  import opened Wrappers
  import opened GoStrings
  import opened CoreCompiler

  /** An issue as AutoFix reads it: a type and a message. internal/llm/gemini.go
      refers to analyzer.Issue, which internal/analyzer does not define; this
      record has the two fields the code reads. */
  datatype Issue = Issue(kind: string, message: string)

  /** The first text part of the first candidate, if the response has one. */
  datatype GenResponse = NoText | Text(text: string)

  type Generator = (string, string, string) -> Result<GenResponse>

  const ModelName: string := "gemini-2.5-flash"

  const ErrNoApiKey: string := "la variable de entorno GEMINI_API_KEY no está configurada"
  const ErrClientPrefix: string := "error al crear el cliente de Gemini: "
  const ErrGeneratePrefix: string := "error al generar respuesta de Gemini: "
  const ErrEmptyResponse: string := "respuesta vacía o formato desconocido de Gemini"

  /** The system instruction sent with every request. */
  const SystemInstruction: string :=
    "Eres un AI Prompt Engineer Senior.\n"
    + "Tu tarea es tomar un archivo de definición de prompt (YAML) deficiente y corregirlo basándote en los errores de un linter (análisis estático).\n"
    + "Debes devolver ÚNICAMENTE el código YAML corregido, sin bloques de código markdown (\"```yaml\") ni texto adicional. Solo el YAML puro.\n"
    + "Asegúrate de:\n"
    + "1. Expandir el contexto si es muy corto.\n"
    + "2. Reemplazar palabras ambiguas con instrucciones precisas.\n"
    + "3. Añadir restricciones negativas (\"No hacer X\") si faltan."

  // ---------------------------------------------------------------------------
  // The issue list
  // ---------------------------------------------------------------------------

  /** The line `- [Type]: Message` of one issue, with its newline. */
  function IssueLine(i: Issue): string
  {
    "- [" + i.kind + "]: " + i.message + "\n"
  }

  /** The lines of all issues, in order. */
  function IssueLines(issues: seq<Issue>): string
  {
    if |issues| == 0 then "" else IssueLines(issues[..|issues| - 1]) + IssueLine(issues[|issues| - 1])
  }

  /** gemini.go:44-47: the issue lines written into a string builder. */
  method FormatIssues(issues: seq<Issue>) returns (s: string)
    ensures s == IssueLines(issues)
  {
    s := "";
    var i := 0;
    while i < |issues|
      invariant 0 <= i <= |issues|
      invariant s == IssueLines(issues[..i])
    {
      assert issues[..i + 1][..i] == issues[..i];
      s := s + IssueLine(issues[i]);
      i := i + 1;
    }
    assert issues[..i] == issues;
  }

  /** The issue lines of `a + b` are those of `a` followed by those of `b`. */
  lemma {:induction false} IssueLinesConcat(a: seq<Issue>, b: seq<Issue>)
    ensures IssueLines(a + b) == IssueLines(a) + IssueLines(b)
    decreases |b|
  {
    if |b| == 0 {
      assert a + b == a;
    } else {
      var n := |b| - 1;
      assert (a + b)[..|a + b| - 1] == a + b[..n];
      assert (a + b)[|a + b| - 1] == b[n];
      IssueLinesConcat(a, b[..n]);
      Associate(IssueLines(a), IssueLines(b[..n]), IssueLine(b[n]));
    }
  }

  /** Concatenation of strings is associative. */
  lemma Associate(x: string, y: string, z: string)
    ensures (x + y) + z == x + (y + z)
  {
  }

  /** No line break inside a string. */
  ghost predicate SingleLine(s: string)
  {
    forall j :: 0 <= j < |s| ==> s[j] != '\n'
  }

  /** Issues whose fields have no line break give exactly one line each. */
  lemma {:induction false} IssueLinesCount(issues: seq<Issue>)
    requires forall k :: 0 <= k < |issues| ==> SingleLine(issues[k].kind) && SingleLine(issues[k].message)
    ensures Newlines(IssueLines(issues)) == |issues|
  {
    if |issues| > 0 {
      var init, i := issues[..|issues| - 1], issues[|issues| - 1];
      IssueLinesCount(init);
      var body := "- [" + i.kind + "]: " + i.message;
      assert SingleLine(body) by {
        assert body == "- [" + (i.kind + ("]: " + i.message));
      }
      NoNewlines(body);
      NewlinesConcat(IssueLines(init), body);
      NewlinesConcat(IssueLines(init) + body, "\n");
      assert IssueLines(issues) == IssueLines(init) + body + "\n";
    }
  }

  // ---------------------------------------------------------------------------
  // The constraint list
  // ---------------------------------------------------------------------------

  /** The YAML line `  - "c"` of one constraint, with its newline. */
  function QuotedLine(c: string): string
  {
    "  - \"" + c + "\"\n"
  }

  /** The quoted lines of all constraints, in order. */
  function QuotedLines(cs: seq<string>): string
  {
    if |cs| == 0 then "" else QuotedLines(cs[..|cs| - 1]) + QuotedLine(cs[|cs| - 1])
  }

  /** formatConstraintsList: `  []` for no constraints, otherwise one quoted
      line per constraint. */
  method FormatConstraintsList(constraints: seq<string>) returns (s: string)
    ensures |constraints| == 0 ==> s == "  []"
    ensures |constraints| > 0 ==> s == QuotedLines(constraints)
  {
    if |constraints| == 0 {
      return "  []";
    }
    s := "";
    var i := 0;
    while i < |constraints|
      invariant 0 <= i <= |constraints|
      invariant s == QuotedLines(constraints[..i])
    {
      assert constraints[..i + 1][..i] == constraints[..i];
      s := s + QuotedLine(constraints[i]);
      i := i + 1;
    }
    assert constraints[..i] == constraints;
  }

  /** The constraint list as the meta-prompt shows it. */
  function ConstraintsList(cs: seq<string>): string
  {
    if |cs| == 0 then "  []" else QuotedLines(cs)
  }

  /** A non-empty list ends with a newline and, when no constraint has a line
      break, has exactly one line per constraint. */
  lemma {:induction false} QuotedLinesCount(cs: seq<string>)
    requires forall k :: 0 <= k < |cs| ==> SingleLine(cs[k])
    ensures Newlines(QuotedLines(cs)) == |cs|
    ensures |cs| > 0 ==> HasSuffix(QuotedLines(cs), "\n")
  {
    if |cs| > 0 {
      var init, c := cs[..|cs| - 1], cs[|cs| - 1];
      QuotedLinesCount(init);
      var body := "  - \"" + c + "\"";
      assert SingleLine(body) by {
        assert body == "  - \"" + (c + "\"");
      }
      NoNewlines(body);
      NewlinesConcat(QuotedLines(init), body);
      NewlinesConcat(QuotedLines(init) + body, "\n");
      assert QuotedLines(cs) == QuotedLines(init) + body + "\n";
    }
  }

  // ---------------------------------------------------------------------------
  // Fence cleanup
  // ---------------------------------------------------------------------------

  const YamlFence: string := "```yaml\n"
  const OpenFence: string := "```\n"
  const CloseFence: string := "\n```"

  /** gemini.go:81-83: a leading "```yaml\n" is removed when the text has
      one, then a leading "```\n" when what is left has one, then a trailing
      "\n```" when what is left has one; each fence is removed at most once. */
  function CleanFence(text: string): (r: string)
    ensures exists p1, p2, suf ::
      && text == p1 + p2 + r + suf
      && (p1 == "" || p1 == YamlFence) && (p1 == YamlFence <==> HasPrefix(text, YamlFence))
      && (p2 == "" || p2 == OpenFence) && (p2 == OpenFence <==> HasPrefix(p2 + r + suf, OpenFence))
      && (suf == "" || suf == CloseFence) && (suf == CloseFence <==> HasSuffix(r + suf, CloseFence))
  {
    var t1 := TrimPrefix(text, YamlFence);
    var t2 := TrimPrefix(t1, OpenFence);
    var t3 := TrimSuffix(t2, CloseFence);
    var p1 := if HasPrefix(text, YamlFence) then YamlFence else "";
    var p2 := if HasPrefix(t1, OpenFence) then OpenFence else "";
    var suf := if HasSuffix(t2, CloseFence) then CloseFence else "";
    Peel(text, t1, t2, t3, p1, p2, suf);
    t3
  }

  /** Three layers peeled off one after the other. */
  lemma Peel(text: string, t1: string, t2: string, t3: string, p1: string, p2: string, suf: string)
    requires text == p1 + t1 && t1 == p2 + t2 && t2 == t3 + suf
    ensures text == p1 + p2 + t3 + suf && t1 == p2 + t3 + suf
  {
  }

  /** A text with none of the three fences comes back unchanged. */
  lemma CleanFenceUnfenced(text: string)
    requires !HasPrefix(text, YamlFence) && !HasPrefix(text, OpenFence) && !HasSuffix(text, CloseFence)
    ensures CleanFence(text) == text
  {
  }

  /** A YAML body wrapped in a yaml fence is recovered exactly. */
  lemma CleanFenceWrapped(body: string)
    requires |body| > 0 && body[0] != '`'
    ensures CleanFence(YamlFence + body + CloseFence) == body
  {
    var text := YamlFence + body + CloseFence;
    assert text[..|YamlFence|] == YamlFence;
    var t1 := text[|YamlFence|..];
    assert t1 == body + CloseFence;
    assert t1[0] == body[0];
    assert !HasPrefix(t1, OpenFence);
    assert t1[|t1| - |CloseFence|..] == CloseFence;
    assert t1[..|t1| - |CloseFence|] == body;
  }

  // ---------------------------------------------------------------------------
  // AutoFix
  // ---------------------------------------------------------------------------

  /** The user prompt: the issue lines and the original prompt in YAML form. */
  function UserPrompt(source: PromptSource, issues: seq<Issue>): string
  {
    "\nERRORES DETECTADOS POR EL LINTER:\n" + IssueLines(issues)
    + "\n\nPROMPT ORIGINAL (YAML):\nrole: \"" + source.role
    + "\"\ncontext: \"" + source.context
    + "\"\ntask: \"" + source.task
    + "\"\nconstraints:\n" + ConstraintsList(source.constraints)
    + "\n\nPor favor, devuelve la versión corregida en formato YAML puro:"
  }

  /** What AutoFix returns, given the key, the outcome of creating the client
      and the generation oracle. */
  function AutoFixResult(source: PromptSource, issues: seq<Issue>, apiKey: string,
                         clientError: Option<string>, generate: Generator): Result<string>
  {
    if apiKey == "" then Err(ErrNoApiKey)
    else if clientError.Some? then Err(ErrClientPrefix + clientError.value)
    else match generate(ModelName, SystemInstruction, UserPrompt(source, issues))
      case Err(e) => Err(ErrGeneratePrefix + e)
      case Ok(NoText) => Err(ErrEmptyResponse)
      case Ok(Text(t)) => Ok(CleanFence(t))
  }

  /** AutoFix: the key is checked first, then the client, then the response. */
  method AutoFix(source: PromptSource, issues: seq<Issue>, apiKey: string,
                 clientError: Option<string>, generate: Generator) returns (r: Result<string>)
    ensures r == AutoFixResult(source, issues, apiKey, clientError, generate)
    ensures apiKey == "" ==> r == Err(ErrNoApiKey)
  {
    if apiKey == "" {
      return Err(ErrNoApiKey);
    }
    if clientError.Some? {
      return Err(ErrClientPrefix + clientError.value);
    }
    var issuesList := FormatIssues(issues);
    var constraintsList := FormatConstraintsList(source.constraints);
    var userPrompt := "\nERRORES DETECTADOS POR EL LINTER:\n" + issuesList
      + "\n\nPROMPT ORIGINAL (YAML):\nrole: \"" + source.role
      + "\"\ncontext: \"" + source.context
      + "\"\ntask: \"" + source.task
      + "\"\nconstraints:\n" + constraintsList
      + "\n\nPor favor, devuelve la versión corregida en formato YAML puro:";
    assert constraintsList == ConstraintsList(source.constraints);
    assert userPrompt == UserPrompt(source, issues);
    var resp := generate(ModelName, SystemInstruction, userPrompt);
    match resp
    case Err(e) =>
      r := Err(ErrGeneratePrefix + e);
    case Ok(NoText) =>
      r := Err(ErrEmptyResponse);
    case Ok(Text(t)) =>
      var cleanText := TrimPrefix(t, YamlFence);
      cleanText := TrimPrefix(cleanText, OpenFence);
      cleanText := TrimSuffix(cleanText, CloseFence);
      r := Ok(cleanText);
  }

  /** Without a key the result is that error, whatever the client and the
      model would have done: nothing else is consulted. */
  lemma AutoFixNeedsKey(source: PromptSource, issues: seq<Issue>, clientError: Option<string>,
                        g1: Generator, g2: Generator)
    ensures AutoFixResult(source, issues, "", clientError, g1) == Err(ErrNoApiKey)
    ensures AutoFixResult(source, issues, "", clientError, g1) == AutoFixResult(source, issues, "", None, g2)
  {
  }

  /** With a key and a client, the answer depends only on what the model
      returns for this prompt; a text answer succeeds and is the cleaned text. */
  lemma AutoFixUsesResponse(source: PromptSource, issues: seq<Issue>, apiKey: string,
                            g1: Generator, g2: Generator)
    requires apiKey != ""
    requires g1(ModelName, SystemInstruction, UserPrompt(source, issues))
          == g2(ModelName, SystemInstruction, UserPrompt(source, issues))
    ensures AutoFixResult(source, issues, apiKey, None, g1) == AutoFixResult(source, issues, apiKey, None, g2)
    ensures AutoFixResult(source, issues, apiKey, None, g1).Ok? <==>
            g1(ModelName, SystemInstruction, UserPrompt(source, issues)).Ok?
            && g1(ModelName, SystemInstruction, UserPrompt(source, issues)).value.Text?
  {
  }
}

/** The validating compiler of internal/core/compiler.go: it refuses a
    prompt without a role or with a too short task, scores the prompt by its
    warnings and renders a fixed plain-text layout.

    The compiler works on the PromptSource record; internal/core/compiler.go
    returns the Result record of internal/models/models.go:14-18. */
module CoreCompiler {
  import opened Wrappers
  import opened GoStrings

  /** core.PromptSource (internal/core/models.go:5-10). */
  datatype PromptSource = PromptSource(role: string, context: string, task: string, constraints: seq<string>)

  /** models.Result (internal/models/models.go:14-18). */
  datatype CompileResult = CompileResult(rawPrompt: string, score: int, warnings: seq<string>)

  const ErrMissingRole: string := "el rol del sistema es obligatorio "
  const ErrTooVague: string := "el prompt es demasiado corto y causará alucionaciones"

  const MissingContextWarning: string := "Falta contexto adicional para mejores resultados"
  const FewConstraintsWarning: string := "Las restricciones son muy limitadas"

  /** The minimum task length in bytes. */
  const MinTaskBytes: int := 10

  // ---------------------------------------------------------------------------
  // Specification functions
  // ---------------------------------------------------------------------------

  /** The warnings of `ps`: first the missing context, then the short
      constraint list. */
  function Warnings(ps: PromptSource): seq<string>
  {
    (if ps.context == "" then [MissingContextWarning] else [])
    + (if |ps.constraints| < 2 then [FewConstraintsWarning] else [])
  }

  /** One line `- c` per constraint, each ended by a newline, in order. */
  function ConstraintLines(cs: seq<string>): string
  {
    if |cs| == 0 then "" else ConstraintLines(cs[..|cs| - 1]) + "- " + cs[|cs| - 1] + "\n"
  }

  /** The rendered prompt. */
  function Rendered(ps: PromptSource): string
  {
    ps.role + "\n\n" + ps.task + "\n\nContexto: " + ps.context + "\n\nRestricciones:\n"
    + ConstraintLines(ps.constraints)
  }

  /** What Compiler.Compile returns for `ps`. */
  function Compiled(ps: PromptSource): Result<CompileResult>
  {
    if ps.role == "" then Err(ErrMissingRole)
    else if ByteLen(ps.task) < MinTaskBytes then Err(ErrTooVague)
    else
      var w := Warnings(ps);
      Ok(CompileResult(Rendered(ps), 100 - |w| * 20, w))
  }

  // ---------------------------------------------------------------------------
  // The compiler
  // ---------------------------------------------------------------------------

  /** Compiler.analyze: collects the warnings one check at a time. */
  method Analyze(ps: PromptSource) returns (warnings: seq<string>)
    ensures MissingContextWarning in warnings <==> ps.context == ""
    ensures FewConstraintsWarning in warnings <==> |ps.constraints| < 2
    ensures |warnings| == (if ps.context == "" then 1 else 0) + (if |ps.constraints| < 2 then 1 else 0)
    ensures |warnings| == 2 ==> warnings == [MissingContextWarning, FewConstraintsWarning]
    ensures warnings == Warnings(ps)
  {
    warnings := [];
    if ps.context == "" {
      warnings := warnings + [MissingContextWarning];
    }
    if |ps.constraints| < 2 {
      warnings := warnings + [FewConstraintsWarning];
    }
  }

  /** Compiler.render: the constraint lines are accumulated in a loop. */
  method Render(ps: PromptSource) returns (out: string)
    ensures out == Rendered(ps)
  {
    var constraintsStr := "";
    var i := 0;
    while i < |ps.constraints|
      invariant 0 <= i <= |ps.constraints|
      invariant constraintsStr == ConstraintLines(ps.constraints[..i])
    {
      assert ps.constraints[..i + 1][..i] == ps.constraints[..i];
      constraintsStr := constraintsStr + "- " + ps.constraints[i] + "\n";
      i := i + 1;
    }
    assert ps.constraints[..i] == ps.constraints;
    out := ps.role + "\n\n" + ps.task + "\n\nContexto: " + ps.context + "\n\nRestricciones:\n" + constraintsStr;
  }

  /** Compiler.Compile: the role check comes first, then the task length
      (in bytes); a valid prompt is scored by its warnings and rendered. */
  method Compile(ps: PromptSource) returns (r: Result<CompileResult>)
    ensures r == Compiled(ps)
    ensures ps.role == "" ==> r == Err(ErrMissingRole)
    ensures ps.role != "" && ByteLen(ps.task) < MinTaskBytes ==> r == Err(ErrTooVague)
    ensures r.Ok? <==> ps.role != "" && ByteLen(ps.task) >= MinTaskBytes
    ensures r.Ok? ==> r.value.score == 100 - 20 * |r.value.warnings|
  {
    if ps.role == "" {
      return Err(ErrMissingRole);
    }
    if ByteLen(ps.task) < MinTaskBytes {
      return Err(ErrTooVague);
    }
    var warnings := Analyze(ps);
    var score := 100 - |warnings| * 20;
    var output := Render(ps);
    r := Ok(CompileResult(output, score, warnings));
  }

  // ---------------------------------------------------------------------------
  // Properties
  // ---------------------------------------------------------------------------

  /** A successful compilation scores 60, 80 or 100, and 100 exactly when
      there is no warning. */
  lemma CompiledScore(ps: PromptSource)
    requires Compiled(ps).Ok?
    ensures var res := Compiled(ps).value;
            && (res.score == 60 || res.score == 80 || res.score == 100)
            && (res.score == 100 <==> |res.warnings| == 0)
            && (res.score == 60 <==> ps.context == "" && |ps.constraints| < 2)
  {
  }

  /** Rendering the constraints of `a + b` renders those of `a`, then those of `b`. */
  lemma {:induction false} ConstraintLinesConcat(a: seq<string>, b: seq<string>)
    ensures ConstraintLines(a + b) == ConstraintLines(a) + ConstraintLines(b)
    decreases |b|
  {
    if |b| == 0 {
      assert a + b == a;
    } else {
      var b' := b[..|b| - 1];
      assert (a + b)[..|a + b| - 1] == a + b';
      assert (a + b)[|a + b| - 1] == b[|b| - 1];
      ConstraintLinesConcat(a, b');
    }
  }

  /** The number of newline characters in `s`. */
  function Newlines(s: string): nat
  {
    if |s| == 0 then 0 else Newlines(s[..|s| - 1]) + (if s[|s| - 1] == '\n' then 1 else 0)
  }

  /** Newlines add up over a concatenation. */
  lemma {:induction false} NewlinesConcat(a: string, b: string)
    ensures Newlines(a + b) == Newlines(a) + Newlines(b)
    decreases |b|
  {
    if |b| == 0 {
      assert a + b == a;
    } else {
      var b' := b[..|b| - 1];
      assert (a + b)[..|a + b| - 1] == a + b';
      NewlinesConcat(a, b');
    }
  }

  /** A string without a newline character has no newlines. */
  lemma {:induction false} NoNewlines(s: string)
    requires forall i :: 0 <= i < |s| ==> s[i] != '\n'
    ensures Newlines(s) == 0
  {
    if |s| > 0 {
      NoNewlines(s[..|s| - 1]);
    }
  }

  /** Constraints without line breaks give exactly one line each, and a
      non-empty list ends with a newline. */
  lemma {:induction false} ConstraintLinesCount(cs: seq<string>)
    requires forall i, j :: 0 <= i < |cs| && 0 <= j < |cs[i]| ==> cs[i][j] != '\n'
    ensures Newlines(ConstraintLines(cs)) == |cs|
    ensures |cs| > 0 ==> HasSuffix(ConstraintLines(cs), "\n")
  {
    if |cs| > 0 {
      var init, c := cs[..|cs| - 1], cs[|cs| - 1];
      ConstraintLinesCount(init);
      assert "- " + c == ['-', ' '] + c;
      NoNewlines("- " + c);
      NewlinesConcat(ConstraintLines(init), "- " + c);
      NewlinesConcat(ConstraintLines(init) + ("- " + c), "\n");
      assert ConstraintLines(cs) == ConstraintLines(init) + ("- " + c) + "\n";
    }
  }

  /** The render starts with the role and the task, separated by a blank line. */
  lemma RenderedStartsWithRoleAndTask(ps: PromptSource)
    ensures HasPrefix(Rendered(ps), ps.role + "\n\n" + ps.task + "\n\nContexto: " + ps.context)
  {
    var head := ps.role + "\n\n" + ps.task + "\n\nContexto: " + ps.context;
    assert Rendered(ps) == head + ("\n\nRestricciones:\n" + ConstraintLines(ps.constraints));
    assert Rendered(ps)[..|head|] == head;
  }

  /** internal/core/compiler_test.go:9-24: a role and a long task compile
      successfully with a score of at least 50 (here 60: no context and no
      constraints). */
  lemma CompileSuccessVector(ps: PromptSource)
    requires ps.role == "Senior Developer"
    requires ps.task == "Explicar punteros" + " en Go de forma clara," + " con ejemplos técnicos"
    requires ps.context == "" && ps.constraints == []
    ensures Compiled(ps).Ok? && Compiled(ps).value.score == 60
  {
    ByteLenBounds(ps.task);
  }
}

/** The prompt types of pkg/core/types.go and the deterministic compiler and
    analyzer of pkg/engine/compiler.go.

    The PII masker (pkg/security/masker.go) is a regular-expression rewriter
    that this model does not interpret: every operation takes it as a
    parameter `mask`, a function from a text to the masked text and the names
    of the patterns it detected. */
module Engine {
  import opened GoStrings

  /** core.Prompt (pkg/core/types.go:6-15). A nil Go map and an empty one
      behave alike here; CreatedAt is never read by the engine and is left out. */
  datatype Prompt = Prompt(
    id: string,
    version: string,
    role: string,
    context: string,
    task: string,
    constraints: seq<string>,
    variables: map<string, string>)

  /** core.Result (pkg/core/types.go:17-23): the analysis of a prompt. */
  datatype Analysis = Analysis(
    score: int,
    isReliable: bool,
    issues: seq<string>,
    suggestions: seq<string>)

  /** What Masker.Mask returns: the masked text and the detected pattern names. */
  datatype MaskResult = MaskResult(text: string, detected: seq<string>)

  type Masker = string -> MaskResult

  /** A masker that changes nothing and detects nothing. */
  function IdentityMask(s: string): MaskResult
  {
    MaskResult(s, [])
  }

  // ---------------------------------------------------------------------------
  // Compile (pkg/engine/compiler.go:19-69)
  // ---------------------------------------------------------------------------

  /** `order` lists every key of `vars` exactly once: the order in which Go's
      `range` happens to visit the map, which the language leaves unspecified. */
  ghost predicate IsKeyOrder(order: seq<string>, vars: map<string, string>)
  {
    && (forall k :: k in vars <==> k in order)
    && (forall i, j :: 0 <= i < j < |order| ==> order[i] != order[j])
  }

  /** The placeholder `{{name}}` of a variable. */
  function Placeholder(name: string): (r: string)
    ensures |r| == |name| + 4
  {
    "{{" + name + "}}"
  }

  /** Every `{{k}}` in `task` replaced by `vals[k]`, for the keys in `keys`
      taken in order. */
  function SubstituteVariables(task: string, keys: seq<string>, vals: map<string, string>): string
    requires forall k :: k in keys ==> k in vals
  {
    if |keys| == 0 then task
    else
      var k := keys[|keys| - 1];
      ReplaceAll(SubstituteVariables(task, keys[..|keys| - 1], vals), Placeholder(k), vals[k])
  }

  /** The variable values after masking. */
  function MaskedVariables(mask: Masker, vars: map<string, string>): (m: map<string, string>)
    ensures m.Keys == vars.Keys
  {
    map k | k in vars :: mask(vars[k]).text
  }

  /** The task after placeholder resolution (compiler.go:31-42): `{{role}}` and
      `{{context}}` are replaced only when the masked role, respectively
      context, is not empty; then every variable, in map order. */
  function ResolvedTask(mask: Masker, p: Prompt, order: seq<string>): string
    requires IsKeyOrder(order, p.variables)
  {
    var role := mask(p.role).text;
    var context := mask(p.context).text;
    var t0 := mask(p.task).text;
    var t1 := if role != "" then ReplaceAll(t0, "{{role}}", role) else t0;
    var t2 := if context != "" then ReplaceAll(t1, "{{context}}", context) else t1;
    SubstituteVariables(t2, order, MaskedVariables(mask, p.variables))
  }

  /** The bullet line of each constraint: "- " followed by the masked constraint. */
  function Bullets(mask: Masker, constraints: seq<string>): (b: seq<string>)
    ensures |b| == |constraints|
    ensures forall i :: 0 <= i < |b| ==> b[i] == "- " + mask(constraints[i]).text
  {
    seq(|constraints|, i requires 0 <= i < |constraints| => "- " + mask(constraints[i]).text)
  }

  /** The CONSTRAINTS block: its header, then the bullets one per line, with no
      newline after the last one. */
  function ConstraintsBlock(mask: Masker, constraints: seq<string>): string
  {
    "### CONSTRAINTS\n" + Join(Bullets(mask, constraints), "\n")
  }

  /** The Markdown blocks of the compiled prompt (compiler.go:45-66). */
  function Blocks(mask: Masker, p: Prompt, order: seq<string>): (b: seq<string>)
    requires IsKeyOrder(order, p.variables)
    ensures var role, context := mask(p.role).text, mask(p.context).text;
            var t := (if role != "" then 1 else 0) + (if context != "" then 1 else 0);
            && |b| == t + 1 + (if |p.constraints| > 0 then 1 else 0)
            && (role != "" ==> b[0] == "### ROLE\n" + role)
            && (context != "" ==> b[t - 1] == "### CONTEXT\n" + context)
            && b[t] == "### TASK\n" + ResolvedTask(mask, p, order)
            && (|p.constraints| > 0 ==> b[t + 1] == ConstraintsBlock(mask, p.constraints))
  {
    var role := mask(p.role).text;
    var context := mask(p.context).text;
    (if role != "" then ["### ROLE\n" + role] else [])
    + (if context != "" then ["### CONTEXT\n" + context] else [])
    + ["### TASK\n" + ResolvedTask(mask, p, order)]
    + (if |p.constraints| > 0 then [ConstraintsBlock(mask, p.constraints)] else [])
  }

  /** The compiled prompt: the blocks separated by blank lines. */
  function Compiled(mask: Masker, p: Prompt, order: seq<string>): string
    requires IsKeyOrder(order, p.variables)
  {
    Join(Blocks(mask, p, order), "\n\n")
  }

  /** compiler.go:27-29: every variable value replaced by its masked form,
      visiting the keys in map order. */
  method MaskVariables(mask: Masker, vars: map<string, string>, order: seq<string>)
    returns (masked: map<string, string>)
    requires IsKeyOrder(order, vars)
    ensures masked == MaskedVariables(mask, vars)
  {
    masked := vars;
    var i := 0;
    while i < |order|
      invariant 0 <= i <= |order|
      invariant masked.Keys == vars.Keys
      invariant forall k :: k in masked ==>
        masked[k] == if k in order[..i] then mask(vars[k]).text else vars[k]
    {
      var k := order[i];
      masked := masked[k := mask(masked[k]).text];
      i := i + 1;
    }
    assert order[..i] == order;
  }

  /** compiler.go:40-42: each `{{k}}` replaced by the value of `k`, in map order. */
  method ReplaceVariables(task: string, vals: map<string, string>, order: seq<string>)
    returns (r: string)
    requires forall k :: k in order ==> k in vals
    ensures r == SubstituteVariables(task, order, vals)
  {
    r := task;
    var i := 0;
    while i < |order|
      invariant 0 <= i <= |order|
      invariant r == SubstituteVariables(task, order[..i], vals)
    {
      var k := order[i];
      assert order[..i + 1][..i] == order[..i];
      r := ReplaceAll(r, Placeholder(k), vals[k]);
      i := i + 1;
    }
    assert order[..i] == order;
  }

  /** compiler.go:55-66: the CONSTRAINTS block written through a string
      builder, a newline after every bullet but the last. */
  method BuildConstraintsBlock(mask: Masker, constraints: seq<string>) returns (cb: string)
    requires |constraints| > 0
    ensures cb == ConstraintsBlock(mask, constraints)
  {
    var n := |constraints|;
    ghost var bullets := Bullets(mask, constraints);
    cb := "### CONSTRAINTS\n";
    var j := 0;
    while j < n
      invariant 0 <= j <= n
      invariant j == 0 ==> cb == "### CONSTRAINTS\n"
      invariant 0 < j < n ==> cb == "### CONSTRAINTS\n" + Join(bullets[..j], "\n") + "\n"
      invariant j == n ==> cb == "### CONSTRAINTS\n" + Join(bullets[..j], "\n")
    {
      var maskedC := mask(constraints[j]).text;
      assert bullets[..j + 1][..j] == bullets[..j];
      cb := cb + "- " + maskedC;
      if j < n - 1 {
        cb := cb + "\n";
      }
      j := j + 1;
    }
    assert bullets[..n] == bullets;
  }

  /** CompilerEngine.Compile. Its error result is always nil, so only the text
      is returned. `order` is the order in which the variables map is visited;
      the in-place masking of the caller's map is not modelled. */
  method Compile(mask: Masker, p: Prompt, order: seq<string>) returns (text: string)
    requires IsKeyOrder(order, p.variables)
    ensures text == Compiled(mask, p, order)
  {
    // 1. Masking
    var role := mask(p.role).text;
    var context := mask(p.context).text;
    var task := mask(p.task).text;
    var vars := MaskVariables(mask, p.variables, order);

    // 2. Task resolution
    if role != "" {
      task := ReplaceAll(task, "{{role}}", role);
    }
    if context != "" {
      task := ReplaceAll(task, "{{context}}", context);
    }
    task := ReplaceVariables(task, vars, order);

    // 3. Markdown blocks
    var blocks: seq<string> := [];
    if role != "" {
      blocks := blocks + ["### ROLE\n" + role];
    }
    if context != "" {
      blocks := blocks + ["### CONTEXT\n" + context];
    }
    blocks := blocks + ["### TASK\n" + task];
    if |p.constraints| > 0 {
      var cb := BuildConstraintsBlock(mask, p.constraints);
      blocks := blocks + [cb];
    }
    assert blocks == Blocks(mask, p, order);
    text := Join(blocks, "\n\n");
  }

  /** The ROLE block leads exactly when the masked role is not empty: otherwise
      the output starts with the CONTEXT or the TASK header. */
  lemma CompiledStartsWithRole(mask: Masker, p: Prompt, order: seq<string>)
    requires IsKeyOrder(order, p.variables)
    ensures HasPrefix(Compiled(mask, p, order), "### ROLE\n") <==> mask(p.role).text != ""
  {
    var b := Blocks(mask, p, order);
    JoinStartsWithFirst(b, "\n\n");
    var out := Compiled(mask, p, order);
    if mask(p.role).text == "" {
      assert HasPrefix(b[0], "### CONTEXT\n") || HasPrefix(b[0], "### TASK\n");
      assert out[..|b[0]|] == b[0];
      assert out[4] == b[0][4];
      assert out[4] != 'R';
    } else {
      assert out[..9] == out[..|b[0]|][..9];
    }
  }

  /** With constraints, the output ends with the CONSTRAINTS block; without, it
      ends with the TASK block. */
  lemma CompiledEnding(mask: Masker, p: Prompt, order: seq<string>)
    requires IsKeyOrder(order, p.variables)
    ensures |p.constraints| > 0 ==> HasSuffix(Compiled(mask, p, order), ConstraintsBlock(mask, p.constraints))
    ensures |p.constraints| == 0 ==> HasSuffix(Compiled(mask, p, order), "### TASK\n" + ResolvedTask(mask, p, order))
  {
    JoinEndsWithLast(Blocks(mask, p, order), "\n\n");
  }

  /** With an empty masked role the `{{role}}` placeholder is not touched, and
      the same for `{{context}}`: without variables the task is the masked task
      with only the other placeholder resolved. */
  lemma PlaceholdersSurviveWhenEmpty(mask: Masker, p: Prompt)
    requires p.variables == map[]
    ensures var t := mask(p.task).text;
            var role, context := mask(p.role).text, mask(p.context).text;
            && (role == "" && context == "" ==> ResolvedTask(mask, p, []) == t)
            && (role == "" && context != "" ==> ResolvedTask(mask, p, []) == ReplaceAll(t, "{{context}}", context))
            && (role != "" && context == "" ==> ResolvedTask(mask, p, []) == ReplaceAll(t, "{{role}}", role))
  {
  }

  /** No opening brace anywhere in `s`: no placeholder can start inside it. */
  ghost predicate NoBrace(s: string)
  {
    forall i :: 0 <= i < |s| ==> s[i] != '{'
  }

  /** With the identity masker, a non-empty role and context, no constraints
      and no variables, the output is the three blocks around the task with
      both placeholders resolved. */
  lemma CompiledThreeBlocks(p: Prompt)
    requires p.role != "" && p.context != "" && p.constraints == [] && p.variables == map[]
    ensures Compiled(IdentityMask, p, []) ==
      "### ROLE\n" + p.role + "\n\n" + "### CONTEXT\n" + p.context + "\n\n" + "### TASK\n"
      + ReplaceAll(ReplaceAll(p.task, "{{role}}", p.role), "{{context}}", p.context)
  {
    var t := ReplaceAll(ReplaceAll(p.task, "{{role}}", p.role), "{{context}}", p.context);
    assert ResolvedTask(IdentityMask, p, []) == t;
    var b := ["### ROLE\n" + p.role, "### CONTEXT\n" + p.context, "### TASK\n" + t];
    assert Blocks(IdentityMask, p, []) == b;
    assert b[..2][..1] == [b[0]];
    assert Join(b[..2], "\n\n") == b[0] + "\n\n" + b[1];
  }

  /** Scanning for a placeholder passes over a stretch without a brace. */
  lemma SkipNoBrace(a: string, b: string, pat: string, rep: string)
    requires |pat| > 0 && pat[0] == '{' && NoBrace(a)
    ensures ReplaceAll(a + b, pat, rep) == a + ReplaceAll(b, pat, rep)
  {
    NoOccurrenceBefore(a, b, pat);
    ReplaceAllSkip(a, b, pat, rep);
  }

  /** `{{role}}` resolution in a task shaped like the base vector's. */
  lemma RoleStep(x: string, m: string, z: string, role: string)
    requires NoBrace(x) && NoBrace(m) && NoBrace(z)
    ensures ReplaceAll(x + "{{role}}" + m + "{{context}}" + z, "{{role}}", role)
         == x + role + m + "{{context}}" + z
  {
    var r, c := Placeholder("role"), Placeholder("context");
    assert r == "{{role}}" && c == "{{context}}";
    var tail := m + (c + z);
    calc {
      ReplaceAll(x + r + m + c + z, r, role);
      { assert x + r + m + c + z == x + (r + tail); }
      ReplaceAll(x + (r + tail), r, role);
      { SkipNoBrace(x, r + tail, r, role); }
      x + ReplaceAll(r + tail, r, role);
      { ReplaceAllAtStart(r, tail, role); }
      x + (role + ReplaceAll(tail, r, role));
      { RoleTail(m, z, role); }
      x + (role + tail);
      x + role + m + c + z;
    }
  }

  /** After `{{role}}`, the rest of a base-shaped task has no `{{role}}` left. */
  lemma RoleTail(m: string, z: string, role: string)
    requires NoBrace(m) && NoBrace(z)
    ensures ReplaceAll(m + ("{{context}}" + z), "{{role}}", role) == m + ("{{context}}" + z)
  {
    var r, c := Placeholder("role"), Placeholder("context");
    assert r == "{{role}}" && c == "{{context}}";
    calc {
      ReplaceAll(m + (c + z), r, role);
      { SkipNoBrace(m, c + z, r, role); }
      m + ReplaceAll(c + z, r, role);
      { PlaceholderSkip("context", "role", z, role); }
      m + (c + ReplaceAll(z, r, role));
      { NoOccurrence(z, r); ReplaceAllAbsent(z, r, role); }
      m + (c + z);
    }
  }

  /** `{{context}}` resolution after the role step. */
  lemma ContextStep(a: string, z: string, context: string)
    requires NoBrace(a) && NoBrace(z)
    ensures ReplaceAll(a + "{{context}}" + z, "{{context}}", context) == a + context + z
  {
    var c := "{{context}}";
    assert a + c + z == a + (c + z);
    NoOccurrenceBefore(a, c + z, c);
    ReplaceAllSkip(a, c + z, c, context);
    ReplaceAllAtStart(c, z, context);
    NoOccurrence(z, c);
    ReplaceAllAbsent(z, c, context);
  }

  /** The first vector of pkg/engine/compiler_test.go (lines 19-25): with the
      identity masker its prompt compiles to exactly the expected text. */
  lemma CompileBaseVector(p: Prompt)
    requires p == Prompt("", "", "Analista Senior", "Prevención de Fraudes",
                         "Eres un " + "{{role}}" + " experto en " + "{{context}}" + ". Evalúa este caso.",
                         [], map[])
    ensures Compiled(IdentityMask, p, []) ==
      "### ROLE\n" + "Analista Senior" + "\n\n" + "### CONTEXT\n" + "Prevención de Fraudes" + "\n\n"
      + "### TASK\n" + ("Eres un " + "Analista Senior" + " experto en " + "Prevención de Fraudes" + ". Evalúa este caso.")
  {
    var x, m, z := "Eres un ", " experto en ", ". Evalúa este caso.";
    assert p.task == x + "{{role}}" + m + "{{context}}" + z;
    assert NoBrace(x) && NoBrace(m) && NoBrace(z) && NoBrace(p.role);
    RoleStep(x, m, z, p.role);
    var a := x + p.role + m;
    assert NoBrace(a);
    ContextStep(a, z, p.context);
    CompiledThreeBlocks(p);
  }

  /** A pattern that starts with '{' occurs nowhere in a text without '{'. */
  lemma NoOccurrence(s: string, pat: string)
    requires |pat| > 0 && pat[0] == '{'
    requires forall i :: 0 <= i < |s| ==> s[i] != '{'
    ensures !Contains(s, pat)
  {
    forall i | OccursAt(s, pat, i) ensures false {
    }
  }

  /** No occurrence of a pattern starting with '{' begins inside a prefix
      without '{'. */
  lemma NoOccurrenceBefore(a: string, b: string, pat: string)
    requires |pat| > 0 && pat[0] == '{'
    requires forall i :: 0 <= i < |a| ==> a[i] != '{'
    ensures forall i :: 0 <= i < |a| ==> !OccursAt(a + b, pat, i)
  {
    forall i | 0 <= i < |a| && OccursAt(a + b, pat, i) ensures false {
    }
  }

  /** No occurrence of one placeholder begins inside another whose name starts
      with a different character. */
  lemma PlaceholderSkip(n1: string, n2: string, z: string, rep: string)
    requires |n1| > 0 && |n2| > 0 && n1[0] != n2[0]
    requires forall i :: 0 <= i < |n1| ==> n1[i] != '{'
    ensures ReplaceAll(Placeholder(n1) + z, Placeholder(n2), rep) == Placeholder(n1) + ReplaceAll(z, Placeholder(n2), rep)
  {
    var a, pat := Placeholder(n1), Placeholder(n2);
    assert a == "{{" + n1 + "}}" && pat == "{{" + n2 + "}}";
    forall i | 0 <= i < |a| ensures !OccursAt(a + z, pat, i) {
      if i == 0 {
        assert (a + z)[2] == n1[0];
        assert pat[2] == n2[0];
      } else if i == 1 {
        assert (a + z)[2] == n1[0];
        assert pat[1] == '{';
      } else {
        assert (a + z)[i] == a[i];
        assert a[i] != '{';
      }
    }
    ReplaceAllSkip(a, z, pat, rep);
  }

  // ---------------------------------------------------------------------------
  // Analyze (pkg/engine/compiler.go:71-112)
  // ---------------------------------------------------------------------------

  /** The four weighted quality checks, in the order they are applied. */
  datatype Check = RoleCheck | ContextCheck | TaskCheck | ConstraintsCheck

  const AllChecks: seq<Check> := [RoleCheck, ContextCheck, TaskCheck, ConstraintsCheck]

  /** Which of the four checks a prompt passes. */
  datatype Outcome = Outcome(role: bool, context: bool, task: bool, constraints: bool)

  /** The checks of compiler.go:83-105 evaluated on `p`, lengths in Go bytes:
      trimmed role at least 5, trimmed context at least 10, trimmed task at
      least 50, and at least two constraints. */
  function Evaluate(p: Prompt): Outcome
  {
    Outcome(ByteLen(TrimSpace(p.role)) >= 5, ByteLen(TrimSpace(p.context)) >= 10,
            ByteLen(TrimSpace(p.task)) >= 50, |p.constraints| >= 2)
  }

  /** Whether check `c` passed in outcome `o`. */
  predicate Passed(o: Outcome, c: Check)
  {
    match c
    case RoleCheck => o.role
    case ContextCheck => o.context
    case TaskCheck => o.task
    case ConstraintsCheck => o.constraints
  }

  /** The points a passed check is worth. */
  function Weight(c: Check): nat
  {
    if c == TaskCheck then 40 else 20
  }

  /** The issue reported when a check fails. */
  function IssueText(c: Check): string
  {
    match c
    case RoleCheck => "Falta ROL."
    case ContextCheck => "Falta CONTEXTO."
    case TaskCheck => "TAREA débil."
    case ConstraintsCheck => "Sin RESTRICCIONES."
  }

  /** The summed weight of the checks in `cs` that passed in `o`. */
  function Score(o: Outcome, cs: seq<Check>): nat
  {
    if |cs| == 0 then 0
    else Score(o, cs[..|cs| - 1]) + (if Passed(o, cs[|cs| - 1]) then Weight(cs[|cs| - 1]) else 0)
  }

  /** The summed weight of all checks in `cs`. */
  function TotalWeight(cs: seq<Check>): nat
  {
    if |cs| == 0 then 0 else TotalWeight(cs[..|cs| - 1]) + Weight(cs[|cs| - 1])
  }

  /** The issues of the checks in `cs` that failed in `o`, in order. */
  function FailedIssues(o: Outcome, cs: seq<Check>): seq<string>
  {
    if |cs| == 0 then []
    else FailedIssues(o, cs[..|cs| - 1]) + (if Passed(o, cs[|cs| - 1]) then [] else [IssueText(cs[|cs| - 1])])
  }

  /** The checks of `cs` that passed in `o`, in order. */
  function PassedChecks(o: Outcome, cs: seq<Check>): seq<Check>
  {
    if |cs| == 0 then []
    else PassedChecks(o, cs[..|cs| - 1]) + (if Passed(o, cs[|cs| - 1]) then [cs[|cs| - 1]] else [])
  }

  /** The SECURITY issue, present when the masker detects something in the task. */
  function SecurityIssues(mask: Masker, p: Prompt): seq<string>
  {
    var detected := mask(p.task).detected;
    if |detected| > 0 then
      ["SEGURIDAD: Se detectaron datos sensibles (" + Join(detected, ", ") + "). Serán ofuscados."]
    else []
  }

  /** The reliability threshold. */
  const ReliableScore := 75

  /** The analysis of `p`: the score is the points of the passed checks (the
      masker plays no part in it) and the issues are the security warning
      followed by one message per failed check, in check order. */
  function AnalysisOf(mask: Masker, p: Prompt): Analysis
  {
    var o := Evaluate(p);
    Analysis(Points(o), Points(o) >= ReliableScore, SecurityIssues(mask, p) + IssueList(o), [])
  }

  /** CompilerEngine.Analyze: accumulates the score and the issues check by check. */
  method Analyze(mask: Masker, p: Prompt) returns (r: Analysis)
    ensures r == AnalysisOf(mask, p)
    ensures 0 <= r.score <= 100 && r.score % 20 == 0
    ensures r.isReliable <==> r.score >= 75
    ensures r.isReliable ==> ByteLen(TrimSpace(p.task)) >= 50
  {
    var issues: seq<string> := [];
    var score := 0;

    var detected := mask(p.task).detected;
    if |detected| > 0 {
      issues := issues + ["SEGURIDAD: Se detectaron datos sensibles (" + Join(detected, ", ") + "). Serán ofuscados."];
    }
    ghost var i0 := issues;
    assert i0 == SecurityIssues(mask, p);

    var roleOk := ByteLen(TrimSpace(p.role)) >= 5;
    var contextOk := ByteLen(TrimSpace(p.context)) >= 10;
    var taskContent := TrimSpace(p.task);
    var taskOk := ByteLen(taskContent) >= 50;
    var constraintsOk := |p.constraints| >= 2;
    ghost var o := Outcome(roleOk, contextOk, taskOk, constraintsOk);
    assert o == Evaluate(p);

    if roleOk {
      score := score + 20;
    } else {
      issues := issues + ["Falta ROL."];
    }
    ghost var i1 := issues;
    if contextOk {
      score := score + 20;
    } else {
      issues := issues + ["Falta CONTEXTO."];
    }
    ghost var i2 := issues;
    if taskOk {
      score := score + 40;
    } else {
      issues := issues + ["TAREA débil."];
    }
    ghost var i3 := issues;
    if constraintsOk {
      score := score + 20;
    } else {
      issues := issues + ["Sin RESTRICCIONES."];
    }
    assert i1 == i0 + (if o.role then [] else ["Falta ROL."]);
    assert i2 == i1 + (if o.context then [] else ["Falta CONTEXTO."]);
    assert i3 == i2 + (if o.task then [] else ["TAREA débil."]);
    assert issues == i3 + (if o.constraints then [] else ["Sin RESTRICCIONES."]);
    assert score == Points(o);
    IssueListSteps(o, i0);
    PointsRange(o);
    r := Analysis(score, score >= 75, issues, []);
  }

  /** Appending the failed-check issues one check at a time builds IssueList. */
  lemma IssueListSteps(o: Outcome, i0: seq<string>)
    ensures i0 + (if o.role then [] else ["Falta ROL."])
              + (if o.context then [] else ["Falta CONTEXTO."])
              + (if o.task then [] else ["TAREA débil."])
              + (if o.constraints then [] else ["Sin RESTRICCIONES."])
            == i0 + IssueList(o)
  {
  }

  /** The score of outcome `o`, check by check. */
  function Points(o: Outcome): nat
  {
    (if o.role then 20 else 0) + (if o.context then 20 else 0)
    + (if o.task then 40 else 0) + (if o.constraints then 20 else 0)
  }

  /** The failed-check issues of outcome `o`, check by check. */
  function IssueList(o: Outcome): seq<string>
  {
    (if o.role then [] else ["Falta ROL."])
    + (if o.context then [] else ["Falta CONTEXTO."])
    + (if o.task then [] else ["TAREA débil."])
    + (if o.constraints then [] else ["Sin RESTRICCIONES."])
  }

  /** The points and issues of an outcome agree with the weighted check
      table: each passed check adds its weight, each failed one its issue. */
  lemma PointsIsTableScore(o: Outcome)
    ensures Points(o) == Score(o, AllChecks)
    ensures IssueList(o) == FailedIssues(o, AllChecks)
  {
    ScoreUnfold(o);
    IssuesUnfold(o);
  }

  /** The analysis agrees with the weighted check table: the score is the
      table's score whatever the masker (`other` is any second masker), and
      the issues are at most one security warning followed by the table's
      failed-check issues. */
  lemma AnalysisIsTable(mask: Masker, other: Masker, p: Prompt)
    ensures var a, o := AnalysisOf(mask, p), Evaluate(p);
            && a.score == Score(o, AllChecks)
            && a.score == AnalysisOf(other, p).score
            && a.issues == SecurityIssues(mask, p) + FailedIssues(o, AllChecks)
            && |SecurityIssues(mask, p)| <= 1
            && (|SecurityIssues(mask, p)| == 1 <==> |mask(p.task).detected| > 0)
  {
    PointsIsTableScore(Evaluate(p));
  }

  /** The score is a multiple of 20 up to 100, reliable only with the task check. */
  lemma PointsRange(o: Outcome)
    ensures Points(o) <= 100 && Points(o) % 20 == 0
    ensures Points(o) >= ReliableScore ==> o.task
  {
  }

  /** The score of the check table spelled out. */
  lemma ScoreUnfold(o: Outcome)
    ensures Score(o, AllChecks) ==
      (if o.role then 20 else 0) + (if o.context then 20 else 0)
      + (if o.task then 40 else 0) + (if o.constraints then 20 else 0)
  {
    var c1: seq<Check> := [RoleCheck];
    var c2 := c1 + [ContextCheck];
    var c3 := c2 + [TaskCheck];
    var c4 := c3 + [ConstraintsCheck];
    assert c1[..0] == [] && c2[..1] == c1 && c3[..2] == c2 && c4[..3] == c3;
    assert c4 == AllChecks;
    assert Score(o, c1) == (if o.role then 20 else 0);
    assert Score(o, c2) == Score(o, c1) + (if o.context then 20 else 0);
    assert Score(o, c3) == Score(o, c2) + (if o.task then 40 else 0);
    assert Score(o, c4) == Score(o, c3) + (if o.constraints then 20 else 0);
  }

  /** The issues of the check table spelled out. */
  lemma IssuesUnfold(o: Outcome)
    ensures FailedIssues(o, AllChecks) ==
      (if o.role then [] else ["Falta ROL."])
      + (if o.context then [] else ["Falta CONTEXTO."])
      + (if o.task then [] else ["TAREA débil."])
      + (if o.constraints then [] else ["Sin RESTRICCIONES."])
  {
    var c1: seq<Check> := [RoleCheck];
    var c2 := c1 + [ContextCheck];
    var c3 := c2 + [TaskCheck];
    var c4 := c3 + [ConstraintsCheck];
    assert c1[..0] == [] && c2[..1] == c1 && c3[..2] == c2 && c4[..3] == c3;
    assert c4 == AllChecks;
    assert FailedIssues(o, c1) == (if o.role then [] else ["Falta ROL."]);
    assert FailedIssues(o, c2) == FailedIssues(o, c1) + (if o.context then [] else ["Falta CONTEXTO."]);
    assert FailedIssues(o, c3) == FailedIssues(o, c2) + (if o.task then [] else ["TAREA débil."]);
    assert FailedIssues(o, c4) == FailedIssues(o, c3) + (if o.constraints then [] else ["Sin RESTRICCIONES."]);
  }

  /** A score is a multiple of 20 and at most the total weight of the checks. */
  lemma {:induction false} ScoreRange(o: Outcome, cs: seq<Check>)
    ensures Score(o, cs) <= TotalWeight(cs)
    ensures Score(o, cs) % 20 == 0
  {
    if |cs| > 0 {
      ScoreRange(o, cs[..|cs| - 1]);
    }
  }

  /** All four checks weigh 100 together. */
  lemma TotalWeightAll()
    ensures TotalWeight(AllChecks) == 100
  {
    var c1: seq<Check> := [RoleCheck];
    var c2 := c1 + [ContextCheck];
    var c3 := c2 + [TaskCheck];
    var c4 := c3 + [ConstraintsCheck];
    assert c1[..0] == [] && c2[..1] == c1 && c3[..2] == c2 && c4[..3] == c3;
    assert c4 == AllChecks;
    assert TotalWeight(c1) == 20 && TotalWeight(c2) == 40 && TotalWeight(c3) == 80;
  }

  /** A reliable score (at least 75) needs the task check: without its 40
      points at most 60 remain; and conversely passing it with two others is
      enough. */
  lemma ReliableNeedsTask(o: Outcome)
    ensures Score(o, AllChecks) >= ReliableScore ==> o.task
    ensures Score(o, AllChecks) >= ReliableScore <==>
      o.task && ((o.role && o.context) || (o.role && o.constraints) || (o.context && o.constraints))
  {
    ScoreUnfold(o);
  }

  /** Every check yields either its points or one issue. */
  lemma {:induction false} IssuesPerFailedCheck(o: Outcome, cs: seq<Check>)
    ensures |FailedIssues(o, cs)| + |PassedChecks(o, cs)| == |cs|
    ensures Score(o, cs) == 0 <==> |PassedChecks(o, cs)| == 0
  {
    if |cs| > 0 {
      IssuesPerFailedCheck(o, cs[..|cs| - 1]);
    }
  }

  /** A text that neither starts nor ends with white space keeps at least
      its length in bytes through TrimSpace. */
  lemma TrimmedLength(s: string)
    requires |s| > 0 && !IsSpace(s[0]) && !IsSpace(s[|s| - 1])
    ensures ByteLen(TrimSpace(s)) >= |s|
  {
    TrimSpaceUnchanged(s);
    ByteLenBounds(s);
  }

  /** The complete prompt of pkg/engine/compiler_test.go (lines 74-86) passes
      every check: score 100, reliable. */
  lemma AnalyzeIndustrialVector(mask: Masker, p: Prompt)
    requires p.role == "Cloud Architect"
    requires p.context == "Migración de " + "microservicios" + " a AWS"
    requires p.task == "Diseña un " + "diagrama de arquitectura para una aplicación bancaria que debe soportar"
                       + " 10k TPS con latencia menor a" + " 50ms."
    requires p.constraints == ["Usar AWS EKS", "Incluir esquema de seguridad IAM"]
    ensures AnalysisOf(mask, p).score == 100 && AnalysisOf(mask, p).isReliable
  {
    IndustrialRole(p.role);
    IndustrialContext(p.context);
    IndustrialTask(p.task);
    assert Evaluate(p) == Outcome(true, true, true, true);
  }

  lemma IndustrialRole(s: string)
    requires s == "Cloud Architect"
    ensures ByteLen(TrimSpace(s)) >= 5
  {
    assert s[0] == 'C' && s[|s| - 1] == 't';
    TrimmedLength(s);
  }

  lemma IndustrialContext(s: string)
    requires s == "Migración de " + "microservicios" + " a AWS"
    ensures ByteLen(TrimSpace(s)) >= 10
  {
    assert s[0] == 'M' && s[|s| - 1] == 'S';
    TrimmedLength(s);
  }

  lemma IndustrialTask(s: string)
    requires s == "Diseña un " + "diagrama de arquitectura para una aplicación bancaria que debe soportar"
                  + " 10k TPS con latencia menor a" + " 50ms."
    ensures ByteLen(TrimSpace(s)) >= 50
  {
    assert s[0] == 'D' && s[|s| - 1] == '.';
    TrimmedLength(s);
  }

  /** The weak prompt of pkg/engine/compiler_test.go (lines 65-71) fails every
      check: the code scores it 0, below the 20 that test expects, and finds
      it unreliable. */
  lemma AnalyzeWeakVector(mask: Masker, p: Prompt)
    requires p.role == "" && p.context == "" && p.task == "Haz un resumen." && p.constraints == []
    ensures AnalysisOf(mask, p).score == 0 && !AnalysisOf(mask, p).isReliable
    ensures AnalysisOf(mask, p).issues ==
      SecurityIssues(mask, p) + ["Falta ROL.", "Falta CONTEXTO.", "TAREA débil.", "Sin RESTRICCIONES."]
  {
    EmptyTrim(p.role);
    EmptyTrim(p.context);
    WeakTask(p.task);
    assert Evaluate(p) == Outcome(false, false, false, false);
    assert IssueList(Outcome(false, false, false, false))
           == ["Falta ROL.", "Falta CONTEXTO.", "TAREA débil.", "Sin RESTRICCIONES."];
  }

  lemma EmptyTrim(s: string)
    requires s == ""
    ensures ByteLen(TrimSpace(s)) == 0
  {
  }

  lemma WeakTask(s: string)
    requires s == "Haz un resumen."
    ensures ByteLen(TrimSpace(s)) == 15
  {
    assert s[0] == 'H' && s[|s| - 1] == '.';
    TrimSpaceUnchanged(s);
    assert forall i :: 0 <= i < |s| ==> s[i] as int < 0x80;
    AsciiByteLen(s);
  }

  /** An ASCII string's byte length is its length. */
  lemma {:induction false} AsciiByteLen(s: string)
    requires forall i :: 0 <= i < |s| ==> s[i] as int < 0x80
    ensures ByteLen(s) == |s|
  {
    if |s| > 0 {
      AsciiByteLen(s[1..]);
    }
  }
}

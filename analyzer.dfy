/** The anti-hallucination heuristics of internal/analyzer/analyzer.go:
    starting from 100 points, a vague role costs 20, the lack of any negative
    constraint 30 and a task without a strong Spanish action verb 15. */
module Analyzer {
  import opened GoStrings
  import opened CoreCompiler

  const VagueRoleIssue: string :=
    "Rol demasiado vago. Define expertise (ej: 'Senior Cloud Architect' vs 'Arquitecto')."
  const NoNegativeIssue: string :=
    "Faltan restricciones negativas. Sin límites, el LLM es propenso a alucinar."
  const UnclearTaskIssue: string :=
    "La tarea principal carece de verbos de acción fuertes en español (ej: 'Analiza', 'Genera', 'Valida')."

  /** The role must have at least this many bytes. */
  const MinRoleBytes: int := 10

  /** The strong verbs, in the order they are tried. */
  const StrongVerbs: seq<string> := ["Analiza", "Genera", "Escribe", "Valida", "Calcula", "Resume", "Traduce"]

  // ---------------------------------------------------------------------------
  // Constraint and verb detection
  // ---------------------------------------------------------------------------

  /** A constraint is negative when its lower-cased text contains "no",
      "evita" or "sin". */
  predicate IsNegative(c: string)
  {
    var low := ToLower(c);
    Contains(low, "no") || Contains(low, "evita") || Contains(low, "sin")
  }

  /** Some constraint of `cs` is negative. */
  function AnyNegative(cs: seq<string>): (b: bool)
    ensures b <==> exists i :: 0 <= i < |cs| && IsNegative(cs[i])
  {
    if |cs| == 0 then false
    else
      var b := AnyNegative(cs[..|cs| - 1]) || IsNegative(cs[|cs| - 1]);
      assert b ==> exists i :: 0 <= i < |cs| && IsNegative(cs[i]) by {
        if AnyNegative(cs[..|cs| - 1]) {
          var i :| 0 <= i < |cs| - 1 && IsNegative(cs[..|cs| - 1][i]);
          assert cs[i] == cs[..|cs| - 1][i];
        }
      }
      assert (exists i :: 0 <= i < |cs| && IsNegative(cs[i])) ==> b by {
        if exists i :: 0 <= i < |cs| && IsNegative(cs[i]) {
          var i :| 0 <= i < |cs| && IsNegative(cs[i]);
          if i < |cs| - 1 {
            assert cs[..|cs| - 1][i] == cs[i];
          }
        }
      }
      b
  }

  /** The verbs `verbs[i..]` tried in order against the task; the first one
      found answers true. */
  function ClarityFrom(task: string, verbs: seq<string>, i: nat): (b: bool)
    requires i <= |verbs|
    ensures b <==> exists j :: i <= j < |verbs| && Contains(ToLower(task), ToLower(verbs[j]))
    decreases |verbs| - i
  {
    if i == |verbs| then false
    else if Contains(ToLower(task), ToLower(verbs[i])) then true
    else ClarityFrom(task, verbs, i + 1)
  }

  /** detectSpanishClarity: some strong verb, lower-cased, is a substring of
      the lower-cased task. */
  function DetectSpanishClarity(task: string): (b: bool)
    ensures b <==> exists j :: 0 <= j < |StrongVerbs| && Contains(ToLower(task), ToLower(StrongVerbs[j]))
  {
    ClarityFrom(task, StrongVerbs, 0)
  }

  // ---------------------------------------------------------------------------
  // The analysis
  // ---------------------------------------------------------------------------

  /** The three deductions that may apply to a prompt. */
  datatype Deductions = Deductions(vagueRole: bool, noNegative: bool, unclearTask: bool)

  function DeductionsOf(p: PromptSource): Deductions
  {
    Deductions(ByteLen(p.role) < MinRoleBytes, !AnyNegative(p.constraints), !DetectSpanishClarity(p.task))
  }

  /** 100 minus the points of the deductions that apply. */
  function ScoreOf(d: Deductions): int
  {
    100 - (if d.vagueRole then 20 else 0) - (if d.noNegative then 30 else 0) - (if d.unclearTask then 15 else 0)
  }

  /** One issue per deduction, in the order role, constraints, task. */
  function IssuesOf(d: Deductions): seq<string>
  {
    (if d.vagueRole then [VagueRoleIssue] else [])
    + (if d.noNegative then [NoNegativeIssue] else [])
    + (if d.unclearTask then [UnclearTaskIssue] else [])
  }

  /** analyzer.Analyze: deducts step by step; the constraint loop raises a
      flag on the first negative constraint and never lowers it. */
  method Analyze(p: PromptSource) returns (score: int, issues: seq<string>)
    ensures score == ScoreOf(DeductionsOf(p)) && issues == IssuesOf(DeductionsOf(p))
    ensures ByteLen(p.role) < MinRoleBytes <==> VagueRoleIssue in issues
    ensures (forall i :: 0 <= i < |p.constraints| ==> !IsNegative(p.constraints[i])) <==> NoNegativeIssue in issues
    ensures !DetectSpanishClarity(p.task) <==> UnclearTaskIssue in issues
  {
    score := 100;
    issues := [];

    if ByteLen(p.role) < MinRoleBytes {
      score := score - 20;
      issues := issues + [VagueRoleIssue];
    }

    var hasNegativeConstraint := false;
    var i := 0;
    while i < |p.constraints|
      invariant 0 <= i <= |p.constraints|
      invariant hasNegativeConstraint == AnyNegative(p.constraints[..i])
    {
      assert p.constraints[..i + 1][..i] == p.constraints[..i];
      var lowC := ToLower(p.constraints[i]);
      if Contains(lowC, "no") || Contains(lowC, "evita") || Contains(lowC, "sin") {
        hasNegativeConstraint := true;
      }
      i := i + 1;
    }
    assert p.constraints[..i] == p.constraints;

    if !hasNegativeConstraint {
      score := score - 30;
      issues := issues + [NoNegativeIssue];
    }

    if !DetectSpanishClarity(p.task) {
      score := score - 15;
      issues := issues + [UnclearTaskIssue];
    }
    IssuesDistinct();
  }

  /** The three issue texts differ. */
  lemma IssuesDistinct()
    ensures VagueRoleIssue != NoNegativeIssue && VagueRoleIssue != UnclearTaskIssue
    ensures NoNegativeIssue != UnclearTaskIssue
  {
    assert |VagueRoleIssue| == 84 && |NoNegativeIssue| == 75 && |UnclearTaskIssue| == 101;
  }

  // ---------------------------------------------------------------------------
  // Properties
  // ---------------------------------------------------------------------------

  /** The score takes one of eight values, between 35 and 100. */
  lemma ScoreValues(d: Deductions)
    ensures ScoreOf(d) in {100, 85, 80, 70, 65, 55, 50, 35}
    ensures 35 <= ScoreOf(d) <= 100
  {
  }

  /** One issue per deduction; no issue exactly when the score is 100. */
  lemma IssuesCount(d: Deductions)
    ensures |IssuesOf(d)| == (if d.vagueRole then 1 else 0) + (if d.noNegative then 1 else 0)
                             + (if d.unclearTask then 1 else 0)
    ensures |IssuesOf(d)| == 0 <==> ScoreOf(d) == 100
  {
  }

  /** The deductions have distinct sums: the score alone tells which issues
      were reported. */
  lemma ScoreDeterminesIssues(d: Deductions, e: Deductions)
    requires ScoreOf(d) == ScoreOf(e)
    ensures d == e && IssuesOf(d) == IssuesOf(e)
  {
  }

  /** Without constraints there is no negative one: 30 points are always lost. */
  lemma NoConstraintsLose30(p: PromptSource)
    requires p.constraints == []
    ensures DeductionsOf(p).noNegative && ScoreOf(DeductionsOf(p)) <= 70
  {
  }

  /** The strong verbs as the lower-cased task is searched for them. */
  const LowerStrongVerbs: seq<string> := ["analiza", "genera", "escribe", "valida", "calcula", "resume", "traduce"]

  /** Lower-casing the strong verbs gives the lower-case verbs, one for one. */
  lemma StrongVerbsLower()
    ensures |LowerStrongVerbs| == |StrongVerbs|
    ensures forall j :: 0 <= j < |StrongVerbs| ==> ToLower(StrongVerbs[j]) == LowerStrongVerbs[j]
  {
    forall j | 0 <= j < |StrongVerbs|
      ensures ToLower(StrongVerbs[j]) == LowerStrongVerbs[j]
    {
      CapitalLower(StrongVerbs[j], LowerStrongVerbs[j]);
    }
  }

  /** A capitalised word of ASCII letters lower-cases to `w` when `w` differs
      from it only in its first letter, moved down to lower case. */
  lemma CapitalLower(v: string, w: string)
    requires |v| == |w| > 0 && 'A' <= v[0] <= 'Z' && w[0] as int == v[0] as int + 32
    requires v[1..] == w[1..] && forall i :: 1 <= i < |v| ==> 'a' <= v[i] <= 'z'
    ensures ToLower(v) == w
  {
    forall i | 0 <= i < |v|
      ensures ToLower(v)[i] == w[i]
    {
      if i > 0 {
        assert v[i] == v[1..][i - 1] == w[1..][i - 1] == w[i];
      }
    }
  }

  /** A task that starts with "Analiza" is clear, whatever follows. */
  lemma AnalizaIsClear(task: string)
    requires HasPrefix(task, "Analiza")
    ensures DetectSpanishClarity(task)
  {
    StrongVerbsLower();
    var low := ToLower(task);
    assert low[..7] == ToLower(task[..7]);
    assert ToLower(StrongVerbs[0]) == LowerStrongVerbs[0] == "analiza";
    assert OccursAt(low, ToLower(StrongVerbs[0]), 0);
  }

  /** A constraint that starts with "No " or "NO " is negative. */
  lemma LeadingNoIsNegative(c: string)
    requires |c| >= 2 && (c[0] == 'N' || c[0] == 'n') && (c[1] == 'O' || c[1] == 'o')
    ensures IsNegative(c)
  {
    var low := ToLower(c);
    assert low[..2] == "no";
    assert OccursAt(low, "no", 0);
  }
}

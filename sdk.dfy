/** The orchestrator of pkg/sdk/sdk.go: it analyses a prompt locally, hands a
    prompt that is not reliable to the configured optimizers one after the
    other, and falls back to the local compilation when none is configured or
    all of them fail. */
module Sdk {
  import opened Wrappers
  import opened GoStrings
  import opened Engine
  import opened Providers

  /** PromptC: the engine (represented by its masker) and the optimizers in
      the order they are tried. */
  datatype PromptC = PromptC(mask: Masker, optimizers: seq<Optimizer>)

  /** What calling Optimize on an optimizer returns, for the prompt and the
      issues handed to it: the network behind it is an oracle. */
  type OptimizeCall = (Optimizer, Prompt, seq<string>) -> Result<string>

  /** One delegation: the optimizer called, and the prompt and issues it got. */
  datatype Invocation = Invocation(optimizer: Optimizer, prompt: Prompt, issues: seq<string>)

  /** NewSDK: the Ollama node first when an address is configured, then
      Gemini when a key is configured and its construction succeeds. A failed
      Gemini construction is only logged: NewSDK never fails. The Gemini
      client library is a parameter, as in NewGeminiProvider. */
  method NewSDK(mask: Masker, geminiKey: string, remoteIP: string,
                clientError: Option<string>, listing: ModelListing)
    returns (s: PromptC)
    ensures s.mask == mask
    ensures var geminiUp := geminiKey != "" && clientError.None? && listing.failure.None?
                            && Candidates(listing.models) != {};
            |s.optimizers| == (if remoteIP != "" then 1 else 0) + (if geminiUp then 1 else 0)
    ensures remoteIP != "" ==> s.optimizers[0] == Ollama(NewOllamaProvider(remoteIP))
    ensures forall i :: 0 <= i < |s.optimizers| && s.optimizers[i].Ollama? ==> i == 0 && remoteIP != ""
    ensures var geminiUp := geminiKey != "" && clientError.None? && listing.failure.None?
                            && Candidates(listing.models) != {};
            var ranked := FirstRanked(Candidates(listing.models), 0);
            geminiUp ==>
              && |s.optimizers| > 0 && s.optimizers[|s.optimizers| - 1].Gemini?
              && (ranked.Some? ==> s.optimizers[|s.optimizers| - 1].gemini.activeModel == ranked.value)
    ensures forall i :: 0 <= i < |s.optimizers| && s.optimizers[i].Gemini? ==>
              i == |s.optimizers| - 1 && fresh(s.optimizers[i].gemini)
              && s.optimizers[i].gemini.activeModel in Candidates(listing.models)
    ensures geminiKey == "" && remoteIP == "" ==> s.optimizers == []
  {
    var optimizers: seq<Optimizer> := [];
    if remoteIP != "" {
      optimizers := optimizers + [Ollama(NewOllamaProvider(remoteIP))];
    }
    if geminiKey != "" {
      var g := NewGeminiProvider(clientError, listing);
      if g.Ok? {
        optimizers := optimizers + [Gemini(g.value)];
      }
    }
    s := PromptC(mask, optimizers);
  }

  /** The index of the first optimizer from `i` on whose call succeeds. */
  function FirstSuccess(opts: seq<Optimizer>, p: Prompt, issues: seq<string>,
                        optimize: OptimizeCall, i: nat): (k: Option<nat>)
    requires i <= |opts|
    ensures k.Some? ==> i <= k.value < |opts| && optimize(opts[k.value], p, issues).Ok?
                        && forall j :: i <= j < k.value ==> optimize(opts[j], p, issues).Err?
    ensures k.None? <==> forall j :: i <= j < |opts| ==> optimize(opts[j], p, issues).Err?
    decreases |opts| - i
  {
    if i == |opts| then None
    else if optimize(opts[i], p, issues).Ok? then Some(i)
    else FirstSuccess(opts, p, issues, optimize, i + 1)
  }

  /** The text CompileAndOptimize delivers for `p`. */
  function Optimized(s: PromptC, p: Prompt, order: seq<string>, optimize: OptimizeCall): string
    requires IsKeyOrder(order, p.variables)
  {
    var a := AnalysisOf(s.mask, p);
    if a.isReliable || |s.optimizers| == 0 then Compiled(s.mask, p, order)
    else
      match FirstSuccess(s.optimizers, p, a.issues, optimize, 0)
      case Some(k) => optimize(s.optimizers[k], p, a.issues).value
      case None => Compiled(s.mask, p, order)
  }

  /** PromptC.CompileAndOptimize, with the optimizer calls as an oracle.
      `trace` lists the delegations made, in order. A reliable prompt and a
      PromptC without optimizers are compiled locally without any call;
      otherwise the optimizers are tried in order, each with the original
      prompt and the analysis issues, up to the first that succeeds, whose
      text is returned verbatim; when all fail the local compilation is
      returned. No path fails. */
  method CompileAndOptimize(s: PromptC, p: Prompt, order: seq<string>, optimize: OptimizeCall)
    returns (r: string, trace: seq<Invocation>)
    requires IsKeyOrder(order, p.variables)
    ensures r == Optimized(s, p, order, optimize)
    ensures var a := AnalysisOf(s.mask, p);
            a.isReliable || |s.optimizers| == 0 ==> r == Compiled(s.mask, p, order) && trace == []
    ensures var a := AnalysisOf(s.mask, p);
            && |trace| <= |s.optimizers|
            && forall j :: 0 <= j < |trace| ==> trace[j] == Invocation(s.optimizers[j], p, a.issues)
    ensures var a := AnalysisOf(s.mask, p);
            var first := FirstSuccess(s.optimizers, p, a.issues, optimize, 0);
            !a.isReliable && |s.optimizers| > 0 ==>
              && (first.Some? ==> |trace| == first.value + 1
                                  && r == optimize(s.optimizers[first.value], p, a.issues).value)
              && (first.None? ==> |trace| == |s.optimizers| && r == Compiled(s.mask, p, order))
  {
    var analysis := Engine.Analyze(s.mask, p);
    if analysis.isReliable {
      r := Engine.Compile(s.mask, p, order);
      return r, [];
    }
    if |s.optimizers| == 0 {
      r := Engine.Compile(s.mask, p, order);
      return r, [];
    }
    ghost var first := FirstSuccess(s.optimizers, p, analysis.issues, optimize, 0);
    trace := [];
    var i := 0;
    while i < |s.optimizers|
      invariant 0 <= i <= |s.optimizers|
      invariant |trace| == i
      invariant forall j :: 0 <= j < i ==> trace[j] == Invocation(s.optimizers[j], p, analysis.issues)
      invariant first == FirstSuccess(s.optimizers, p, analysis.issues, optimize, i)
    {
      var opt := s.optimizers[i];
      var optimized := optimize(opt, p, analysis.issues);
      trace := trace + [Invocation(opt, p, analysis.issues)];
      if optimized.Ok? {
        return optimized.value, trace;
      }
      i := i + 1;
    }
    r := Engine.Compile(s.mask, p, order);
  }

  /** pkg/sdk/sdk_test.go:28-50: an SDK built without a key or an address
      has no optimizer, so CompileAndOptimize returns the local compilation,
      which begins with the ROLE block of the role, whatever the Gemini
      client and the optimizers would do. */
  method BypassVector(mask: Masker, p: Prompt, order: seq<string>, optimize: OptimizeCall,
                      clientError: Option<string>, listing: ModelListing)
    returns (result: string)
    requires IsKeyOrder(order, p.variables)
    requires p.role == "Arquitecto Cloud" && mask(p.role).text == p.role
    ensures result == Compiled(mask, p, order)
    ensures HasPrefix(result, "### ROLE\n" + "Arquitecto Cloud")
  {
    var app := NewSDK(mask, "", "", clientError, listing);
    var trace;
    result, trace := CompileAndOptimize(app, p, order, optimize);
    var b := Blocks(mask, p, order);
    JoinStartsWithFirst(b, "\n\n");
    assert b[0] == "### ROLE\n" + "Arquitecto Cloud";
  }
}

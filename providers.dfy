/** The optimizers of pkg/provider: the local Ollama node and the Gemini cloud
    provider, whose constructor picks a model from the listing the Gemini
    service returns. Sending prompts to either service is not modelled here:
    the routing layer treats each call as an oracle outcome. */
module Providers {
  import opened Wrappers
  import opened GoStrings

  // ---------------------------------------------------------------------------
  // Ollama (pkg/provider/ollama.go)
  // ---------------------------------------------------------------------------

  /** OllamaProvider's configuration; its HTTP client is not modelled. */
  datatype OllamaProvider = OllamaProvider(baseURL: string, model: string)

  const OllamaName: string := "Ollama Remote Node (Mac mini)"

  /** NewOllamaProvider: the generate endpoint on port 11434 of `ip`, model llama3. */
  function NewOllamaProvider(ip: string): (o: OllamaProvider)
    ensures HasPrefix(o.baseURL, "http://" + ip)
    ensures HasSuffix(o.baseURL, ":11434/api/generate")
    ensures |o.baseURL| == |ip| + 26
    ensures o.model == "llama3"
  {
    var head := "http://" + ip;
    var url := head + ":11434/api/generate";
    assert url[..|head|] == head;
    assert url[|url| - |":11434/api/generate"|..] == ":11434/api/generate";
    OllamaProvider(url, "llama3")
  }

  // ---------------------------------------------------------------------------
  // Gemini model discovery (pkg/provider/gemini.go)
  // ---------------------------------------------------------------------------

  /** One entry of the model listing: its resource name and its supported
      generation methods. */
  datatype ModelInfo = ModelInfo(name: string, methods: seq<string>)

  /** What the listing iterator produces: some models, then either the end of
      the listing (`failure == None`) or an error. */
  datatype ModelListing = ModelListing(models: seq<ModelInfo>, failure: Option<string>)

  const Ranking: seq<string> := ["gemini-1.5-flash", "gemini-1.5-pro", "gemini-1.0-pro"]

  const ErrNoStableModel: string := "no se encontraron modelos estables con cuota disponible"
  const ErrClientInit: string := "error al inicializar cliente genai: "

  /** The model name without its "models/" prefix. */
  function ShortName(m: ModelInfo): string
  {
    TrimPrefix(m.name, "models/")
  }

  /** A usable model supports generateContent and is not experimental. */
  predicate IsCandidate(m: ModelInfo)
  {
    "generateContent" in m.methods && !Contains(ShortName(m), "-exp")
  }

  /** The short names of the usable models of a listing. */
  function Candidates(models: seq<ModelInfo>): (c: set<string>)
    ensures forall n :: n in c <==> exists i :: 0 <= i < |models| && IsCandidate(models[i]) && ShortName(models[i]) == n
  {
    if |models| == 0 then {}
    else
      var init, m := models[..|models| - 1], models[|models| - 1];
      var c := Candidates(init) + (if IsCandidate(m) then {ShortName(m)} else {});
      assert forall i :: 0 <= i < |init| ==> init[i] == models[i];
      c
  }

  /** The highest-ranked name among the candidates, if any. */
  function FirstRanked(c: set<string>, i: nat): (r: Option<string>)
    requires i <= |Ranking|
    ensures r.Some? ==> r.value in c
    ensures r.Some? ==> exists j :: i <= j < |Ranking| && Ranking[j] == r.value
                                    && forall k :: i <= k < j ==> Ranking[k] !in c
    ensures r.None? <==> forall j :: i <= j < |Ranking| ==> Ranking[j] !in c
    decreases |Ranking| - i
  {
    if i == |Ranking| then None
    else if Ranking[i] in c then Some(Ranking[i])
    else FirstRanked(c, i + 1)
  }

  /** gemini.go:54-59: whether "generateContent" is among the methods; the
      scan stops at the first match. */
  method SupportsGenerate(methods: seq<string>) returns (b: bool)
    ensures b <==> "generateContent" in methods
  {
    b := false;
    var i := 0;
    while i < |methods|
      invariant 0 <= i <= |methods|
      invariant !b && "generateContent" !in methods[..i]
    {
      if methods[i] == "generateContent" {
        b := true;
        break;
      }
      assert methods[..i + 1] == methods[..i] + [methods[i]];
      i := i + 1;
    }
    assert !b ==> methods[..i] == methods;
  }

  /** GeminiProvider; its genai client is not modelled. */
  class GeminiProvider {
    var activeModel: string

    /** The provider as NewGeminiProvider allocates it, before discovery. */
    constructor ()
      ensures activeModel == ""
    {
      activeModel := "";
    }

    /** GeminiProvider.Name: the active model in parentheses, when there is one. */
    function Name(): (n: string)
      reads this
      ensures HasPrefix(n, "Google Gemini")
      ensures activeModel == "" <==> n == "Google Gemini"
      ensures activeModel != "" ==>
        && |n| == |activeModel| + 16
        && HasPrefix(n, "Google Gemini (") && HasSuffix(n, ")")
        && n[15..|n| - 1] == activeModel
    {
      if activeModel != "" then
        var head := "Google Gemini (";
        var n := head + activeModel + ")";
        assert n[..13] == "Google Gemini";
        assert n[..15] == head;
        assert n[|n| - 1..] == ")";
        assert n[15..|n| - 1] == activeModel;
        n
      else "Google Gemini"
    }

    /** discoverBestModel: scans the listing into the set of usable names,
        then takes the first ranked name present, else any usable name. An
        iterator error is returned at once and no model is chosen. Returns
        None for a nil error. */
    method DiscoverBestModel(listing: ModelListing) returns (err: Option<string>)
      modifies this
      ensures listing.failure.Some? ==> err == listing.failure && activeModel == old(activeModel)
      ensures listing.failure.None? ==>
        var c := Candidates(listing.models);
        && (FirstRanked(c, 0).Some? ==> err.None? && activeModel == FirstRanked(c, 0).value)
        && (FirstRanked(c, 0).None? && c != {} ==> err.None? && activeModel in c)
        && (c == {} ==> err == Some(ErrNoStableModel) && activeModel == old(activeModel))
    {
      var available: set<string> := {};
      var i := 0;
      while i < |listing.models|
        invariant 0 <= i <= |listing.models|
        invariant available == Candidates(listing.models[..i])
        invariant activeModel == old(activeModel)
      {
        var m := listing.models[i];
        assert listing.models[..i + 1][..i] == listing.models[..i];
        var name := TrimPrefix(m.name, "models/");
        var supportsGenerate := SupportsGenerate(m.methods);
        if supportsGenerate && !Contains(name, "-exp") {
          available := available + {name};
        }
        i := i + 1;
      }
      assert listing.models[..i] == listing.models;
      if listing.failure.Some? {
        return listing.failure;
      }

      var j := 0;
      while j < |Ranking|
        invariant 0 <= j <= |Ranking|
        invariant FirstRanked(available, 0) == FirstRanked(available, j)
      {
        if Ranking[j] in available {
          activeModel := Ranking[j];
          return None;
        }
        j := j + 1;
      }

      if available != {} {
        var name :| name in available;
        activeModel := name;
        return None;
      }
      return Some(ErrNoStableModel);
    }
  }

  /** NewGeminiProvider: a client error is wrapped; otherwise the provider
      exists exactly when discovery succeeds. The client library is a
      parameter: `clientError` is the error creating it returned, if any,
      and `listing` what its model listing yields. */
  method NewGeminiProvider(clientError: Option<string>, listing: ModelListing)
    returns (r: Result<GeminiProvider>)
    ensures clientError.Some? ==> r == Err(ErrClientInit + clientError.value)
    ensures clientError.None? && listing.failure.Some? ==> r == Err(listing.failure.value)
    ensures clientError.None? && listing.failure.None? ==>
      (r.Ok? <==> Candidates(listing.models) != {})
    ensures r.Ok? ==> fresh(r.value) && r.value.activeModel in Candidates(listing.models)
    ensures r.Ok? && FirstRanked(Candidates(listing.models), 0).Some? ==>
      r.value.activeModel == FirstRanked(Candidates(listing.models), 0).value
    ensures r.Err? && clientError.None? && listing.failure.None? ==> r == Err(ErrNoStableModel)
  {
    if clientError.Some? {
      return Err(ErrClientInit + clientError.value);
    }
    var provider := new GeminiProvider();
    var err := provider.DiscoverBestModel(listing);
    if err.Some? {
      return Err(err.value);
    }
    return Ok(provider);
  }

  /** The ranking decides among candidates: a listing offering flash and pro
      chooses flash; one without flash chooses pro over 1.0. */
  lemma RankingOrder(c: set<string>)
    ensures "gemini-1.5-flash" in c ==> FirstRanked(c, 0) == Some("gemini-1.5-flash")
    ensures "gemini-1.5-flash" !in c && "gemini-1.5-pro" in c ==> FirstRanked(c, 0) == Some("gemini-1.5-pro")
  {
  }

  /** An experimental model is never a candidate, even when it supports
      generateContent. */
  lemma ExperimentalExcluded(m: ModelInfo)
    requires Contains(ShortName(m), "-exp")
    ensures !IsCandidate(m)
  {
  }

  /** The "models/" prefix is stripped before the ranking is consulted:
      "models/gemini-1.5-pro" counts as gemini-1.5-pro. */
  lemma PrefixStripped(methods: seq<string>)
    requires "generateContent" in methods
    ensures "gemini-1.5-pro" in Candidates([ModelInfo("models/" + "gemini-1.5-pro", methods)])
  {
    var m := ModelInfo("models/" + "gemini-1.5-pro", methods);
    assert m.name[..7] == "models/";
    assert ShortName(m) == "gemini-1.5-pro";
    var s := "gemini-1.5-pro";
    assert !Contains(s, "-exp") by {
      forall i: int
        ensures !OccursAt(s, "-exp", i)
      {
        if 0 <= i && i + 4 <= |s| {
          assert s[i..i + 4][0] == s[i] && s[i..i + 4][1] == s[i + 1];
          assert s[i] != '-' || s[i + 1] != 'e';
        }
      }
    }
  }

  /** The optimizers a PromptC can hold (core.Optimizer, pkg/core/provider.go:6-9). */
  datatype Optimizer = Ollama(ollama: OllamaProvider) | Gemini(gemini: GeminiProvider)
}

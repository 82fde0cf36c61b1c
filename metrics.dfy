/** The inference metrics of cmd/promptc/main.go as values: the in-memory
    counters, the snapshot persisted to metrics.json and the operations on
    them. Go's int64 counters are unbounded integers here. */
module Metrics {
  import opened Wrappers

  /** The counters of the Metrics record. */
  datatype Counters = Counters(
    inferenceCount: int,
    inferenceSuccess: int,
    inferenceFail: int,
    totalLatencyMs: int,
    totalTokens: int,
    geminiCallCount: int,
    templateCalls: map<string, int>)

  /** MetricsSnapshot as decoded from metrics.json: a missing or null
      template_calls decodes to a nil map, here None. SavedAt is not modelled. */
  datatype MetricsSnapshot = MetricsSnapshot(
    inferenceCount: int,
    inferenceSuccess: int,
    inferenceFail: int,
    totalLatencyMs: int,
    totalTokens: int,
    geminiCallCount: int,
    templateCalls: Option<map<string, int>>)

  /** What reading metrics.json gives: no file, a file that does not decode, or
      a decoded snapshot. */
  datatype StoredMetrics = NoFile | Unparsable | Parsed(snapshot: MetricsSnapshot)

  /** The counters before anything is loaded or recorded. */
  const Fresh: Counters := Counters(0, 0, 0, 0, 0, 0, map[])

  /** Every inference is either a success or a failure. */
  predicate Balanced(c: Counters)
  {
    c.inferenceSuccess + c.inferenceFail == c.inferenceCount
  }

  /** recordInference: one more inference, of the given outcome, latency and
      token estimate; one more Gemini call when Gemini served it. */
  function Recorded(c: Counters, success: bool, latencyMs: int, tokens: int, usedGemini: bool): Counters
  {
    c.(inferenceCount := c.inferenceCount + 1,
       totalLatencyMs := c.totalLatencyMs + latencyMs,
       totalTokens := c.totalTokens + tokens,
       inferenceSuccess := c.inferenceSuccess + (if success then 1 else 0),
       inferenceFail := c.inferenceFail + (if success then 0 else 1),
       geminiCallCount := c.geminiCallCount + (if usedGemini then 1 else 0))
  }

  /** recordInference triggers a save when the new count is a multiple of 10. */
  predicate SaveDue(c: Counters)
  {
    c.inferenceCount % 10 == 0
  }

  /** recordTemplatCall: the count of `name` goes up by one, an absent name
      counting as zero. */
  function TemplateCallRecorded(calls: map<string, int>, name: string): (r: map<string, int>)
    ensures r.Keys == calls.Keys + {name}
    ensures r[name] == (if name in calls then calls[name] else 0) + 1
    ensures forall k :: k in calls && k != name ==> r[k] == calls[k]
  {
    calls[name := (if name in calls then calls[name] else 0) + 1]
  }

  /** saveMetrics: the snapshot written for the counters; the template map
      is copied, so it is never nil. */
  function SnapshotOf(c: Counters): MetricsSnapshot
  {
    MetricsSnapshot(c.inferenceCount, c.inferenceSuccess, c.inferenceFail, c.totalLatencyMs,
                    c.totalTokens, c.geminiCallCount, Some(c.templateCalls))
  }

  /** loadMetrics: the counters after reading `stored` over `c`. */
  function Restored(c: Counters, stored: StoredMetrics): Counters
  {
    match stored
    case NoFile => c
    case Unparsable => c
    case Parsed(s) =>
      Counters(s.inferenceCount, s.inferenceSuccess, s.inferenceFail, s.totalLatencyMs,
               s.totalTokens, s.geminiCallCount,
               if s.templateCalls.Some? then s.templateCalls.value else c.templateCalls)
  }

  // ---------------------------------------------------------------------------
  // Properties
  // ---------------------------------------------------------------------------

  /** One inference adds one to the count and to exactly one of success and
      failure, so the balance success + failure - count is kept; the Gemini
      count goes up exactly when Gemini served it; the template counts stay. */
  lemma RecordedCounts(c: Counters, success: bool, latencyMs: int, tokens: int, usedGemini: bool)
    ensures var r := Recorded(c, success, latencyMs, tokens, usedGemini);
            && r.inferenceCount == c.inferenceCount + 1
            && (success <==> r.inferenceSuccess == c.inferenceSuccess + 1)
            && (!success <==> r.inferenceFail == c.inferenceFail + 1)
            && r.inferenceSuccess + r.inferenceFail - r.inferenceCount
               == c.inferenceSuccess + c.inferenceFail - c.inferenceCount
            && (Balanced(c) ==> Balanced(r))
            && (usedGemini <==> r.geminiCallCount == c.geminiCallCount + 1)
            && r.totalLatencyMs == c.totalLatencyMs + latencyMs
            && r.totalTokens == c.totalTokens + tokens
            && r.templateCalls == c.templateCalls
  {
  }

  /** Counting up from a multiple of ten, the tenth inference is the first
      that triggers a save. */
  lemma {:induction false} SavesEveryTenth(c: Counters, outcomes: seq<bool>)
    requires c.inferenceCount % 10 == 0 && |outcomes| <= 10
    ensures var r := RecordAll(c, outcomes);
            && r.inferenceCount == c.inferenceCount + |outcomes|
            && (SaveDue(r) <==> |outcomes| == 0 || |outcomes| == 10)
    decreases |outcomes|
  {
    if |outcomes| > 0 {
      SavesEveryTenth(c, outcomes[..|outcomes| - 1]);
    }
  }

  /** Records one Gemini-free inference of no latency and no tokens per flag,
      in order; an inference is a success iff its flag is true. */
  function RecordAll(c: Counters, outcomes: seq<bool>): Counters
  {
    if |outcomes| == 0 then c
    else Recorded(RecordAll(c, outcomes[..|outcomes| - 1]), outcomes[|outcomes| - 1], 0, 0, false)
  }

  /** Save then load gives back every counter and every template count,
      whatever the counters held before the load. */
  lemma SaveLoadRoundTrip(saved: Counters, before: Counters)
    ensures Restored(before, Parsed(SnapshotOf(saved))) == saved
  {
  }

  /** A missing or undecodable file leaves the counters untouched; a snapshot
      without template counts keeps the template counts in memory. */
  lemma LoadKeepsWhatIsMissing(c: Counters, stored: StoredMetrics)
    ensures !stored.Parsed? ==> Restored(c, stored) == c
    ensures stored.Parsed? && stored.snapshot.templateCalls.None? ==>
              Restored(c, stored).templateCalls == c.templateCalls
    ensures stored.Parsed? ==> Restored(c, stored).inferenceCount == stored.snapshot.inferenceCount
  {
  }
}

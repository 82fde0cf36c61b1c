/** The audit lines of cmd/promptc/main.go: each event is rendered as one
    column-aligned text line. The clock reading ("15:04:05.000") is a
    parameter `stamp`; the JSON copy written to the audit file is not
    modelled. */
module Audit {
  import opened GoStrings

  /** AuditEvent without its timestamp; `kind` is the event's Type. */
  datatype AuditEvent = AuditEvent(
    kind: string,
    action: string,
    actor: string,
    resource: string,
    result: string,
    latencyMs: int,
    detail: string)

  /** `[stamp] TYPE ACTION actor=ACTOR`, each field padded to its column. */
  function Head(stamp: string, e: AuditEvent): string
  {
    "[" + stamp + "] " + PadRight(e.kind, 10) + " " + PadRight(e.action, 18) + " actor=" + PadRight(e.actor, 16)
  }

  /** The optional resource column. */
  function ResourcePart(e: AuditEvent): string
  {
    if e.resource != "" then " resource=" + PadRight(e.resource, 28) else ""
  }

  /** The optional latency, only for a positive latency. */
  function LatencyPart(e: AuditEvent): string
  {
    if e.latencyMs > 0 then " latency=" + Itoa(e.latencyMs) + "ms" else ""
  }

  /** The optional detail after a bar. */
  function DetailPart(e: AuditEvent): string
  {
    if e.detail != "" then " | " + e.detail else ""
  }

  /** The result column, always present. */
  function ResultPart(e: AuditEvent): string
  {
    " result=" + e.result
  }

  /** The line auditLog builds for `e` at clock reading `stamp`. */
  function AuditLine(stamp: string, e: AuditEvent): string
  {
    Head(stamp, e) + ResourcePart(e) + ResultPart(e) + LatencyPart(e) + DetailPart(e)
  }

  /** Where the five parts of `a + b + c + d + f` sit. */
  lemma Layout(a: string, b: string, c: string, d: string, f: string)
    ensures var s := a + b + c + d + f;
            && HasPrefix(s, a) && OccursAt(s, b, |a|) && OccursAt(s, c, |a| + |b|)
            && HasSuffix(s, f) && (f == "" ==> HasSuffix(s, d)) && (d == "" && f == "" ==> HasSuffix(s, c))
  {
    var s := a + b + c + d + f;
    assert s[..|a|] == a;
    assert s[|a|..|a| + |b|] == b;
    assert s[|a| + |b|..|a| + |b| + |c|] == c;
    assert s[|s| - |f|..] == f;
    assert f == "" ==> s[|s| - |d|..] == d;
    assert d == "" && f == "" ==> s[|s| - |c|..] == c;
  }

  /** The start of an audit line: the padded head, then the resource
      column exactly when there is a resource, else the result at once. */
  lemma AuditLineStart(stamp: string, e: AuditEvent)
    ensures var line, head := AuditLine(stamp, e), Head(stamp, e);
            && HasPrefix(line, head)
            && (e.resource != "" ==> OccursAt(line, " resource=" + PadRight(e.resource, 28), |head|))
            && (e.resource == "" ==> OccursAt(line, " result=" + e.result, |head|))
  {
    Layout(Head(stamp, e), ResourcePart(e), ResultPart(e), LatencyPart(e), DetailPart(e));
  }

  /** The end of an audit line: the detail when there is one, else the
      latency when it is positive, else the result. */
  lemma AuditLineEnd(stamp: string, e: AuditEvent)
    ensures var line := AuditLine(stamp, e);
            && (e.detail != "" ==> HasSuffix(line, " | " + e.detail))
            && (e.detail == "" && e.latencyMs > 0 ==> HasSuffix(line, " latency=" + Itoa(e.latencyMs) + "ms"))
            && (e.detail == "" && e.latencyMs <= 0 ==> HasSuffix(line, " result=" + e.result))
  {
    Layout(Head(stamp, e), ResourcePart(e), ResultPart(e), LatencyPart(e), DetailPart(e));
  }

  /** The fixed columns of a head whose fields have their padded widths. */
  lemma HeadColumns(stamp: string, k: string, a: string, r: string)
    requires |k| == 10 && |a| == 18 && |r| == 16
    ensures var h, s := "[" + stamp + "] " + k + " " + a + " actor=" + r, |stamp|;
            && |h| == s + 55
            && h[s + 3..s + 13] == k && h[s + 14..s + 32] == a && h[s + 39..s + 55] == r
  {
  }

  /** A field occurs where the line has its padded version. */
  lemma FieldAt(line: string, head: string, field: string, padded: string, i: nat)
    requires HasPrefix(line, head) && HasPrefix(padded, field)
    requires i + |padded| <= |head| && head[i..i + |padded|] == padded
    ensures OccursAt(line, field, i)
  {
    forall j | 0 <= j < |field|
      ensures line[i + j] == field[j]
    {
      assert line[i + j] == line[..|head|][i + j] == head[i + j];
      assert head[i + j] == head[i..i + |padded|][j] == padded[j] == padded[..|field|][j];
    }
    assert line[i..i + |field|] == field;
  }

  /** The columns line up: when type, action and actor fit their widths,
      the type starts 3 characters after the clock reading, the action 14,
      the actor 39, and the head is 55 characters longer than the reading. */
  lemma AuditColumns(stamp: string, e: AuditEvent)
    requires |e.kind| <= 10 && |e.action| <= 18 && |e.actor| <= 16
    ensures var line, s := AuditLine(stamp, e), |stamp|;
            && |Head(stamp, e)| == s + 55
            && OccursAt(line, e.kind, s + 3)
            && OccursAt(line, e.action, s + 14)
            && OccursAt(line, e.actor, s + 39)
  {
    var s := |stamp|;
    var k, a, r := PadRight(e.kind, 10), PadRight(e.action, 18), PadRight(e.actor, 16);
    var head, line := Head(stamp, e), AuditLine(stamp, e);
    HeadColumns(stamp, k, a, r);
    AuditLineStart(stamp, e);
    FieldAt(line, head, e.kind, k, s + 3);
    FieldAt(line, head, e.action, a, s + 14);
    FieldAt(line, head, e.actor, r, s + 39);
  }

  /** The line addLog builds for an internal message. */
  function AddLogLine(stamp: string, msg: string): string
  {
    "[" + stamp + "] SYSTEM     " + PadRight("INTERNAL", 18) + " actor=promptc-engine    result=INFO | " + msg
  }

  /** The event an internal message stands for. */
  function InternalEvent(msg: string): AuditEvent
  {
    AuditEvent("SYSTEM", "INTERNAL", "promptc-engine", "", "INFO", 0, msg)
  }

  /** The head of an internal event, with its padding written out. */
  lemma InternalHead(stamp: string, msg: string)
    ensures Head(stamp, InternalEvent(msg))
            == "[" + stamp + "] " + "SYSTEM    " + " " + PadRight("INTERNAL", 18) + " actor=" + "promptc-engine  "
  {
    assert PadRight("SYSTEM", 10) == "SYSTEM    ";
    assert PadRight("promptc-engine", 16) == "promptc-engine  ";
  }

  /** addLog's format with its literal pieces split at auditLog's columns,
      whatever the padded action. */
  lemma AddLogPieces(stamp: string, pad: string, msg: string)
    ensures "[" + stamp + "] SYSTEM     " + pad + " actor=promptc-engine    result=INFO | " + msg
            == "[" + stamp + "] " + "SYSTEM    " + " " + pad + " actor=" + "promptc-engine  " + " " + " result=" + "INFO" + (" | " + msg)
  {
    assert "] SYSTEM     " == "] " + "SYSTEM    " + " ";
    assert " actor=promptc-engine    result=INFO | " == " actor=" + "promptc-engine  " + " " + " result=" + "INFO" + " | ";
    Regroup("[" + stamp, "] ", "SYSTEM    ", " ", pad, " actor=", "promptc-engine  ", " ", " result=", "INFO", " | ", msg);
  }

  /** Re-association of a concatenation with two groups of pieces. */
  lemma Regroup(p: string, a: string, b: string, c: string, x: string,
                d: string, f: string, s: string, r: string, v: string, bar: string, m: string)
    ensures p + (a + b + c) + x + (d + f + s + r + v + bar) + m == p + a + b + c + x + d + f + s + r + v + (bar + m)
  {
  }

  /** An internal event has neither resource nor latency. */
  lemma InternalLine(stamp: string, msg: string)
    requires msg != ""
    ensures var e := InternalEvent(msg);
            AuditLine(stamp, e) == Head(stamp, e) + ResultPart(e) + DetailPart(e)
  {
    var e := InternalEvent(msg);
    assert ResourcePart(e) == "" && LatencyPart(e) == "";
  }

  /** An addLog line is the audit line of the same internal event with one
      extra space before ` result=`: its result column sits one place to the
      right of auditLog's. */
  lemma AddLogShiftsResult(stamp: string, msg: string)
    requires msg != ""
    ensures var e := InternalEvent(msg);
            && AuditLine(stamp, e) == Head(stamp, e) + ResultPart(e) + DetailPart(e)
            && AddLogLine(stamp, msg) == Head(stamp, e) + " " + ResultPart(e) + DetailPart(e)
  {
    InternalLine(stamp, msg);
    InternalHead(stamp, msg);
    AddLogPieces(stamp, PadRight("INTERNAL", 18), msg);
  }
}

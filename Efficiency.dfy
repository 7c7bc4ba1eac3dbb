/** `EfficiencyAnalyzer` of phoenix_analyzer.py without the OpenAI call: when an
    analysis runs at all, and the per-call rows of the prompt it would send
    (variant label, token counts, duration, 200-character previews), plus the
    cost formula applied to the reported usage. */
module Efficiency {
  import opened SpanModel
  import opened SpanAnalyzer
  import opened TimeGrouping
  import opened GroupAggregates

  /** The preview length of the prompt rows. */
  const PreviewLength: nat := 200

  /** The dollar price per token used for the cost line. */
  const CostPerToken: real := 0.000002

  /** `chr(64 + k)`, as a code point: 'A' for the first call. */
  function VariantCode(k: nat): int {
    64 + k
  }

  /** The first 26 calls are labelled 'A' to 'Z', one letter each, in order. */
  lemma VariantLetters(k: nat, k': nat)
    requires 1 <= k <= 26
    ensures 'A' as int <= VariantCode(k) <= 'Z' as int
    ensures VariantCode(k) == VariantCode(k') <==> k == k'
  {
  }

  /** `str(v)`: a string is itself; how other values print is a parameter. */
  function StrOf(v: Value, render: Value -> string): string {
    if v.VStr? then v.s else render(v)
  }

  /** `str(data)[:200] if data != 'N/A' else 'N/A'`. */
  function Preview(f: Field<Value>, render: Value -> string): (p: string)
    ensures IsNA(f) ==> p == Sentinel
    ensures !IsNA(f) ==> |p| <= PreviewLength && p <= StrOf(f.v, render)
    ensures !IsNA(f) && |StrOf(f.v, render)| <= PreviewLength ==> p == StrOf(f.v, render)
    ensures !IsNA(f) && |StrOf(f.v, render)| > PreviewLength ==> |p| == PreviewLength
  {
    if IsNA(f) then Sentinel
    else
      var s := StrOf(f.v, render);
      if |s| <= PreviewLength then s else s[..PreviewLength]
  }

  /** One entry of `analysis_data`; the label is "Variant " followed by the
      code point `variantCode`. */
  datatype VariantRow = VariantRow(
    variantCode: int,
    model: Field<Value>,
    promptTokens: Field<Value>,
    completionTokens: Field<Value>,
    totalTokens: Field<Value>,
    durationUs: Field<int>,
    inputPreview: string,
    outputPreview: string)

  /** The row of the k-th call (1-based). */
  function VariantRowOf(k: nat, d: CallDetails, render: Value -> string): VariantRow {
    VariantRow(VariantCode(k), d.model, d.promptTokens, d.completionTokens, d.totalTokens,
               d.durationUs, Preview(d.inputData, render), Preview(d.outputData, render))
  }

  /** The rows of a group, in bucket order. */
  function VariantRowsOf(g: Group, render: Value -> string): (rows: seq<VariantRow>)
    ensures |rows| == |g.entries|
  {
    seq(|g.entries|, k requires 0 <= k < |g.entries| => VariantRowOf(k + 1, Normalize(g.entries[k].span), render))
  }

  /** Each row carries its call's normalised fields; the labels run A, B, C, ...
      and the previews stay within 200 characters ('N/A' has three). */
  lemma VariantRowsFacts(g: Group, render: Value -> string)
    ensures var rows := VariantRowsOf(g, render);
            forall k :: 0 <= k < |rows| ==>
              rows[k].variantCode == 'A' as int + k &&
              rows[k].model == Normalize(g.entries[k].span).model &&
              rows[k].totalTokens == Normalize(g.entries[k].span).totalTokens &&
              rows[k].durationUs == Normalize(g.entries[k].span).durationUs &&
              |rows[k].inputPreview| <= PreviewLength && |rows[k].outputPreview| <= PreviewLength
  {
  }

  /** The loop building `analysis_data` for one group. */
  method AnalyzeSingleGroup(g: Group, render: Value -> string) returns (rows: seq<VariantRow>)
    ensures |rows| == |g.entries|
    ensures forall k :: 0 <= k < |rows| ==>
              rows[k] == VariantRowOf(k + 1, Normalize(g.entries[k].span), render)
  {
    rows := [];
    var k := 0;
    while k < |g.entries|
      invariant 0 <= k <= |g.entries|
      invariant |rows| == k
      invariant forall j :: 0 <= j < k ==> rows[j] == VariantRowOf(j + 1, Normalize(g.entries[j].span), render)
    {
      var details := Normalize(g.entries[k].span);
      var callNum := k + 1;
      var row := VariantRow(VariantCode(callNum), details.model, details.promptTokens,
                            details.completionTokens, details.totalTokens, details.durationUs,
                            Preview(details.inputData, render), Preview(details.outputData, render));
      rows := rows + [row];
      k := k + 1;
    }
  }

  // ---------------------------------------------------------------------------
  // Gating of the analysis

  /** `str.lower()`, restricted to ASCII letters. */
  function LowerString(s: string): (r: string)
    ensures |r| == |s|
  {
    if |s| == 0 then [] else [LowerAscii(s[0])] + LowerString(s[1..])
  }

  /** `input(...).lower().strip()`. */
  function NormalizeReply(reply: string): string {
    Strip(LowerString(reply))
  }

  /** The reply is accepted when it reads "y" or "yes". */
  predicate Approves(reply: string) {
    NormalizeReply(reply) in ["y", "yes"]
  }

  /** Case and surrounding whitespace do not matter. */
  lemma ApprovesPaddedUpperCase()
    ensures Approves(" YES\n")
  {
    var low := LowerString(" YES\n");
    assert low == " yes\n";
    assert StripLeft(low) == "yes\n" by {
      assert low[1..] == "yes\n";
    }
    assert StripRight("yes\n") == "yes" by {
      assert "yes\n"[..3] == "yes";
    }
  }

  /** Lower-casing leaves a string without upper-case ASCII letters alone. */
  lemma {:induction false} LowerStringKeepsLowerCase(s: string)
    requires forall i :: 0 <= i < |s| ==> !('A' <= s[i] <= 'Z')
    ensures LowerString(s) == s
  {
    if |s| > 0 {
      LowerStringKeepsLowerCase(s[1..]);
    }
  }

  /** A reply in lower case, padded with any whitespace, is compared without
      its padding. */
  lemma NormalizeReplyDropsPadding(w1: string, s: string, w2: string)
    requires AllSpace(w1) && AllSpace(w2)
    requires forall i :: 0 <= i < |s| ==> !('A' <= s[i] <= 'Z')
    requires |s| > 0 ==> !IsSpace(s[0]) && !IsSpace(s[|s| - 1])
    ensures NormalizeReply(w1 + s + w2) == s
  {
    var r := w1 + s + w2;
    forall i | 0 <= i < |r| ensures !('A' <= r[i] <= 'Z') {
      if i < |w1| {
        assert r[i] == w1[i];
      } else if i < |w1| + |s| {
        assert r[i] == s[i - |w1|];
      } else {
        assert r[i] == w2[i - |w1| - |s|];
      }
    }
    LowerStringKeepsLowerCase(r);
    StripRemovesPadding(w1, s, w2);
  }

  /** A reply already in lower case and without surrounding whitespace is
      compared as typed. */
  lemma NormalizeReplyKeepsCleanReply(s: string)
    requires forall i :: 0 <= i < |s| ==> !('A' <= s[i] <= 'Z')
    requires |s| > 0 ==> !IsSpace(s[0]) && !IsSpace(s[|s| - 1])
    ensures NormalizeReply(s) == s
  {
    NormalizeReplyDropsPadding("", s, "");
    assert "" + s + "" == s;
  }

  /** "y" and "yes" are accepted with any whitespace around them, Unicode
      spaces such as NO-BREAK SPACE included. */
  lemma ApprovesPaddedYes(w1: string, w2: string)
    requires AllSpace(w1) && AllSpace(w2)
    ensures Approves(w1 + "yes" + w2) && Approves(w1 + "y" + w2)
  {
    NormalizeReplyDropsPadding(w1, "yes", w2);
    NormalizeReplyDropsPadding(w1, "y", w2);
  }

  /** The reply "yes" followed by a NO-BREAK SPACE or an information separator. */
  lemma ApprovesUnicodePadding()
    ensures Approves("yes\U{00A0}") && Approves("yes\U{001C}")
  {
    ApprovesPaddedYes("", "\U{00A0}");
    assert "" + "yes" + "\U{00A0}" == "yes\U{00A0}";
    ApprovesPaddedYes("", "\U{001C}");
    assert "" + "yes" + "\U{001C}" == "yes\U{001C}";
  }

  /** Any other reply declines, including an empty one. */
  lemma DeclinesOtherReplies()
    ensures !Approves("no") && !Approves("") && !Approves("y e s")
  {
    NormalizeReplyKeepsCleanReply("no");
    NormalizeReplyKeepsCleanReply("");
    NormalizeReplyKeepsCleanReply("y e s");
  }

  /** The prompt rows sent for one group. */
  datatype PromptBatch = PromptBatch(groupNum: nat, startTime: Timestamp, rows: seq<VariantRow>)

  datatype AnalysisOutcome = NoClient | NoGroups | Declined | Analysed(batches: seq<PromptBatch>)

  /** `analyze_grouped_calls`: no client, no groups, or a declined prompt stop
      it; otherwise every group is analysed, numbered from 1. `reply` is what
      the user types when asked. */
  method AnalyzeGroupedCalls(hasClient: bool, groups: seq<Group>, askPermission: bool,
                             reply: string, render: Value -> string)
    returns (outcome: AnalysisOutcome)
    ensures !hasClient ==> outcome == NoClient
    ensures hasClient && |groups| == 0 ==> outcome == NoGroups
    ensures hasClient && |groups| > 0 && askPermission && !Approves(reply) ==> outcome == Declined
    ensures outcome.Analysed? <==> hasClient && |groups| > 0 && (!askPermission || Approves(reply))
    ensures outcome.Analysed? ==>
              |outcome.batches| == |groups| &&
              forall i :: 0 <= i < |groups| ==>
                outcome.batches[i] == PromptBatch(i + 1, groups[i].key, VariantRowsOf(groups[i], render))
  {
    if !hasClient {
      return NoClient;
    }
    if |groups| == 0 {
      return NoGroups;
    }
    if askPermission && !Approves(reply) {
      return Declined;
    }
    var batches: seq<PromptBatch> := [];
    var i := 0;
    while i < |groups|
      invariant 0 <= i <= |groups|
      invariant |batches| == i
      invariant forall j :: 0 <= j < i ==>
                  batches[j] == PromptBatch(j + 1, groups[j].key, VariantRowsOf(groups[j], render))
    {
      var rows := AnalyzeSingleGroup(groups[i], render);
      assert rows == VariantRowsOf(groups[i], render);
      batches := batches + [PromptBatch(i + 1, groups[i].key, rows)];
      i := i + 1;
    }
    return Analysed(batches);
  }

  /** `response.usage.total_tokens * 0.000002`. */
  function AnalysisCost(totalTokens: int): real {
    totalTokens as real * CostPerToken
  }

  /** The cost is linear in the reported usage: half a million tokens cost one dollar. */
  lemma AnalysisCostLinear(a: int, b: int)
    ensures AnalysisCost(a + b) == AnalysisCost(a) + AnalysisCost(b)
    ensures AnalysisCost(500000) == 1.0 && AnalysisCost(0) == 0.0
  {
  }
}

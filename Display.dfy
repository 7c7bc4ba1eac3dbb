/** The figures `DisplayManager.display_grouped_calls` and
    `_display_single_group` of phoenix_analyzer.py compute for each group; the
    printing itself is not modelled. */
module Display {
  import opened SpanModel
  import opened SpanAnalyzer
  import opened TimeGrouping
  import opened GroupAggregates

  /** The summary lines of one group: its 1-based number, its key, the call
      count, the combined tokens and, when that is positive, the average. */
  datatype GroupDisplay = GroupDisplay(
    groupNum: nat,
    startTime: Timestamp,
    calls: nat,
    combinedTokens: int,
    averageTokens: Option<real>)

  /** `try: if total_tokens != 'N/A': total += int(total_tokens)`, with the
      exception swallowed. */
  method AddTokens(d: CallDetails, total: int) returns (total': int)
    ensures total' == total + TokensAdded(d)
    ensures IsNA(d.totalTokens) || PyInt(d.totalTokens.v).None? ==> total' == total
  {
    total' := total;
    if !IsNA(d.totalTokens) {
      match PyInt(d.totalTokens.v) {
        case Some(n) => total' := total + n;
        case None =>
      }
    }
  }

  /** The loop accumulating `total_tokens_group`: a call adds `int(total_tokens)`
      unless its tokens are 'N/A' or the conversion raises, which skips only
      that call. The average is shown only for a positive total. */
  method DisplaySingleGroup(g: Group) returns (total: int, average: Option<real>)
    ensures total == GroupTokens(CallsOf(g))
    ensures average.Some? <==> total > 0
    ensures average.Some? ==> |g.entries| > 0 && average.value * |g.entries| as real == total as real
  {
    var cs := CallsOf(g);
    total := 0;
    var j := 0;
    while j < |g.entries|
      invariant 0 <= j <= |g.entries|
      invariant total == GroupTokens(cs[..j])
    {
      var details := cs[j];
      total := AddTokens(details, total);
      TotalsStep(cs, j);
      j := j + 1;
    }
    assert cs[..|cs|] == cs;
    if total > 0 {
      average := Some(total as real / |g.entries| as real);
      MeanTimesCount(total as real, |g.entries| as real);
    } else {
      average := None;
    }
  }

  /** Dividing by the call count and multiplying back gives the total. */
  lemma MeanTimesCount(total: real, count: real)
    requires count != 0.0
    ensures (total / count) * count == total
  {
  }

  /** Nothing for no groups; otherwise one summary per group, numbered from 1
      in dictionary order. */
  method DisplayGroupedCalls(groups: seq<Group>) returns (shown: seq<GroupDisplay>)
    ensures |shown| == |groups|
    ensures forall i :: 0 <= i < |groups| ==>
              shown[i].groupNum == i + 1 && shown[i].startTime == groups[i].key &&
              shown[i].calls == |groups[i].entries| &&
              shown[i].combinedTokens == GroupTokens(CallsOf(groups[i])) &&
              (shown[i].averageTokens.Some? <==> shown[i].combinedTokens > 0)
  {
    shown := [];
    if |groups| == 0 {
      return;
    }
    var i := 0;
    while i < |groups|
      invariant 0 <= i <= |groups|
      invariant |shown| == i
      invariant forall k :: 0 <= k < i ==>
                  shown[k].groupNum == k + 1 && shown[k].startTime == groups[k].key &&
                  shown[k].calls == |groups[k].entries| &&
                  shown[k].combinedTokens == GroupTokens(CallsOf(groups[k])) &&
                  (shown[k].averageTokens.Some? <==> shown[k].combinedTokens > 0)
    {
      var total, average := DisplaySingleGroup(groups[i]);
      shown := shown + [GroupDisplay(i + 1, groups[i].key, |groups[i].entries|, total, average)];
      i := i + 1;
    }
  }
}

/** The per-group summaries that the JSON and Excel exporters and the grouped
    display compute over a group's calls: the token total, the duration total
    and its average over the full call count, and the first-seen model list.
    Each is a specification function here; the loops that compute them live
    with their callers. */
module GroupAggregates {
  import opened SpanModel
  import opened SpanAnalyzer
  import opened TimeGrouping

  /** The normalised calls of a group, in bucket order. */
  function CallsOf(g: Group): (cs: seq<CallDetails>)
    ensures |cs| == |g.entries|
  {
    seq(|g.entries|, j requires 0 <= j < |g.entries| => Normalize(g.entries[j].span))
  }

  // ---------------------------------------------------------------------------
  // Token and duration totals

  /** One call's effect inside `try: if total_tokens != 'N/A': total += int(total_tokens)`. */
  datatype TokenStep = NotCounted | Counted(n: int) | Raised

  function TokenStepOf(d: CallDetails): (s: TokenStep)
    ensures s.NotCounted? <==> IsNA(d.totalTokens)
    ensures s.Raised? <==> !IsNA(d.totalTokens) && PyInt(d.totalTokens.v).None?
    ensures s.Counted? ==> PyInt(d.totalTokens.v) == Some(s.n)
  {
    if IsNA(d.totalTokens) then NotCounted
    else
      match PyInt(d.totalTokens.v)
      case Some(n) => Counted(n)
      case None => Raised
  }

  /** What a call adds to the token total. */
  function TokensAdded(d: CallDetails): int {
    match TokenStepOf(d)
    case Counted(n) => n
    case _ => 0
  }

  /** What a call adds to the duration total: its duration, unless it has none or
      the token conversion before it in the same try block raised. */
  function DurationAdded(d: CallDetails): int {
    if !TokenStepOf(d).Raised? && d.durationUs.Val? then d.durationUs.v else 0
  }

  /** The group token total. */
  function GroupTokens(cs: seq<CallDetails>): int {
    if |cs| == 0 then 0 else GroupTokens(cs[..|cs| - 1]) + TokensAdded(cs[|cs| - 1])
  }

  /** The group duration total, in microseconds. */
  function GroupDurationUs(cs: seq<CallDetails>): int {
    if |cs| == 0 then 0 else GroupDurationUs(cs[..|cs| - 1]) + DurationAdded(cs[|cs| - 1])
  }

  /** `total_duration / len(spans) if spans else 0`, in milliseconds. */
  function AverageDurationMs(totalUs: int, calls: nat): real {
    if calls == 0 then 0.0 else totalUs as real / (1000.0 * calls as real)
  }

  /** Totals are additive over concatenation: no call poisons the others. */
  lemma {:induction false} TotalsAppend(a: seq<CallDetails>, b: seq<CallDetails>)
    ensures GroupTokens(a + b) == GroupTokens(a) + GroupTokens(b)
    ensures GroupDurationUs(a + b) == GroupDurationUs(a) + GroupDurationUs(b)
    decreases |b|
  {
    if |b| == 0 {
      assert a + b == a;
    } else {
      var b0 := b[..|b| - 1];
      TotalsAppend(a, b0);
      assert (a + b)[..|a + b| - 1] == a + b0;
    }
  }

  /** One more call of a prefix adds its own share to each total. */
  lemma TotalsStep(cs: seq<CallDetails>, j: nat)
    requires j < |cs|
    ensures GroupTokens(cs[..j + 1]) == GroupTokens(cs[..j]) + TokensAdded(cs[j])
    ensures GroupDurationUs(cs[..j + 1]) == GroupDurationUs(cs[..j]) + DurationAdded(cs[j])
  {
    assert cs[..j + 1][..j] == cs[..j];
  }

  /** A call whose tokens are 'N/A' or fail to convert is skipped: the total is
      that of the other calls. When the conversion fails, its duration is
      skipped as well, even when it has one. */
  lemma SkippedCallAddsNothing(a: seq<CallDetails>, c: CallDetails, b: seq<CallDetails>)
    requires !TokenStepOf(c).Counted?
    ensures GroupTokens(a + [c] + b) == GroupTokens(a) + GroupTokens(b)
    ensures TokenStepOf(c).Raised? ==> GroupDurationUs(a + [c] + b) == GroupDurationUs(a) + GroupDurationUs(b)
  {
    TotalsAppend(a, [c]);
    TotalsAppend(a + [c], b);
    assert [c][..0] == [];
  }

  /** The average divides by every call of the group, counted or not. */
  lemma AverageOverAllCalls(totalUs: int, calls: nat)
    ensures calls == 0 ==> AverageDurationMs(totalUs, calls) == 0.0
    ensures calls > 0 ==> AverageDurationMs(totalUs, calls) * calls as real * 1000.0 == totalUs as real
  {
  }

  /** A call carrying only a model, a token count and a duration. */
  function SampleCall(model: string, tokens: Field<Value>, durationUs: Field<int>): CallDetails {
    CallDetails(NA, NA, NA, NA, NA, NA, durationUs, Val(VStr(model)), NA, NA, NA, tokens,
                NA, NA, NA, NA, NA, NA, NA)
  }

  /** Three calls at 100/150/200 tokens and 500/750/1000 ms: 450 tokens, 750 ms average. */
  lemma ThreeCallScenario()
    ensures var cs := [SampleCall("gpt-4o", Val(VInt(100)), Val(500000)),
                       SampleCall("gpt-4o-mini", Val(VInt(150)), Val(750000)),
                       SampleCall("gpt-3.5-turbo", Val(VInt(200)), Val(1000000))];
            GroupTokens(cs) == 450 && AverageDurationMs(GroupDurationUs(cs), |cs|) == 750.0
  {
    var cs := [SampleCall("gpt-4o", Val(VInt(100)), Val(500000)),
               SampleCall("gpt-4o-mini", Val(VInt(150)), Val(750000)),
               SampleCall("gpt-3.5-turbo", Val(VInt(200)), Val(1000000))];
    assert cs[..2][..1] == cs[..1];
    assert cs[..1][..0] == [];
    assert cs[..|cs| - 1] == cs[..2];
    assert GroupTokens(cs[..1]) == 100 && GroupDurationUs(cs[..1]) == 500000;
    assert GroupTokens(cs[..2]) == 250 && GroupDurationUs(cs[..2]) == 1250000;
    assert GroupDurationUs(cs) == 2250000;
  }

  /** One call without tokens or duration beside one at 100 tokens and 1000 ms:
      the total is 100 and the average is 500 ms, halved by the silent call. */
  lemma MixedCallScenario()
    ensures var cs := [SampleCall("a", NA, NA), SampleCall("b", Val(VInt(100)), Val(1000000))];
            GroupTokens(cs) == 100 && AverageDurationMs(GroupDurationUs(cs), |cs|) == 500.0
  {
    var cs := [SampleCall("a", NA, NA), SampleCall("b", Val(VInt(100)), Val(1000000))];
    assert cs[..1][..0] == [];
    assert cs[..|cs| - 1] == cs[..1];
    assert GroupTokens(cs[..1]) == 0 && GroupDurationUs(cs[..1]) == 0;
    assert GroupDurationUs(cs) == 1000000;
  }

  // ---------------------------------------------------------------------------
  // First-seen model lists

  /** Append each element unless it is already in the list. */
  function Distinct<T(==)>(xs: seq<T>): seq<T> {
    if |xs| == 0 then []
    else
      var d := Distinct(xs[..|xs| - 1]);
      if xs[|xs| - 1] in d then d else d + [xs[|xs| - 1]]
  }

  /** The position of the first occurrence of `x`. */
  function FirstIndex<T(==)>(xs: seq<T>, x: T): (i: nat)
    requires x in xs
    ensures i < |xs| && xs[i] == x
    ensures forall j :: 0 <= j < i ==> xs[j] != x
  {
    if x in xs[..|xs| - 1] then FirstIndex(xs[..|xs| - 1], x) else |xs| - 1
  }

  /** The elements of `d` occur in `xs` and come in the order of their first occurrence there. */
  predicate InFirstSeenOrder<T(==)>(d: seq<T>, xs: seq<T>) {
    (forall a :: 0 <= a < |d| ==> d[a] in xs) &&
    forall a, b :: 0 <= a < b < |d| ==> FirstIndex(xs, d[a]) < FirstIndex(xs, d[b])
  }

  /** The deduplicated list holds each element exactly once, nothing else, and
      lists them in the order of their first appearance. */
  lemma {:induction false} DistinctFirstSeen<T>(xs: seq<T>)
    ensures NoDuplicates(Distinct(xs))
    ensures forall x :: x in Distinct(xs) <==> x in xs
    ensures InFirstSeenOrder(Distinct(xs), xs)
  {
    if |xs| > 0 {
      var init := xs[..|xs| - 1];
      var last := xs[|xs| - 1];
      DistinctFirstSeen(init);
      assert forall x :: x in xs <==> x in init || x == last;
      var d0 := Distinct(init);
      var d := Distinct(xs);
      forall x | x in init ensures FirstIndex(xs, x) == FirstIndex(init, x) {
      }
      if last !in d0 {
        assert d == d0 + [last];
        assert FirstIndex(xs, last) == |xs| - 1;
        forall a, b | 0 <= a < b < |d| ensures FirstIndex(xs, d[a]) < FirstIndex(xs, d[b]) {
          assert d[a] == d0[a] && d0[a] in d0;
          if b < |d0| {
            assert d[b] == d0[b] && d0[b] in d0;
          }
        }
      } else {
        forall a, b | 0 <= a < b < |d| ensures FirstIndex(xs, d[a]) < FirstIndex(xs, d[b]) {
          assert d0[a] in d0 && d0[b] in d0;
        }
      }
    }
  }

  /** `span_details.model` of each call. */
  function ModelsOf(cs: seq<CallDetails>): seq<Field<Value>> {
    if |cs| == 0 then [] else ModelsOf(cs[..|cs| - 1]) + [cs[|cs| - 1].model]
  }

  /** One more call of a prefix: its model is appended unless already listed. */
  lemma ModelsStep(cs: seq<CallDetails>, j: nat)
    requires j < |cs|
    ensures var d := Distinct(ModelsOf(cs[..j]));
            Distinct(ModelsOf(cs[..j + 1])) == if cs[j].model in d then d else d + [cs[j].model]
  {
    assert cs[..j + 1][..j] == cs[..j];
    var ms := ModelsOf(cs[..j + 1]);
    assert ms[..|ms| - 1] == ModelsOf(cs[..j]);
  }

  /** The same for the models of counted calls: a call whose conversion raises
      adds nothing. */
  lemma CountedModelsStep(cs: seq<CallDetails>, j: nat)
    requires j < |cs|
    ensures var d := Distinct(CountedModels(cs[..j]));
            Distinct(CountedModels(cs[..j + 1])) ==
              if TokenStepOf(cs[j]).Raised? || cs[j].model in d then d else d + [cs[j].model]
  {
    assert cs[..j + 1][..j] == cs[..j];
    var cm := CountedModels(cs[..j + 1]);
    if !TokenStepOf(cs[j]).Raised? {
      assert cm == CountedModels(cs[..j]) + [cs[j].model];
      assert cm[..|cm| - 1] == CountedModels(cs[..j]);
    } else {
      assert cm == CountedModels(cs[..j]);
    }
  }

  /** The models of the calls whose token conversion did not raise: in the Excel
      summary the dedup sits in the same try block, after the sums. */
  function CountedModels(cs: seq<CallDetails>): seq<Field<Value>> {
    if |cs| == 0 then []
    else CountedModels(cs[..|cs| - 1]) +
         (if TokenStepOf(cs[|cs| - 1]).Raised? then [] else [cs[|cs| - 1].model])
  }

  /** The Excel model list draws from the JSON one, and they agree when no call's
      token count fails to convert. */
  lemma {:induction false} CountedModelsWithinModels(cs: seq<CallDetails>)
    ensures forall m :: m in CountedModels(cs) ==> m in ModelsOf(cs)
    ensures (forall j :: 0 <= j < |cs| ==> !TokenStepOf(cs[j]).Raised?) ==> CountedModels(cs) == ModelsOf(cs)
  {
    if |cs| > 0 {
      CountedModelsWithinModels(cs[..|cs| - 1]);
    }
  }

  /** The two deduplicated lists agree the same way. */
  lemma ExcelModelsWithinJsonModels(cs: seq<CallDetails>)
    ensures forall m :: m in Distinct(CountedModels(cs)) ==> m in Distinct(ModelsOf(cs))
    ensures (forall j :: 0 <= j < |cs| ==> !TokenStepOf(cs[j]).Raised?) ==>
              Distinct(CountedModels(cs)) == Distinct(ModelsOf(cs))
  {
    CountedModelsWithinModels(cs);
    var counted := CountedModels(cs);
    var all := ModelsOf(cs);
    DistinctFirstSeen(counted);
    DistinctFirstSeen(all);
    forall m | m in Distinct(counted) ensures m in Distinct(all) {
      assert m in counted;
    }
  }
}

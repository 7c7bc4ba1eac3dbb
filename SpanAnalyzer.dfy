/** The span normaliser (`SpanAnalyzer.extract_span_details`) and the LLM
    filter (`SpanAnalyzer.filter_llm_spans`) of phoenix_analyzer.py. */
module SpanAnalyzer {
  import opened SpanModel

  /** The fixed-shape projection of one span (`LLMCallDetails`): every field is
      present, either as a value or as the sentinel. The duration is kept in
      microseconds. */
  datatype CallDetails = CallDetails(
    spanId: Field<Value>,
    traceId: Field<Value>,
    name: Field<Value>,
    startTime: Field<Value>,
    endTime: Field<Value>,
    status: Field<Value>,
    durationUs: Field<int>,
    model: Field<Value>,
    provider: Field<Value>,
    promptTokens: Field<Value>,
    completionTokens: Field<Value>,
    totalTokens: Field<Value>,
    temperature: Field<Value>,
    maxTokens: Field<Value>,
    topP: Field<Value>,
    cost: Field<Value>,
    finishReason: Field<Value>,
    inputData: Field<Value>,
    outputData: Field<Value>)

  const InputKeys: seq<string> := ["input", "input.value", "attributes.llm.input_messages"]
  const OutputKeys: seq<string> := ["output", "output.value", "attributes.llm.output_messages"]

  // ---------------------------------------------------------------------------
  // Normalisation

  /** `span.get(k1) or span.get(k2) or ... or 'N/A'`. */
  function FirstTruthy(span: Span, keys: seq<string>): Field<Value> {
    if |keys| == 0 then NA
    else if Truthy(Get(span, keys[0])) then Val(Get(span, keys[0]))
    else FirstTruthy(span, keys[1..])
  }

  /** The sentinel appears exactly when no key holds a truthy value; otherwise
      the result is the value of the first key, in list order, that does. */
  lemma {:induction false} FirstTruthyIsFirst(span: Span, keys: seq<string>)
    ensures FirstTruthy(span, keys).NA? <==>
              forall i :: 0 <= i < |keys| ==> !Truthy(Get(span, keys[i]))
    ensures forall i :: (0 <= i < |keys| && Truthy(Get(span, keys[i])) &&
                         (forall j :: 0 <= j < i ==> !Truthy(Get(span, keys[j])))) ==>
              FirstTruthy(span, keys) == Val(Get(span, keys[i]))
    ensures FirstTruthy(span, keys).Val? ==> Truthy(FirstTruthy(span, keys).v)
  {
    if |keys| > 0 && !Truthy(Get(span, keys[0])) {
      FirstTruthyIsFirst(span, keys[1..]);
      assert forall i :: 1 <= i < |keys| ==> keys[i] == keys[1..][i - 1];
    }
  }

  /** The duration block: both times must be present and convert, and their
      difference must be defined (Python refuses to subtract a naive from an
      aware timestamp); any failure leaves the sentinel. No sign check. */
  function Duration(span: Span): Field<int> {
    match (AsTimestamp(Get(span, "start_time")), AsTimestamp(Get(span, "end_time")))
    case (Parsed(s), Parsed(e)) => if s.aware == e.aware then Val(e.micros - s.micros) else NA
    case _ => NA
  }

  /** `extract_span_details`: total, one CallDetails per span. */
  function Normalize(span: Span): CallDetails {
    CallDetails(
      spanId := Lookup(span, "context.span_id"),
      traceId := Lookup(span, "context.trace_id"),
      name := Lookup(span, "name"),
      startTime := Lookup(span, "start_time"),
      endTime := Lookup(span, "end_time"),
      status := Lookup(span, "status_code"),
      durationUs := Duration(span),
      model := Lookup(span, "attributes.llm.model_name"),
      provider := if "attributes.llm.provider" in span then Val(span["attributes.llm.provider"])
                  else Lookup(span, "attributes.llm.system"),
      promptTokens := Lookup(span, "attributes.llm.token_count.prompt"),
      completionTokens := Lookup(span, "attributes.llm.token_count.completion"),
      totalTokens := Lookup(span, "attributes.llm.token_count.total"),
      temperature := Lookup(span, "attributes.llm.temperature"),
      maxTokens := Lookup(span, "attributes.llm.max_tokens"),
      topP := Lookup(span, "attributes.llm.top_p"),
      cost := Lookup(span, "attributes.llm.cost"),
      finishReason := Lookup(span, "attributes.llm.response.finish_reason"),
      inputData := FirstTruthy(span, InputKeys),
      outputData := FirstTruthy(span, OutputKeys))
  }

  /** A looked-up field is the sentinel exactly when its key is absent, and
      otherwise carries the stored value unchanged, even a None or a NaN. */
  predicate LooksUp(f: Field<Value>, span: Span, key: string) {
    (f.NA? <==> key !in span) && (f.Val? ==> f.v == span[key])
  }

  lemma LookupLooksUp(span: Span, key: string)
    ensures LooksUp(Lookup(span, key), span, key)
  {
  }

  lemma NormalizeLooksUp(span: Span)
    ensures var d := Normalize(span);
      && LooksUp(d.spanId, span, "context.span_id")
      && LooksUp(d.traceId, span, "context.trace_id")
      && LooksUp(d.name, span, "name")
      && LooksUp(d.startTime, span, "start_time")
      && LooksUp(d.endTime, span, "end_time")
      && LooksUp(d.status, span, "status_code")
      && LooksUp(d.model, span, "attributes.llm.model_name")
      && LooksUp(d.promptTokens, span, "attributes.llm.token_count.prompt")
      && LooksUp(d.completionTokens, span, "attributes.llm.token_count.completion")
      && LooksUp(d.totalTokens, span, "attributes.llm.token_count.total")
      && LooksUp(d.temperature, span, "attributes.llm.temperature")
      && LooksUp(d.maxTokens, span, "attributes.llm.max_tokens")
      && LooksUp(d.topP, span, "attributes.llm.top_p")
      && LooksUp(d.cost, span, "attributes.llm.cost")
      && LooksUp(d.finishReason, span, "attributes.llm.response.finish_reason")
  {
    var d := Normalize(span);
    assert d.spanId == Lookup(span, "context.span_id");
    assert d.traceId == Lookup(span, "context.trace_id");
    assert d.name == Lookup(span, "name");
    assert d.startTime == Lookup(span, "start_time");
    assert d.endTime == Lookup(span, "end_time");
    assert d.status == Lookup(span, "status_code");
    assert d.model == Lookup(span, "attributes.llm.model_name");
    assert d.promptTokens == Lookup(span, "attributes.llm.token_count.prompt");
    assert d.completionTokens == Lookup(span, "attributes.llm.token_count.completion");
    assert d.totalTokens == Lookup(span, "attributes.llm.token_count.total");
    assert d.temperature == Lookup(span, "attributes.llm.temperature");
    assert d.maxTokens == Lookup(span, "attributes.llm.max_tokens");
    assert d.topP == Lookup(span, "attributes.llm.top_p");
    assert d.cost == Lookup(span, "attributes.llm.cost");
    assert d.finishReason == Lookup(span, "attributes.llm.response.finish_reason");
    forall key | true ensures LooksUp(Lookup(span, key), span, key) {
      LookupLooksUp(span, key);
    }
  }

  /** Provider falls back on key presence, not truthiness: a present provider
      key wins even when it holds None; the system key is consulted only when
      the provider key is absent; the sentinel only when both are absent. */
  lemma ProviderFallback(span: Span)
    ensures "attributes.llm.provider" in span ==>
              Normalize(span).provider == Val(span["attributes.llm.provider"])
    ensures "attributes.llm.provider" !in span && "attributes.llm.system" in span ==>
              Normalize(span).provider == Val(span["attributes.llm.system"])
    ensures Normalize(span).provider.NA? <==>
              "attributes.llm.provider" !in span && "attributes.llm.system" !in span
  {
  }

  /** Input and output are the first truthy value of their three keys, in the
      order short key, ".value" key, messages attribute; the sentinel when none
      of the three is truthy. */
  lemma InputOutputFirstTruthy(span: Span)
    ensures Normalize(span).inputData.NA? <==>
              forall i :: 0 <= i < 3 ==> !Truthy(Get(span, InputKeys[i]))
    ensures Normalize(span).outputData.NA? <==>
              forall i :: 0 <= i < 3 ==> !Truthy(Get(span, OutputKeys[i]))
    ensures Truthy(Get(span, "input")) ==> Normalize(span).inputData == Val(Get(span, "input"))
    ensures !Truthy(Get(span, "input")) && Truthy(Get(span, "input.value")) ==>
              Normalize(span).inputData == Val(Get(span, "input.value"))
    ensures !Truthy(Get(span, "input")) && !Truthy(Get(span, "input.value")) ==>
              Normalize(span).inputData == FirstTruthy(span, ["attributes.llm.input_messages"])
    ensures Truthy(Get(span, "output")) ==> Normalize(span).outputData == Val(Get(span, "output"))
    ensures !Truthy(Get(span, "output")) && Truthy(Get(span, "output.value")) ==>
              Normalize(span).outputData == Val(Get(span, "output.value"))
    ensures Normalize(span).inputData.Val? ==> Truthy(Normalize(span).inputData.v)
    ensures Normalize(span).outputData.Val? ==> Truthy(Normalize(span).outputData.v)
  {
    FirstTruthyIsFirst(span, InputKeys);
    FirstTruthyIsFirst(span, OutputKeys);
    assert InputKeys[1..][1..] == ["attributes.llm.input_messages"];
  }

  /** The duration is a value exactly when both times are timestamps of the same
      kind, and then it is end minus start, negative when end precedes start. */
  lemma DurationDefinedIff(span: Span)
    ensures Normalize(span).durationUs.Val? <==>
              exists s, e :: AsTimestamp(Get(span, "start_time")) == Parsed(s) &&
                             AsTimestamp(Get(span, "end_time")) == Parsed(e) && s.aware == e.aware
    ensures forall s, e :: AsTimestamp(Get(span, "start_time")) == Parsed(s) &&
                           AsTimestamp(Get(span, "end_time")) == Parsed(e) && s.aware == e.aware ==>
              Normalize(span).durationUs == Val(e.micros - s.micros)
  {
    match (AsTimestamp(Get(span, "start_time")), AsTimestamp(Get(span, "end_time")))
    case (Parsed(s), Parsed(e)) =>
    case _ =>
  }

  /** No sign check: an end one second before the start gives -1 s, not the sentinel. */
  lemma NegativeDurationKept()
    ensures Normalize(map["start_time" := VTime(Timestamp(5000000, true)),
                          "end_time" := VTime(Timestamp(4000000, true))]).durationUs == Val(-1000000)
  {
  }

  // ---------------------------------------------------------------------------
  // LLM filter

  /** ASCII lower-casing. */
  function LowerAscii(c: char): char {
    if 'A' <= c <= 'Z' then (c as int + 32) as char else c
  }

  /** `pat` (lower case) occurs in `s` at position i, ignoring ASCII case. */
  predicate MatchesAt(s: string, i: nat, pat: string)
    requires i + |pat| <= |s|
  {
    forall j :: 0 <= j < |pat| ==> LowerAscii(s[i + j]) == pat[j]
  }

  /** Case-insensitive substring test, by scanning from the left. */
  predicate ContainsIgnoreCase(s: string, pat: string)
    decreases |s|
  {
    |pat| <= |s| && (MatchesAt(s, 0, pat) || ContainsIgnoreCase(s[1..], pat))
  }

  lemma {:induction false} ContainsIgnoreCaseIff(s: string, pat: string)
    ensures ContainsIgnoreCase(s, pat) <==>
              exists i: nat :: i + |pat| <= |s| && MatchesAt(s, i, pat)
    decreases |s|
  {
    if |pat| <= |s| {
      if MatchesAt(s, 0, pat) {
      } else {
        assert |s| > 0;
        ContainsIgnoreCaseIff(s[1..], pat);
        if ContainsIgnoreCase(s[1..], pat) {
          var i: nat :| i + |pat| <= |s[1..]| && MatchesAt(s[1..], i, pat);
          assert MatchesAt(s, i + 1, pat) by {
            forall j | 0 <= j < |pat| ensures LowerAscii(s[i + 1 + j]) == pat[j] {
              assert s[1..][i + j] == s[i + 1 + j];
            }
          }
        }
        if i: nat :| i + |pat| <= |s| && MatchesAt(s, i, pat) {
          assert i > 0;
          assert MatchesAt(s[1..], i - 1, pat) by {
            forall j | 0 <= j < |pat| ensures LowerAscii(s[1..][i - 1 + j]) == pat[j] {
              assert s[1..][i - 1 + j] == s[i + j];
            }
          }
        }
      }
    }
  }

  /** A name without any letter o cannot mention openai. */
  lemma {:induction false} NoLetterONoOpenai(s: string)
    requires forall i :: 0 <= i < |s| ==> LowerAscii(s[i]) != 'o'
    ensures !ContainsIgnoreCase(s, "openai")
  {
    ContainsIgnoreCaseIff(s, "openai");
    assert "openai"[0] == 'o';
  }

  /** `name.str.contains('openai', case=False, na=False)`: only a string name can match. */
  predicate NameMentionsOpenai(span: Span) {
    match Get(span, "name")
    case VStr(s) => ContainsIgnoreCase(s, "openai")
    case _ => false
  }

  /** The row mask of `filter_llm_spans`. */
  predicate IsLlmSpan(span: Span) {
    Get(span, "span_kind") == VStr("LLM") || NameMentionsOpenai(span)
  }

  /** The rows the mask keeps, in frame order. */
  function KeepLlm(spans: seq<Span>): seq<Span> {
    if |spans| == 0 then []
    else (if IsLlmSpan(spans[0]) then [spans[0]] else []) + KeepLlm(spans[1..])
  }

  lemma {:induction false} KeepLlmMembers(spans: seq<Span>)
    ensures forall x :: x in KeepLlm(spans) <==> x in spans && IsLlmSpan(x)
    ensures |KeepLlm(spans)| <= |spans|
  {
    if |spans| > 0 {
      KeepLlmMembers(spans[1..]);
      assert forall x :: x in spans <==> x == spans[0] || x in spans[1..];
    }
  }

  /** The rows of one data frame: every row carries the same columns, a cell
      that pandas fills with NaN included. A key absent from one row is then
      absent from the whole frame. */
  predicate IsFrame(spans: seq<Span>) {
    forall a, b :: a in spans && b in spans ==> a.Keys == b.Keys
  }

  /** A frame column exists when at least one row carries the key. */
  predicate HasColumn(spans: seq<Span>, key: string) {
    |spans| > 0 && (key in spans[0] || HasColumn(spans[1..], key))
  }

  lemma {:induction false} HasColumnSomeRow(spans: seq<Span>, key: string)
    ensures HasColumn(spans, key) <==> exists j :: 0 <= j < |spans| && key in spans[j]
  {
    if |spans| > 0 {
      HasColumnSomeRow(spans[1..], key);
      if exists j :: 0 <= j < |spans| && key in spans[j] {
        var j :| 0 <= j < |spans| && key in spans[j];
        if j > 0 {
          assert spans[1..][j - 1] == spans[j];
        }
      }
      if exists j :: 0 <= j < |spans[1..]| && key in spans[1..][j] {
        var j :| 0 <= j < |spans[1..]| && key in spans[1..][j];
        assert spans[j + 1] == spans[1..][j];
      }
    }
  }

  /** In a frame, a field the normaliser reads as the sentinel is one whose
      column the frame lacks altogether; a column that exists gives every row a
      value, NaN or None included. */
  lemma FrameSentinelMeansNoColumn(spans: seq<Span>, i: nat, key: string)
    requires IsFrame(spans) && i < |spans|
    ensures Lookup(spans[i], key).NA? <==> !HasColumn(spans, key)
  {
    HasColumnSomeRow(spans, key);
    if HasColumn(spans, key) {
      var j :| 0 <= j < |spans| && key in spans[j];
      assert spans[i] in spans && spans[j] in spans;
    }
  }

  /** Sort key of `sort_values('start_time')`; missing or non-timestamp cells sort as NaT. */
  function StartKey(span: Span): Option<int> {
    match Get(span, "start_time")
    case VTime(t) => Some(t.micros)
    case _ => None
  }

  /** The start cell holds a timestamp of the given kind (aware or naive). */
  predicate StartsWithKind(span: Span, aware: bool) {
    Get(span, "start_time").VTime? && Get(span, "start_time").t.aware == aware
  }

  /** Some rows start at a naive timestamp and others at an aware one: pandas
      cannot compare the two, so sorting such rows raises TypeError. */
  predicate MixedStartKinds(spans: seq<Span>) {
    && (exists x :: x in spans && StartsWithKind(x, true))
    && (exists y :: y in spans && StartsWithKind(y, false))
  }

  /** `a` may stand before `b` in descending start order, NaT last. */
  predicate Precedes(a: Span, b: Span) {
    match (StartKey(a), StartKey(b))
    case (Some(x), Some(y)) => x >= y
    case (Some(_), None) => true
    case (None, None) => true
    case (None, Some(_)) => false
  }

  predicate SortedDesc(s: seq<Span>) {
    forall i, j :: 0 <= i < j < |s| ==> Precedes(s[i], s[j])
  }

  function Insert(x: Span, s: seq<Span>): seq<Span> {
    if |s| == 0 || Precedes(x, s[0]) then [x] + s
    else [s[0]] + Insert(x, s[1..])
  }

  function SortByStartDesc(s: seq<Span>): seq<Span> {
    if |s| == 0 then [] else Insert(s[0], SortByStartDesc(s[1..]))
  }

  lemma {:induction false} InsertSorted(x: Span, s: seq<Span>)
    requires SortedDesc(s)
    ensures SortedDesc(Insert(x, s))
    ensures multiset(Insert(x, s)) == multiset(s) + multiset{x}
  {
    if |s| == 0 || Precedes(x, s[0]) {
      assert [x] + s == Insert(x, s);
    } else {
      var rest := Insert(x, s[1..]);
      InsertSorted(x, s[1..]);
      assert s == [s[0]] + s[1..];
      assert forall y :: y in rest ==> Precedes(s[0], y) by {
        forall y | y in rest ensures Precedes(s[0], y) {
          assert y in multiset(rest);
          if y != x {
            assert y in multiset(s[1..]);
          }
        }
      }
      assert Insert(x, s) == [s[0]] + rest;
    }
  }

  lemma {:induction false} SortByStartDescCorrect(s: seq<Span>)
    ensures SortedDesc(SortByStartDesc(s))
    ensures multiset(SortByStartDesc(s)) == multiset(s)
  {
    if |s| > 0 {
      SortByStartDescCorrect(s[1..]);
      InsertSorted(s[0], SortByStartDesc(s[1..]));
      assert s == [s[0]] + s[1..];
    }
  }

  /** `filter_llm_spans`: the mask needs the span_kind and name columns and the
      sort needs the start_time column (a missing one raises KeyError); an
      empty match returns an empty frame without sorting; sorting kept rows
      whose start times mix naive and aware timestamps raises TypeError. */
  function FilterLlmSpans(spans: seq<Span>): (r: Result<seq<Span>>)
    requires IsFrame(spans)
    ensures r.Success? <==>
              HasColumn(spans, "span_kind") && HasColumn(spans, "name") &&
              (KeepLlm(spans) == [] ||
               (HasColumn(spans, "start_time") && !MixedStartKinds(KeepLlm(spans))))
    ensures r.Success? ==> forall a, b :: a in r.value && b in r.value && StartsWithKind(a, true) ==>
                             !StartsWithKind(b, false)
    ensures r.Success? ==> SortedDesc(r.value)
    ensures r.Success? ==> multiset(r.value) == multiset(KeepLlm(spans))
    ensures r.Success? ==> forall x :: x in r.value <==> x in spans && IsLlmSpan(x)
    ensures r.Success? ==> IsFrame(r.value)
  {
    if !HasColumn(spans, "span_kind") || !HasColumn(spans, "name") then
      Failure("KeyError")
    else
      var kept := KeepLlm(spans);
      KeepLlmMembers(spans);
      if kept == [] then Success([])
      else if !HasColumn(spans, "start_time") then Failure("KeyError: start_time")
      else if MixedStartKinds(kept) then Failure("TypeError: cannot compare tz-naive and tz-aware timestamps")
      else
        SortByStartDescCorrect(kept);
        assert forall x :: x in SortByStartDesc(kept) <==> x in multiset(kept);
        Success(SortByStartDesc(kept))
  }

  function TestSpan(kind: string, name: string): Span {
    map["span_kind" := VStr(kind), "name" := VStr(name), "start_time" := VTime(Timestamp(0, true))]
  }

  lemma TestSpanIsLlm(kind: string, name: string)
    ensures IsLlmSpan(TestSpan(kind, name)) <==> kind == "LLM" || ContainsIgnoreCase(name, "openai")
    ensures "span_kind" in TestSpan(kind, name) && "name" in TestSpan(kind, name)
    ensures "start_time" in TestSpan(kind, name)
  {
    var m := TestSpan(kind, name);
    assert m["span_kind"] == VStr(kind);
    assert m["name"] == VStr(name);
  }

  /** The filter fixture of test_analyzer.py: kinds LLM, HTTP, LLM, DATABASE with
      names ChatCompletion, api_call, openai_call, db_query. The mask keeps the
      first and third spans only: the one name that mentions openai belongs to a
      span whose kind is already LLM, so two spans are kept, not three. */
  lemma FixtureNamesWithoutOpenai(name: string)
    requires name == "api_call" || name == "db_query"
    ensures !ContainsIgnoreCase(name, "openai")
  {
    NoLetterONoOpenai(name);
  }

  lemma FixtureMask()
    ensures IsLlmSpan(TestSpan("LLM", "ChatCompletion"))
    ensures !IsLlmSpan(TestSpan("HTTP", "api_call"))
    ensures IsLlmSpan(TestSpan("LLM", "openai_call"))
    ensures !IsLlmSpan(TestSpan("DATABASE", "db_query"))
  {
    FixtureNamesWithoutOpenai("api_call");
    FixtureNamesWithoutOpenai("db_query");
    TestSpanIsLlm("LLM", "ChatCompletion");
    TestSpanIsLlm("HTTP", "api_call");
    TestSpanIsLlm("LLM", "openai_call");
    TestSpanIsLlm("DATABASE", "db_query");
  }

  /** The four fixture rows; they share their three columns, so they form a frame. */
  function FixtureSpans(): (r: seq<Span>)
    ensures IsFrame(r)
  {
    var r := [TestSpan("LLM", "ChatCompletion"), TestSpan("HTTP", "api_call"),
              TestSpan("LLM", "openai_call"), TestSpan("DATABASE", "db_query")];
    assert forall a | a in r :: a.Keys == {"span_kind", "name", "start_time"};
    r
  }

  /** Four rows of which the first and third pass the mask keep those two. */
  lemma KeepFirstAndThird(a: Span, b: Span, c: Span, d: Span)
    requires IsLlmSpan(a) && !IsLlmSpan(b) && IsLlmSpan(c) && !IsLlmSpan(d)
    ensures KeepLlm([a, b, c, d]) == [a, c]
  {
    var spans := [a, b, c, d];
    assert spans[3..][1..] == [];
    assert KeepLlm(spans[3..]) == [];
    assert spans[2..][1..] == spans[3..];
    assert KeepLlm(spans[2..]) == [c];
    assert spans[1..][1..] == spans[2..];
    assert KeepLlm(spans[1..]) == [c];
  }

  lemma KeepFixture()
    ensures KeepLlm(FixtureSpans()) == [FixtureSpans()[0], FixtureSpans()[2]]
  {
    FixtureMask();
    KeepFirstAndThird(TestSpan("LLM", "ChatCompletion"), TestSpan("HTTP", "api_call"),
                      TestSpan("LLM", "openai_call"), TestSpan("DATABASE", "db_query"));
  }

  lemma FixtureColumns()
    ensures HasColumn(FixtureSpans(), "span_kind") && HasColumn(FixtureSpans(), "name")
    ensures HasColumn(FixtureSpans(), "start_time")
  {
    TestSpanIsLlm("LLM", "ChatCompletion");
  }

  /** The fixture rows all start at an aware timestamp. */
  lemma TestSpanStartsAware(kind: string, name: string)
    ensures StartsWithKind(TestSpan(kind, name), true) && !StartsWithKind(TestSpan(kind, name), false)
  {
    assert TestSpan(kind, name)["start_time"] == VTime(Timestamp(0, true));
  }

  /** The kept fixture rows can be sorted: none starts at a naive timestamp. */
  lemma FixtureKeptStartsAware()
    ensures !MixedStartKinds(KeepLlm(FixtureSpans()))
  {
    KeepFixture();
    var a, c := TestSpan("LLM", "ChatCompletion"), TestSpan("LLM", "openai_call");
    TestSpanStartsAware("LLM", "ChatCompletion");
    TestSpanStartsAware("LLM", "openai_call");
    NoNaiveStartNotMixed([a, c]);
  }

  lemma NoNaiveStartNotMixed(spans: seq<Span>)
    requires forall y :: y in spans ==> !StartsWithKind(y, false)
    ensures !MixedStartKinds(spans)
  {
  }

  lemma FilterFixture()
    ensures FilterLlmSpans(FixtureSpans()).Success?
    ensures |FilterLlmSpans(FixtureSpans()).value| == 2
    ensures multiset(FilterLlmSpans(FixtureSpans()).value) ==
              multiset{FixtureSpans()[0], FixtureSpans()[2]}
  {
    KeepFixture();
    FixtureColumns();
    FixtureKeptStartsAware();
    var r := FilterLlmSpans(FixtureSpans());
    assert |r.value| == |multiset(r.value)|;
  }

  /** An LLM row starting at `t`. */
  function LlmSpanAt(t: Timestamp): Span {
    map["span_kind" := VStr("LLM"), "name" := VStr("chat"), "start_time" := VTime(t)]
  }

  lemma LlmSpanAtFacts(t: Timestamp)
    ensures IsLlmSpan(LlmSpanAt(t))
    ensures LlmSpanAt(t).Keys == {"span_kind", "name", "start_time"}
    ensures StartsWithKind(LlmSpanAt(t), t.aware)
  {
    assert LlmSpanAt(t)["span_kind"] == VStr("LLM");
    assert LlmSpanAt(t)["start_time"] == VTime(t);
  }

  /** Two LLM rows, one starting at an aware and one at a naive timestamp,
      make the sort raise. */
  lemma FilterMixedKindsFails()
    ensures FilterLlmSpans([LlmSpanAt(Timestamp(0, true)), LlmSpanAt(Timestamp(5, false))]).Failure?
  {
    var a, b := LlmSpanAt(Timestamp(0, true)), LlmSpanAt(Timestamp(5, false));
    LlmSpanAtFacts(Timestamp(0, true));
    LlmSpanAtFacts(Timestamp(5, false));
    var spans := [a, b];
    KeepLlmMembers(spans);
    assert a in KeepLlm(spans) && b in KeepLlm(spans);
    assert MixedStartKinds(KeepLlm(spans));
  }
}

/** `SpanAnalyzer.group_by_start_time` of phoenix_analyzer.py: one pass over the
    sorted LLM spans that keeps the recent ones (start time at or after the
    cutoff) and appends each to the bucket of its start time floored to the
    second; only buckets with more than one call are returned. The clock is a
    parameter. */
module TimeGrouping {
  import opened SpanModel

  const MicrosPerSecond: int := 1000000
  const MicrosPerMinute: int := 60000000

  /** `(idx, span)`: the position of the span in the sorted frame, and the span. */
  datatype Entry = Entry(idx: nat, span: Span)

  /** One entry of the returned dictionary: a floored start time and its calls. */
  datatype Group = Group(key: Timestamp, entries: seq<Entry>)

  /** `(duplicate_groups, recent_spans)`. */
  datatype Grouping = Grouping(groups: seq<Group>, recent: seq<Entry>)

  // ---------------------------------------------------------------------------
  // Time arithmetic

  /** `floor('S')`. */
  function FloorToSecond(t: Timestamp): (f: Timestamp)
    ensures f.aware == t.aware
    ensures f.micros % MicrosPerSecond == 0
    ensures f.micros <= t.micros < f.micros + MicrosPerSecond
  {
    Timestamp(t.micros - t.micros % MicrosPerSecond, t.aware)
  }

  /** Flooring twice is flooring once. */
  lemma FloorIdempotent(t: Timestamp)
    ensures FloorToSecond(FloorToSecond(t)) == FloorToSecond(t)
  {
  }

  /** Two start times share a bucket exactly when they are of the same kind and
      fall in the same whole second: sub-second differences collide. */
  lemma SameBucketIffSameSecond(a: Timestamp, b: Timestamp)
    ensures FloorToSecond(a) == FloorToSecond(b) <==>
              a.aware == b.aware && a.micros / MicrosPerSecond == b.micros / MicrosPerSecond
  {
    assert a.micros - a.micros % MicrosPerSecond == MicrosPerSecond * (a.micros / MicrosPerSecond);
    assert b.micros - b.micros % MicrosPerSecond == MicrosPerSecond * (b.micros / MicrosPerSecond);
  }

  /** `datetime.now(timezone.utc) - timedelta(minutes=minutes_back)`, as UTC microseconds. */
  function CutoffMicros(nowMicros: int, minutesBack: int): int {
    nowMicros - minutesBack * MicrosPerMinute
  }

  /** The cutoff a start time is compared with: the aware UTC cutoff, with its
      zone stripped (`replace(tzinfo=None)`) when the start time is naive. */
  function CutoffFor(start: Timestamp, cutoffMicros: int): (c: Timestamp)
    ensures c.aware == start.aware && c.micros == cutoffMicros
  {
    var cutoff := Timestamp(cutoffMicros, true);
    if !start.aware then cutoff.(aware := false) else cutoff
  }

  /** `>=` between timestamps; Python refuses it between a naive and an aware one. */
  predicate AtOrAfter(a: Timestamp, b: Timestamp)
    requires a.aware == b.aware
  {
    a.micros >= b.micros
  }

  /** The start time of a span the loop appends to the recent list, or None. */
  function RecentStart(span: Span, cutoffMicros: int): Option<Timestamp> {
    match AsTimestamp(Get(span, "start_time"))
    case Parsed(t) => if AtOrAfter(t, CutoffFor(t, cutoffMicros)) then Some(t) else None
    case _ => None
  }

  /** A start time that is present but does not convert: `pd.to_datetime` raises
      and nothing in `group_by_start_time` catches it. */
  predicate Unparsable(span: Span) {
    AsTimestamp(Get(span, "start_time")).Unconvertible?
  }

  /** The window is inclusive and compares instants: a span is recent exactly when
      its start time converts and is not before the cutoff. */
  lemma RecentIffAtOrAfterCutoff(span: Span, cutoffMicros: int)
    ensures RecentStart(span, cutoffMicros).Some? <==>
              AsTimestamp(Get(span, "start_time")).Parsed? &&
              AsTimestamp(Get(span, "start_time")).t.micros >= cutoffMicros
    ensures RecentStart(span, cutoffMicros).Some? ==>
              AsTimestamp(Get(span, "start_time")) == Parsed(RecentStart(span, cutoffMicros).value)
  {
  }

  /** A start exactly at the cutoff is recent; one a second earlier is not. */
  lemma LookbackBoundary(nowMicros: int, minutesBack: int, aware: bool)
    ensures var c := CutoffMicros(nowMicros, minutesBack);
            && RecentStart(map["start_time" := VTime(Timestamp(c, aware))], c).Some?
            && RecentStart(map["start_time" := VTime(Timestamp(c - MicrosPerSecond, aware))], c).None?
  {
  }

  // ---------------------------------------------------------------------------
  // What the first n iterations of the loop have built

  /** `recent_spans` after n iterations. */
  function RecentPrefix(spans: seq<Span>, n: nat, cutoff: int): seq<Entry>
    requires n <= |spans|
  {
    if n == 0 then []
    else RecentPrefix(spans, n - 1, cutoff) +
         (if RecentStart(spans[n - 1], cutoff).Some? then [Entry(n - 1, spans[n - 1])] else [])
  }

  /** The bucket keys after n iterations, in insertion order. */
  function KeysPrefix(spans: seq<Span>, n: nat, cutoff: int): seq<Timestamp>
    requires n <= |spans|
  {
    if n == 0 then []
    else
      var ks := KeysPrefix(spans, n - 1, cutoff);
      match RecentStart(spans[n - 1], cutoff)
      case Some(t) => if FloorToSecond(t) in ks then ks else ks + [FloorToSecond(t)]
      case None => ks
  }

  /** `time_groups[k]` after n iterations. */
  function BucketPrefix(spans: seq<Span>, n: nat, cutoff: int, k: Timestamp): seq<Entry>
    requires n <= |spans|
  {
    if n == 0 then []
    else BucketPrefix(spans, n - 1, cutoff, k) +
         match RecentStart(spans[n - 1], cutoff)
         case Some(t) => if FloorToSecond(t) == k then [Entry(n - 1, spans[n - 1])] else []
         case None => []
  }

  /** The dictionary comprehension keeping the buckets with more than one entry. */
  function SelectGroups(keys: seq<Timestamp>, spans: seq<Span>, cutoff: int): seq<Group> {
    if |keys| == 0 then []
    else
      var k := keys[|keys| - 1];
      var b := BucketPrefix(spans, |spans|, cutoff, k);
      SelectGroups(keys[..|keys| - 1], spans, cutoff) + (if |b| > 1 then [Group(k, b)] else [])
  }

  function DuplicateGroups(spans: seq<Span>, cutoff: int): seq<Group> {
    SelectGroups(KeysPrefix(spans, |spans|, cutoff), spans, cutoff)
  }

  // ---------------------------------------------------------------------------
  // The loop

  method GroupByStartTime(llmSpans: seq<Span>, nowMicros: int, minutesBack: int)
    returns (r: Result<Grouping>)
    ensures r.Failure? <==> exists i :: 0 <= i < |llmSpans| && Unparsable(llmSpans[i])
    ensures r.Success? ==>
              r.value.recent == RecentPrefix(llmSpans, |llmSpans|, CutoffMicros(nowMicros, minutesBack))
    ensures r.Success? ==>
              r.value.groups == DuplicateGroups(llmSpans, CutoffMicros(nowMicros, minutesBack))
  {
    var cutoff := CutoffMicros(nowMicros, minutesBack);
    var keys: seq<Timestamp> := [];
    var timeGroups: map<Timestamp, seq<Entry>> := map[];
    var recent: seq<Entry> := [];
    var i := 0;
    while i < |llmSpans|
      invariant 0 <= i <= |llmSpans|
      invariant forall j :: 0 <= j < i ==> !Unparsable(llmSpans[j])
      invariant recent == RecentPrefix(llmSpans, i, cutoff)
      invariant keys == KeysPrefix(llmSpans, i, cutoff)
      invariant forall k :: k in timeGroups <==> k in keys
      invariant forall k :: k in timeGroups ==> timeGroups[k] == BucketPrefix(llmSpans, i, cutoff, k)
    {
      var span := llmSpans[i];
      match AsTimestamp(Get(span, "start_time")) {
        case Missing =>
        case Unconvertible =>
          return Failure("start_time cannot be converted to a timestamp");
        case Parsed(start) =>
          var cutoffCompare := CutoffFor(start, cutoff);
          if AtOrAfter(start, cutoffCompare) {
            var entry := Entry(i, span);
            recent := recent + [entry];
            var timeKey := FloorToSecond(start);
            if timeKey !in timeGroups {
              KeysAreNonEmptyBuckets(llmSpans, i, cutoff);
              keys := keys + [timeKey];
              timeGroups := timeGroups[timeKey := []];
            }
            timeGroups := timeGroups[timeKey := timeGroups[timeKey] + [entry]];
          }
      }
      i := i + 1;
    }
    var groups: seq<Group> := [];
    var g := 0;
    while g < |keys|
      invariant 0 <= g <= |keys|
      invariant groups == SelectGroups(keys[..g], llmSpans, cutoff)
    {
      var k := keys[g];
      if |timeGroups[k]| > 1 {
        groups := groups + [Group(k, timeGroups[k])];
      }
      assert keys[..g + 1][..g] == keys[..g];
      g := g + 1;
    }
    assert keys[..|keys|] == keys;
    return Success(Grouping(groups, recent));
  }

  // ---------------------------------------------------------------------------
  // Properties of what the loop builds

  predicate NoDuplicates<T(==)>(s: seq<T>) {
    forall a, b :: 0 <= a < b < |s| ==> s[a] != s[b]
  }

  /** The recent list holds, in frame order, exactly the spans whose start time
      converts and is at or after the cutoff, each with its own position. */
  lemma {:induction false} RecentPrefixExact(spans: seq<Span>, n: nat, cutoff: int)
    requires n <= |spans|
    ensures forall e :: e in RecentPrefix(spans, n, cutoff) ==>
              e.idx < n && spans[e.idx] == e.span && RecentStart(e.span, cutoff).Some?
    ensures forall i :: 0 <= i < n && RecentStart(spans[i], cutoff).Some? ==>
              Entry(i, spans[i]) in RecentPrefix(spans, n, cutoff)
    ensures forall a, b :: 0 <= a < b < |RecentPrefix(spans, n, cutoff)| ==>
              RecentPrefix(spans, n, cutoff)[a].idx < RecentPrefix(spans, n, cutoff)[b].idx
  {
    if n > 0 {
      RecentPrefixExact(spans, n - 1, cutoff);
    }
  }

  /** A key is listed exactly when its bucket is non-empty. */
  lemma {:induction false} KeysAreNonEmptyBuckets(spans: seq<Span>, n: nat, cutoff: int)
    requires n <= |spans|
    ensures forall k :: k in KeysPrefix(spans, n, cutoff) <==> |BucketPrefix(spans, n, cutoff, k)| > 0
  {
    if n > 0 {
      KeysAreNonEmptyBuckets(spans, n - 1, cutoff);
    }
  }

  /** Every bucket entry is one of the first n spans, with its own position. */
  lemma {:induction false} BucketEntriesBefore(spans: seq<Span>, n: nat, cutoff: int, k: Timestamp)
    requires n <= |spans|
    ensures forall e :: e in BucketPrefix(spans, n, cutoff, k) ==> e.idx < n && spans[e.idx] == e.span
  {
    if n > 0 {
      BucketEntriesBefore(spans, n - 1, cutoff, k);
    }
  }

  /** The keys' buckets are non-empty and their first entries come in list order. */
  predicate InFirstCallOrder(ks: seq<Timestamp>, spans: seq<Span>, n: nat, cutoff: int)
    requires n <= |spans|
  {
    forall a, b :: 0 <= a < b < |ks| ==>
      0 <= FirstIdx(BucketPrefix(spans, n, cutoff, ks[a])) < FirstIdx(BucketPrefix(spans, n, cutoff, ks[b]))
  }

  /** Keys are listed in the order of their buckets' first entries. */
  lemma {:induction false} KeysInFirstCallOrder(spans: seq<Span>, n: nat, cutoff: int)
    requires n <= |spans|
    ensures InFirstCallOrder(KeysPrefix(spans, n, cutoff), spans, n, cutoff)
  {
    if n > 0 {
      var m := n - 1;
      KeysInFirstCallOrder(spans, m, cutoff);
      KeysAreNonEmptyBuckets(spans, m, cutoff);
      if KeysPrefix(spans, n, cutoff) == KeysPrefix(spans, m, cutoff) {
        OrderKeptWithoutNewKey(spans, m, n, cutoff);
      } else {
        OrderKeptWithNewKey(spans, m, n, cutoff);
      }
    }
  }

  /** An iteration that adds no key keeps the order: old buckets keep their first entries. */
  lemma OrderKeptWithoutNewKey(spans: seq<Span>, m: nat, n: nat, cutoff: int)
    requires n == m + 1 <= |spans|
    requires InFirstCallOrder(KeysPrefix(spans, m, cutoff), spans, m, cutoff)
    requires forall k :: k in KeysPrefix(spans, m, cutoff) ==> |BucketPrefix(spans, m, cutoff, k)| > 0
    requires KeysPrefix(spans, n, cutoff) == KeysPrefix(spans, m, cutoff)
    ensures InFirstCallOrder(KeysPrefix(spans, n, cutoff), spans, n, cutoff)
  {
    var ks := KeysPrefix(spans, m, cutoff);
    forall k | k in ks
      ensures FirstIdx(BucketPrefix(spans, n, cutoff, k)) == FirstIdx(BucketPrefix(spans, m, cutoff, k))
    {
      FirstIdxStable(spans, n, cutoff, k);
    }
  }

  /** An iteration that adds a key puts it last, and its first entry is the
      latest of all. */
  lemma OrderKeptWithNewKey(spans: seq<Span>, m: nat, n: nat, cutoff: int)
    requires n == m + 1 <= |spans|
    requires InFirstCallOrder(KeysPrefix(spans, m, cutoff), spans, m, cutoff)
    requires forall k :: k in KeysPrefix(spans, m, cutoff) <==> |BucketPrefix(spans, m, cutoff, k)| > 0
    requires KeysPrefix(spans, n, cutoff) != KeysPrefix(spans, m, cutoff)
    ensures InFirstCallOrder(KeysPrefix(spans, n, cutoff), spans, n, cutoff)
  {
    var ks0 := KeysPrefix(spans, m, cutoff);
    var ks := KeysPrefix(spans, n, cutoff);
    var t := RecentStart(spans[m], cutoff).value;
    var k0 := FloorToSecond(t);
    assert ks == ks0 + [k0] && k0 !in ks0;
    assert BucketPrefix(spans, m, cutoff, k0) == [];
    assert FirstIdx(BucketPrefix(spans, n, cutoff, k0)) == m;
    forall a | 0 <= a < |ks0| ensures FirstIdx(BucketPrefix(spans, n, cutoff, ks0[a])) < m {
      var b0 := BucketPrefix(spans, m, cutoff, ks0[a]);
      assert ks0[a] in ks0;
      BucketEntriesBefore(spans, m, cutoff, ks0[a]);
      assert b0[0] in b0;
      FirstIdxStable(spans, n, cutoff, ks0[a]);
    }
    forall a, b | 0 <= a < b < |ks|
      ensures 0 <= FirstIdx(BucketPrefix(spans, n, cutoff, ks[a])) < FirstIdx(BucketPrefix(spans, n, cutoff, ks[b]))
    {
      assert ks[a] == ks0[a] && ks0[a] in ks0;
      FirstIdxStable(spans, n, cutoff, ks0[a]);
      if b < |ks0| {
        assert ks[b] == ks0[b] && ks0[b] in ks0;
        FirstIdxStable(spans, n, cutoff, ks0[b]);
      }
    }
  }

  /** Appending to a non-empty bucket leaves its first entry alone. */
  lemma FirstIdxStable(spans: seq<Span>, n: nat, cutoff: int, k: Timestamp)
    requires 0 < n <= |spans|
    requires |BucketPrefix(spans, n - 1, cutoff, k)| > 0
    ensures FirstIdx(BucketPrefix(spans, n, cutoff, k)) == FirstIdx(BucketPrefix(spans, n - 1, cutoff, k))
  {
  }

  /** No key is listed twice. */
  lemma KeysDistinct(spans: seq<Span>, n: nat, cutoff: int)
    requires n <= |spans|
    ensures NoDuplicates(KeysPrefix(spans, n, cutoff))
  {
    KeysInFirstCallOrder(spans, n, cutoff);
  }

  /** The entries of the first `n` positions of `es` whose start floors to `k`. */
  function WithKey(es: seq<Entry>, cutoff: int, k: Timestamp): seq<Entry> {
    if |es| == 0 then []
    else
      WithKey(es[..|es| - 1], cutoff, k) +
      match RecentStart(es[|es| - 1].span, cutoff)
      case Some(t) => if FloorToSecond(t) == k then [es[|es| - 1]] else []
      case None => []
  }

  /** Each bucket is the subsequence of the recent list with that key, in the
      recent list's own order. */
  lemma {:induction false} BucketIsRecentWithKey(spans: seq<Span>, n: nat, cutoff: int, k: Timestamp)
    requires n <= |spans|
    ensures BucketPrefix(spans, n, cutoff, k) == WithKey(RecentPrefix(spans, n, cutoff), cutoff, k)
  {
    if n > 0 {
      BucketIsRecentWithKey(spans, n - 1, cutoff, k);
      var r0 := RecentPrefix(spans, n - 1, cutoff);
      if RecentStart(spans[n - 1], cutoff).Some? {
        var r := r0 + [Entry(n - 1, spans[n - 1])];
        assert RecentPrefix(spans, n, cutoff) == r;
        assert r[..|r| - 1] == r0;
        assert r[|r| - 1].span == spans[n - 1];
      } else {
        assert RecentPrefix(spans, n, cutoff) == r0;
        assert BucketPrefix(spans, n, cutoff, k) == BucketPrefix(spans, n - 1, cutoff, k);
      }
    }
  }

  function SumBucketSizes(keys: seq<Timestamp>, spans: seq<Span>, n: nat, cutoff: int): nat
    requires n <= |spans|
  {
    if |keys| == 0 then 0
    else SumBucketSizes(keys[..|keys| - 1], spans, n, cutoff) +
         |BucketPrefix(spans, n, cutoff, keys[|keys| - 1])|
  }

  /** One more iteration grows the total over distinct keys by one when the new
      span lands in one of them, and leaves it unchanged otherwise. */
  lemma {:induction false} SumBucketSizesStep(keys: seq<Timestamp>, spans: seq<Span>, n: nat, cutoff: int)
    requires 0 < n <= |spans|
    requires NoDuplicates(keys)
    ensures var step := RecentStart(spans[n - 1], cutoff);
            SumBucketSizes(keys, spans, n, cutoff) ==
            SumBucketSizes(keys, spans, n - 1, cutoff) +
            (if step.Some? && FloorToSecond(step.value) in keys then 1 else 0)
  {
    if |keys| > 0 {
      var init := keys[..|keys| - 1];
      assert NoDuplicates(init);
      SumBucketSizesStep(init, spans, n, cutoff);
      assert forall x :: x in keys <==> x in init || x == keys[|keys| - 1];
      var step := RecentStart(spans[n - 1], cutoff);
      if step.Some? && FloorToSecond(step.value) == keys[|keys| - 1] {
        assert keys[|keys| - 1] !in init;
      }
    }
  }

  /** The buckets partition the recent list: their sizes add up to its length
      (and by BucketIsRecentWithKey each holds the recent entries of its key). */
  lemma {:induction false} BucketsPartitionRecent(spans: seq<Span>, n: nat, cutoff: int)
    requires n <= |spans|
    ensures SumBucketSizes(KeysPrefix(spans, n, cutoff), spans, n, cutoff) ==
            |RecentPrefix(spans, n, cutoff)|
  {
    if n > 0 {
      var m := n - 1;
      BucketsPartitionRecent(spans, m, cutoff);
      KeysAreNonEmptyBuckets(spans, m, cutoff);
      KeysDistinct(spans, m, cutoff);
      var ks0 := KeysPrefix(spans, m, cutoff);
      SumBucketSizesStep(ks0, spans, n, cutoff);
      var step := RecentStart(spans[m], cutoff);
      if step.Some? && FloorToSecond(step.value) !in ks0 {
        NewKeyAddsItsBucket(spans, m, n, cutoff);
      } else {
        assert KeysPrefix(spans, n, cutoff) == ks0;
      }
    }
  }

  /** An iteration that opens a new bucket adds it, holding the one new entry. */
  lemma NewKeyAddsItsBucket(spans: seq<Span>, m: nat, n: nat, cutoff: int)
    requires n == m + 1 <= |spans|
    requires RecentStart(spans[m], cutoff).Some?
    requires FloorToSecond(RecentStart(spans[m], cutoff).value) !in KeysPrefix(spans, m, cutoff)
    requires forall k :: k in KeysPrefix(spans, m, cutoff) <==> |BucketPrefix(spans, m, cutoff, k)| > 0
    ensures SumBucketSizes(KeysPrefix(spans, n, cutoff), spans, n, cutoff) ==
            SumBucketSizes(KeysPrefix(spans, m, cutoff), spans, n, cutoff) + 1
  {
    var ks0 := KeysPrefix(spans, m, cutoff);
    var k0 := FloorToSecond(RecentStart(spans[m], cutoff).value);
    var ks := ks0 + [k0];
    assert KeysPrefix(spans, n, cutoff) == ks;
    assert ks[..|ks| - 1] == ks0;
    assert BucketPrefix(spans, m, cutoff, k0) == [];
  }

  /** The returned groups are exactly the buckets with more than one entry:
      each carries its whole bucket, a single-entry bucket never appears, and
      the groups come in the order of their first calls. */
  lemma {:induction false} SelectGroupsExact(keys: seq<Timestamp>, spans: seq<Span>, cutoff: int)
    ensures var gs := SelectGroups(keys, spans, cutoff);
            forall j :: 0 <= j < |gs| ==>
              gs[j].key in keys && gs[j].entries == BucketPrefix(spans, |spans|, cutoff, gs[j].key) &&
              |gs[j].entries| > 1
    ensures var gs := SelectGroups(keys, spans, cutoff);
            forall k :: k in keys && |BucketPrefix(spans, |spans|, cutoff, k)| > 1 ==>
              exists j :: 0 <= j < |gs| && gs[j].key == k
  {
    if |keys| > 0 {
      var init := keys[..|keys| - 1];
      SelectGroupsExact(init, spans, cutoff);
      assert forall x :: x in keys <==> x in init || x == keys[|keys| - 1];
      var gs0 := SelectGroups(init, spans, cutoff);
      var gs := SelectGroups(keys, spans, cutoff);
      var last := keys[|keys| - 1];
      assert forall j :: 0 <= j < |gs0| ==> gs[j] == gs0[j];
      forall k | k in keys && |BucketPrefix(spans, |spans|, cutoff, k)| > 1
        ensures exists j :: 0 <= j < |gs| && gs[j].key == k
      {
        if k in init {
          var j :| 0 <= j < |gs0| && gs0[j].key == k;
          assert gs[j].key == k;
        } else {
          assert k == last;
          assert gs[|gs0|].key == k;
        }
      }
    }
  }

  /** The frame position of the first entry of a bucket (-1 for an empty one). */
  function FirstIdx(es: seq<Entry>): int {
    if |es| == 0 then -1 else es[0].idx
  }

  /** Groups keep insertion order: their first calls come in frame order. */
  lemma {:induction false} SelectGroupsOrdered(keys: seq<Timestamp>, spans: seq<Span>, cutoff: int)
    requires forall a, b :: 0 <= a < b < |keys| ==>
               FirstIdx(BucketPrefix(spans, |spans|, cutoff, keys[a])) <
               FirstIdx(BucketPrefix(spans, |spans|, cutoff, keys[b]))
    ensures var gs := SelectGroups(keys, spans, cutoff);
            forall a, b :: 0 <= a < b < |gs| ==> FirstIdx(gs[a].entries) < FirstIdx(gs[b].entries)
  {
    if |keys| > 0 {
      var init := keys[..|keys| - 1];
      assert forall a :: 0 <= a < |init| ==> init[a] == keys[a];
      SelectGroupsOrdered(init, spans, cutoff);
      SelectGroupsExact(keys, spans, cutoff);
      SelectGroupsExact(init, spans, cutoff);
      var gs0 := SelectGroups(init, spans, cutoff);
      var gs := SelectGroups(keys, spans, cutoff);
      var last := keys[|keys| - 1];
      forall a, b | 0 <= a < b < |gs| ensures FirstIdx(gs[a].entries) < FirstIdx(gs[b].entries) {
        if b == |gs0| {
          assert gs[b].key == last;
          var ka := gs[a].key;
          assert ka in init;
          var ia :| 0 <= ia < |init| && init[ia] == ka;
          assert keys[ia] == ka;
        } else {
          assert gs[a] == gs0[a] && gs[b] == gs0[b];
        }
      }
    }
  }

  /** What `group_by_start_time` returns, stated on its own: groups are the
      multi-call buckets, in first-call order, and the recent list is
      partitioned by the buckets. */
  lemma DuplicateGroupsExact(spans: seq<Span>, cutoff: int)
    ensures var gs := DuplicateGroups(spans, cutoff);
            forall j :: 0 <= j < |gs| ==>
              |gs[j].entries| > 1 &&
              gs[j].entries == WithKey(RecentPrefix(spans, |spans|, cutoff), cutoff, gs[j].key)
    ensures var gs := DuplicateGroups(spans, cutoff);
            forall k :: |WithKey(RecentPrefix(spans, |spans|, cutoff), cutoff, k)| > 1 ==>
              exists j :: 0 <= j < |gs| && gs[j].key == k
    ensures var gs := DuplicateGroups(spans, cutoff);
            forall a, b :: 0 <= a < b < |gs| ==> FirstIdx(gs[a].entries) < FirstIdx(gs[b].entries)
  {
    var ks := KeysPrefix(spans, |spans|, cutoff);
    KeysAreNonEmptyBuckets(spans, |spans|, cutoff);
    KeysInFirstCallOrder(spans, |spans|, cutoff);
    assert forall a, b :: 0 <= a < b < |ks| ==>
             FirstIdx(BucketPrefix(spans, |spans|, cutoff, ks[a])) <
             FirstIdx(BucketPrefix(spans, |spans|, cutoff, ks[b]));
    SelectGroupsExact(ks, spans, cutoff);
    SelectGroupsOrdered(ks, spans, cutoff);
    forall k ensures BucketPrefix(spans, |spans|, cutoff, k) ==
                     WithKey(RecentPrefix(spans, |spans|, cutoff), cutoff, k) {
      BucketIsRecentWithKey(spans, |spans|, cutoff, k);
    }
  }
}

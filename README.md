# Phoenix LLM analyzer: span grouping and aggregation, modelled in Dafny

This project models the core of a tool that reads recorded LLM call traces
(spans) and looks for groups of calls that started in the same second, the
mark of a side-by-side model comparison. It then summarises each group for
display, for four export formats and for the prompt of an efficiency
analysis. The model covers:

- **Normalisation** (`SpanAnalyzer.extract_span_details`). A span is a
  row of a data frame, `map<string, Value>`. All rows of one frame carry
  the same keys (`SpanAnalyzer.IsFrame`), a cell pandas fills with NaN
  included, so a key absent from a row is a column absent from the frame. It becomes a fixed 19-field
  `CallDetails` record whose fields are `NA` (the `'N/A'` sentinel) or
  `Val(v)`. The provider falls back from one key to another. Input and
  output take the first truthy of three keys. The duration is end minus
  start, or the sentinel.
- **Python primitives**. `int()` on a string strips whitespace and accepts
  a sign and single underscores between digits. `str.strip()` removes
  every character for which `str.isspace()` holds, Unicode spaces included.
- **LLM filter** (`filter_llm_spans`). It is a row mask (kind `LLM`, or a
  name containing `openai` in any case) followed by a descending sort on
  the start time.
- **Time-bucket grouper** (`group_by_start_time`). It is written as the
  loop the source runs. Timestamps are integer microseconds with an
  "aware" flag. The clock and the lookback are parameters.
- **Group aggregation**. This covers the token and duration totals, the
  average over the full call count, and the first-seen model lists of the
  JSON and Excel exporters. It also covers the token total of the grouped
  display, the CSV and Markdown rows, and the 1-based group, call and
  variant numbering.
- **Efficiency prompt rows** (`EfficiencyAnalyzer`). This covers the
  variant letters, the 200-character previews, the y/n gate (the typed
  reply is a parameter) and the cost formula.
- **Command line**. `get_config_from_args` is a method over a mutable
  `PhoenixConfig` class. It returns the shared preset object itself and
  overwrites a field only when the argument differs from its default.
  `CLIAnalyzer._handle_exports` runs the exporters in a fixed order.

The modules follow the source files. `SpanModel` holds the cell values and
the primitive conversions. `SpanAnalyzer` and `TimeGrouping` cover the
analyzer. `GroupAggregates` holds the specification functions shared by
the display and exporter loops. `Display` and `Efficiency` are the
remaining classes of phoenix_analyzer.py. `Exporters` models exporters.py
and `Cli` models cli.py and config.py.

In a few places the code behaves differently from what a reader might
expect, and the model follows the code:

- One might expect a negative duration (end before start) to become the
  sentinel. The code has no sign check, so the duration is negative
  (`SpanAnalyzer.NegativeDurationKept`).
- One might expect spans whose start time cannot be parsed to be skipped
  by the grouping. In `group_by_start_time` the call to `pd.to_datetime`
  has no `try`, so such a span makes the whole call raise.
  `TimeGrouping.GroupByStartTime` returns `Failure` exactly then.
- One might expect input and output to take the first present, non-null
  value. The code chains `or`, so an empty string, empty list, zero or
  `False` is skipped as well.
- The filter test in test_analyzer.py expects 3 of its 4 spans to be kept.
  The mask keeps 2, because the only name that mentions openai
  (`openai_call`) belongs to a span whose kind is already `LLM`.
  `SpanAnalyzer.FilterFixture` proves the count of 2 for that fixture.

## Model

| member | source | states |
|---|---|---|
| `SpanModel.PyInt` | exporters.py:115 | `int(v)`: booleans as 0 and 1, integers as themselves, floats truncated toward zero, strings parsed as integer literals, None for everything that makes Python raise |
| `SpanModel.StripLeftRemovesLeadingSpace` | phoenix_analyzer.py:224 | stripping on the left removes exactly the leading run of `isspace()` characters |
| `SpanModel.StripRightRemovesTrailingSpace` | phoenix_analyzer.py:224 | stripping on the right removes exactly the trailing run of `isspace()` characters |
| `SpanModel.StripRemovesPadding` | phoenix_analyzer.py:224 | `strip()` of a text padded on both sides with any whitespace gives back the text, when the text itself neither starts nor ends with whitespace |
| `SpanModel.GroupedValueIgnoresUnderscores` | exporters.py:115 | the value of a literal with underscores is the decimal value of its digits alone |
| `SpanModel.ParseIntIgnoresPadding` | exporters.py:115 | whitespace around an integer literal does not change what `int()` makes of it |
| `SpanModel.ParseIntDigits` | exporters.py:115 | a run of digits, with single underscores allowed between digits, reads as its decimal value |
| `SpanModel.ParseIntPadded` | exporters.py:115 | `int(" 150")` is 150 |
| `SpanModel.ParseIntUnderscored` | exporters.py:115 | `int("1_000")` is 1000 |
| `SpanModel.ParseIntSigned` | exporters.py:115 | `int("-42")` followed by a newline is -42 |
| `SpanModel.ParseIntRefuses` | exporters.py:115 | doubled, leading or trailing underscores, a bare sign, a space after the sign and the empty string make `int()` raise |
| `SpanAnalyzer.Normalize` | phoenix_analyzer.py:113-160 | the normalised record of one span: the looked-up fields, the provider fallback, the first truthy input and output, and the duration |
| `SpanAnalyzer.Duration` | phoenix_analyzer.py:115-123 | end minus start when both times are present and convert to timestamps of one kind, otherwise 'N/A' |
| `SpanAnalyzer.FirstTruthyIsFirst` | phoenix_analyzer.py:126-138 | the `or` chain yields the sentinel iff no key holds a truthy value, and otherwise the value of the first key in list order that does |
| `SpanAnalyzer.InputOutputFirstTruthy` | phoenix_analyzer.py:126-138 | input is `input`, else `input.value`, else the input-messages attribute, else 'N/A' (the same for output); a chosen value is always truthy |
| `SpanAnalyzer.NormalizeLooksUp` | phoenix_analyzer.py:140-160 | every plainly looked-up field of the normalised record is 'N/A' iff its key is absent, and otherwise carries the stored value unchanged (even None or NaN) |
| `SpanAnalyzer.FrameSentinelMeansNoColumn` | phoenix_analyzer.py:140-160 | in a frame, a looked-up field of a row is 'N/A' iff the frame has no such column; a column that exists gives every row its cell, NaN or None included |
| `SpanAnalyzer.ProviderFallback` | phoenix_analyzer.py:149 | provider is the provider attribute when that key is present (even holding None), else the system attribute, and 'N/A' iff both keys are absent |
| `SpanAnalyzer.DurationDefinedIff` | phoenix_analyzer.py:115-123 | the duration is defined iff both times convert to timestamps of the same kind, and is then end minus start; any other case leaves 'N/A' without raising |
| `SpanAnalyzer.NegativeDurationKept` | phoenix_analyzer.py:118-121 | an end one second before the start gives a duration of minus one second, not the sentinel |
| `SpanAnalyzer.ContainsIgnoreCaseIff` | phoenix_analyzer.py:102 | the case-insensitive scan finds the pattern iff it occurs at some position of the name |
| `SpanAnalyzer.IsLlmSpan` | phoenix_analyzer.py:100-103 | a span passes the mask when its kind is 'LLM' or its name is a string mentioning openai in any case |
| `SpanAnalyzer.KeepLlm` | phoenix_analyzer.py:99-103 | the rows that pass the mask, in frame order |
| `SpanAnalyzer.HasColumnSomeRow` | phoenix_analyzer.py:99-103 | a column exists iff some row carries the key |
| `SpanAnalyzer.KeepLlmMembers` | phoenix_analyzer.py:100-103 | the mask keeps exactly the spans of kind LLM or with a name mentioning openai, and never more spans than it was given |
| `SpanAnalyzer.SortByStartDesc` | phoenix_analyzer.py:110 | the rows ordered by start time, latest first, missing times last |
| `SpanAnalyzer.SortByStartDescCorrect` | phoenix_analyzer.py:110 | the sort returns a permutation of its input ordered by start time descending, missing times last |
| `SpanAnalyzer.FilterLlmSpans` | phoenix_analyzer.py:98-110 | on the rows of a frame: succeeds iff the kind and name columns exist and, unless nothing matched, the start column exists and the kept start times do not mix naive and aware timestamps; the result is again a frame, its timestamps are of one kind, it is sorted descending, is a permutation of the kept spans, and holds exactly the input spans that pass the mask |
| `SpanAnalyzer.FilterMixedKindsFails` | phoenix_analyzer.py:110 | two kept rows starting at an aware and at a naive timestamp make the sort raise |
| `SpanAnalyzer.FixtureNamesWithoutOpenai` | test_analyzer.py:54-57 | neither 'api_call' nor 'db_query' mentions openai in any case |
| `SpanAnalyzer.FixtureMask` | test_analyzer.py:54-57 | of the four test spans, the mask keeps the ChatCompletion and openai_call spans and rejects api_call and db_query |
| `SpanAnalyzer.FilterFixture` | test_analyzer.py:51-66 | filtering the four test spans succeeds and returns 2 spans, the first and the third |
| `TimeGrouping.FloorToSecond` | phoenix_analyzer.py:184 | the bucket key keeps the timestamp's kind, is a whole second, and is the greatest whole second not after the start |
| `TimeGrouping.FloorIdempotent` | phoenix_analyzer.py:184 | flooring a floored key changes nothing |
| `TimeGrouping.SameBucketIffSameSecond` | phoenix_analyzer.py:184-185 | two start times share a bucket iff they are of the same kind and in the same whole second |
| `TimeGrouping.CutoffFor` | phoenix_analyzer.py:176-180 | the cutoff compared with a start time has the start time's kind (zone stripped for naive starts) and the cutoff instant |
| `TimeGrouping.RecentIffAtOrAfterCutoff` | phoenix_analyzer.py:171-183 | a span is recent iff its start time converts and is at or after the cutoff (inclusive) |
| `TimeGrouping.LookbackBoundary` | phoenix_analyzer.py:164-182 | a start exactly at `now - minutes_back` is recent, one a second earlier is not |
| `TimeGrouping.GroupByStartTime` | phoenix_analyzer.py:162-197 | the loop fails iff some start time is present but unconvertible; otherwise its recent list and its duplicate groups are the ones the specification functions define |
| `TimeGrouping.RecentPrefixExact` | phoenix_analyzer.py:170-183 | the recent list holds every recent span once with its own position, nothing else, in frame order |
| `TimeGrouping.KeysAreNonEmptyBuckets` | phoenix_analyzer.py:183-185 | a key is in the dictionary iff its bucket is non-empty |
| `TimeGrouping.KeysInFirstCallOrder` | phoenix_analyzer.py:185-190 | dictionary keys are listed in the order of their buckets' first calls |
| `TimeGrouping.KeysDistinct` | phoenix_analyzer.py:167-185 | no key is listed twice |
| `TimeGrouping.BucketIsRecentWithKey` | phoenix_analyzer.py:183-185 | each bucket is exactly the subsequence of the recent list whose start floors to its key, in recent-list order |
| `TimeGrouping.BucketsPartitionRecent` | phoenix_analyzer.py:183-185 | the bucket sizes add up to the length of the recent list: each recent span is in exactly one bucket |
| `TimeGrouping.SelectGroupsExact` | phoenix_analyzer.py:190 | every returned group is a whole bucket with more than one entry, and every such bucket is returned |
| `TimeGrouping.SelectGroupsOrdered` | phoenix_analyzer.py:190 | the comprehension keeps insertion order |
| `TimeGrouping.DuplicateGroupsExact` | phoenix_analyzer.py:162-197 | the returned groups are exactly the multi-call buckets of the recent list, each in recent order, listed in first-call order; a single-call bucket never appears |
| `GroupAggregates.TokenStepOf` | exporters.py:113-119 | a call's token step is skipped iff its tokens read 'N/A', raises iff `int()` fails on them, and otherwise adds their integer value |
| `GroupAggregates.TotalsAppend` | exporters.py:113-121 | the token and duration totals of a concatenation are the sums of the parts: no call poisons another's contribution |
| `GroupAggregates.SkippedCallAddsNothing` | exporters.py:113-119 | a call with 'N/A' or unconvertible tokens adds no tokens, and an unconvertible one adds no duration either, because both sums share one try block |
| `GroupAggregates.AverageOverAllCalls` | exporters.py:122 | the average is 0 for an empty group and otherwise the duration total divided by the full call count |
| `GroupAggregates.ThreeCallScenario` | exporters.py:83-122 | calls with 100/150/200 tokens and 500/750/1000 ms give 450 tokens and a 750 ms average |
| `GroupAggregates.MixedCallScenario` | exporters.py:113-122 | a call with neither tokens nor duration beside one with 100 tokens and 1000 ms gives 100 tokens and a 500 ms average |
| `GroupAggregates.DistinctFirstSeen` | exporters.py:110-111 | the deduplicated list holds each element of the input exactly once, nothing else, in first-appearance order |
| `GroupAggregates.ModelsStep` | exporters.py:110-111 | one more call appends its model to the JSON model list iff it is not already there |
| `GroupAggregates.CountedModelsStep` | exporters.py:175-183 | one more call appends its model to the Excel model list iff its token conversion did not raise and the model is new |
| `GroupAggregates.CountedModelsWithinModels` | exporters.py:175-183 | the models reaching the Excel summary are among the group's models, and are all of them when no conversion raises |
| `GroupAggregates.ExcelModelsWithinJsonModels` | exporters.py:110-111 | the Excel summary's model list is drawn from the JSON report's, and equals it when no call's token count fails to convert |
| `Display.AddTokens` | phoenix_analyzer.py:346-350 | adds `int(total_tokens)` unless the tokens read 'N/A' or fail to convert, in which case the total is unchanged |
| `Display.DisplaySingleGroup` | phoenix_analyzer.py:327-356 | the combined tokens are the skip-don't-poison group total; an average is shown iff that total is positive, and then it is the total over the call count |
| `Display.DisplayGroupedCalls` | phoenix_analyzer.py:315-325 | nothing for no groups; otherwise one summary per group, numbered from 1 in dictionary order, with its call count and token total |
| `Efficiency.VariantLetters` | phoenix_analyzer.py:246 | calls 1 to 26 are labelled with the letters A to Z, distinct calls with distinct letters |
| `Efficiency.Preview` | phoenix_analyzer.py:252-253 | 'N/A' data previews as 'N/A'; other data as a prefix of its text of at most 200 characters, all of it when it is that short |
| `Efficiency.VariantRowsFacts` | phoenix_analyzer.py:242-255 | the k-th row (0-based) is labelled with code point 'A'+k, carries its call's model, tokens and duration, and previews of at most 200 characters |
| `Efficiency.AnalyzeSingleGroup` | phoenix_analyzer.py:236-255 | the loop builds one row per call, in group order, labelled by its 1-based call number |
| `Efficiency.Approves` | phoenix_analyzer.py:224-225 | the reply, lowered and stripped, reads "y" or "yes" |
| `Efficiency.ApprovesPaddedUpperCase` | phoenix_analyzer.py:224-225 | the reply " YES" followed by a newline is accepted |
| `Efficiency.LowerStringKeepsLowerCase` | phoenix_analyzer.py:224 | `lower()` leaves a reply without upper-case letters unchanged |
| `Efficiency.NormalizeReplyDropsPadding` | phoenix_analyzer.py:224 | `lower().strip()` of a lower-case reply padded with any whitespace is the reply without its padding |
| `Efficiency.NormalizeReplyKeepsCleanReply` | phoenix_analyzer.py:224 | `lower().strip()` leaves a lower-case reply with no surrounding whitespace unchanged |
| `Efficiency.ApprovesPaddedYes` | phoenix_analyzer.py:224-225 | "y" and "yes" are accepted with any whitespace before and after them |
| `Efficiency.ApprovesUnicodePadding` | phoenix_analyzer.py:224-225 | "yes" followed by a NO-BREAK SPACE or by an information separator is accepted |
| `Efficiency.DeclinesOtherReplies` | phoenix_analyzer.py:224-227 | "no", the empty reply and "y e s" are declined |
| `Efficiency.AnalyzeGroupedCalls` | phoenix_analyzer.py:207-234 | no client, no groups or a declined prompt stop the analysis; otherwise every group gets its rows, numbered from 1 in dictionary order |
| `Efficiency.AnalysisCost` | phoenix_analyzer.py:292 | the reported total tokens times 0.000002 dollars |
| `Efficiency.AnalysisCostLinear` | phoenix_analyzer.py:292 | the analysis cost is linear in the reported tokens, 0 for none and one dollar for 500000 |
| `Exporters.CsvRowCount` | exporters.py:27-46 | the CSV has one row per call: its length is the sum of the group sizes |
| `Exporters.CsvRowsLayout` | exporters.py:27-46 | the j-th call of the i-th group sits after the earlier groups' calls, numbered (i+1, j+1), with its normalised fields |
| `Exporters.ExportGroupedCallsToCsv` | exporters.py:19-51 | the nested loops build exactly the CSV rows of all groups |
| `Exporters.AddToTotals` | exporters.py:113-119 | the shared try block adds the call's tokens and duration share and reports whether the conversion raised |
| `Exporters.AccumulateGroup` | exporters.py:86-119 | the per-call loop yields one call entry per call in order, each model once in first-seen order, and the token and duration totals of the shared try block |
| `Exporters.JsonGroup` | exporters.py:70-124 | one group entry: every call in order with 1-based ids, the call count, each model once in first-seen order, the token total and the average over all calls |
| `Exporters.ExportEfficiencyReport` | exporters.py:53-128 | the report counts the groups, carries the version, has one entry per group with ids 1..n, and the analysis results only when there are any |
| `Exporters.JoinModels` | exporters.py:189 | the models joined with ', ', the sentinel as 'N/A', or a failure when one is not a string |
| `Exporters.JoinModelsFailsIffNonString` | exporters.py:189 | joining the model list fails iff some model is neither the sentinel nor a string |
| `Exporters.JoinModelsExamples` | exporters.py:189 | two models are joined with a comma and a space; a numeric model makes the join fail |
| `Exporters.ExcelGroup` | exporters.py:149-183 | one group's detail rows, token and duration totals, and the model list of calls whose conversion did not raise |
| `Exporters.ExcelSheetsOfGroup` | exporters.py:149-192 | a summary row appears iff the group's models join, with the call count, joined models, token total and average over all calls |
| `Exporters.ExportToExcel` | exporters.py:136-199 | fails iff some group's model list cannot be joined; otherwise the detail sheet is the CSV rows and the summary has one row per group numbered from 1 |
| `Exporters.MarkdownSection` | exporters.py:221-234 | a group's section has its number, key and call count, and one row per call with variant letter 'A'+k |
| `Exporters.GenerateMarkdownReport` | exporters.py:208-242 | the document counts the groups, has one section per group numbered from 1, and carries the analysis results |
| `Cli.BaseValues` | cli.py:131-138 | the named preset's values, or the defaults for any other name |
| `Cli.Override` | cli.py:141-152 | the six overridable fields, each replaced by its argument when that differs from its default |
| `Cli.Pick` | cli.py:141-152 | one override gives the argument or the current value, and the current value whenever the argument equals its default |
| `Cli.OverrideTouchesSixFields` | cli.py:140-152 | only endpoint, project, fallback project, minutes back, OpenAI model and max recent can change |
| `Cli.NonDefaultArgumentWins` | cli.py:141-152 | each of the six arguments wins whenever it differs from its default |
| `Cli.NoOptionsChangeNothing` | cli.py:141-152 | with every argument at its default, the chosen configuration is returned unchanged |
| `Cli.OverrideIdempotent` | cli.py:141-152 | applying the same command line twice is applying it once |
| `Cli.DefaultValueCannotBeRequested` | cli.py:141-152 | a field the preset moved away from its default stays away from it, whatever the command line says |
| `Cli.ProductionIgnoresFifteenMinutes` | cli.py:131-148 | `--config prod --minutes-back 15` keeps the production lookback of 60 minutes and its 20 recent calls |
| `Cli.OverridesAccumulate` | cli.py:132-152 | because the shared preset is overwritten, a second selection starts from the first one's overrides |
| `Cli.PhoenixConfig.constructor` | config.py:11-40 | the new configuration holds the given fields, and the environment's key when no key was given |
| `Cli.ApplyOverrides` | cli.py:141-152 | the configuration object's new fields are the overrides applied to its old ones |
| `Cli.GetConfigFromArgs` | cli.py:128-154 | returns the named preset object itself (the others untouched) or a fresh default, with its fields overridden from the arguments |
| `Cli.RequestedExportsOrder` | cli.py:217-231 | each export runs iff its flag is set, in the order csv, excel, json, markdown |
| `Cli.CliAnalyzer.constructor` | cli.py:160-165 | a new analyzer keeps its arguments and starts with no analysis results |
| `Cli.CliAnalyzer.HandleExports` | cli.py:210-236 | nothing without groups; otherwise the requested artifacts in fixed order, each what its exporter builds, stopping after the CSV when the Excel join fails |

## Left out

- Connecting to the trace backend and fetching spans, with its fallback project name (`PhoenixClient.connect`, `fetch_spans`). These are network calls; spans enter the model as a sequence of records.
- The OpenAI request and its response. The model builds the prompt rows and applies the cost formula to a token count given as a parameter. The text of the prompt itself is not built.
- Every `print` and the console rendering, including `display_recent_calls_summary` and `format_json_output`. The `input()` call is replaced by the reply string as a parameter.
- File writing: CSV, Excel, JSON and Markdown output, file names and the export timestamp. The model builds the in-memory rows, sheets, report and sections.
- The orchestration in `PhoenixAnalyzer.run_analysis` and `CLIAnalyzer.run_analysis`, the argument parser and `main`'s exit handling.
- `os.getenv` and `load_dotenv`: the environment's API key is a parameter.
- SpanAnalyzer.DurationDefinedIff: the duration is exact microseconds; the conversion to milliseconds rounded to two decimals (floating point) is not modelled.
- SpanModel.AsTimestamp: only values that already are timestamps convert. The date-string formats that `pd.to_datetime` accepts are not modelled, so a string start or end time counts as unconvertible. For the same reason the filter's sort treats a start cell that is not a timestamp as missing (NaT, sorted last), where pandas sorts a numeric start column by number and a string one by text.
- SpanAnalyzer.ContainsIgnoreCaseIff: case folding covers ASCII letters only, not the Unicode case mapping pandas uses.
- SpanAnalyzer.FilterLlmSpans: two pandas failures are not modelled. First, `.str.contains` raises AttributeError when the name column holds no strings, for instance when every name is NaN. Second, the sort raises TypeError when kept start times mix timestamps with strings or numbers. Whether either happens depends on how pandas infers the column types. The model fails only on the missing columns and on naive and aware timestamps mixed together.
- SpanAnalyzer.SortByStartDescCorrect: the model uses a stable sort. The source's default pandas sort is not stable, so the order of spans with equal start times is unspecified there.
- GroupAggregates.DistinctFirstSeen: models are compared with structural equality. Python equates `1`, `1.0` and `True` and may list a NaN model more than once. A model read as the sentinel (`NA`) and a stored string "N/A" are both the string 'N/A' in Python and would be listed once; the model keeps them as two entries. None of these is modelled.
- GroupAggregates.AverageOverAllCalls: averages are exact reals. Float rounding of the duration sum and the printed `.1f` formatting are not modelled.
- Efficiency.Preview: `str()` of a value that is not a string is a parameter (`render`), not Python's own formatting.
- Efficiency.AnalysisCostLinear: the cost is an exact real product, not a float.
- SpanModel.PyInt: only ASCII digits are read. Python's `int()` also accepts other Unicode decimal digits, such as Arabic-Indic ones; the model treats such a string as one that makes `int()` raise.
- GroupAggregates.TokenStepOf: inherits the gap of SpanModel.PyInt: tokens written in non-ASCII decimal digits count as raising.
- Display.AddTokens: inherits the gap of SpanModel.PyInt: tokens written in non-ASCII decimal digits are skipped.
- Exporters.AddToTotals: inherits the gap of SpanModel.PyInt: tokens written in non-ASCII decimal digits count as raising, so that call's duration is skipped too.
- Efficiency.LowerStringKeepsLowerCase: `lower()` is modelled on ASCII letters only; Python lowers Unicode letters too. Whether a reply is accepted does not depend on this, because only 'Y', 'E' and 'S' lower to the letters of "y" and "yes".
- Efficiency.NormalizeReplyKeepsCleanReply: lower case means no ASCII upper-case letter, as for Efficiency.LowerStringKeepsLowerCase; the whitespace set is Python's full one.
- Efficiency.NormalizeReplyDropsPadding: lower case means no ASCII upper-case letter, as for Efficiency.LowerStringKeepsLowerCase.
- Cli.CliAnalyzer.HandleExports: only the join failure is modelled as stopping the exports. A failure while writing a file is not modelled. For example, pandas refuses to write timezone-aware 'Start Time' values to Excel. Such a failure would also stop the JSON and Markdown exports that follow.
- Wall-clock time: `datetime.now` is the `nowMicros` parameter, and aware timestamps are taken to be UTC microseconds.

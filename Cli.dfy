/** The configuration of config.py and the two pieces of cli.py that decide
    what a run uses and produces: `get_config_from_args`, which picks a
    preset object and overwrites some of its fields in place, and
    `CLIAnalyzer._handle_exports`, which runs the requested exporters in a
    fixed order. */
module Cli {
  import opened SpanModel
  import opened TimeGrouping
  import opened Exporters

  // ---------------------------------------------------------------------------
  // Configuration

  /** The defaults of `PhoenixConfig`; the command-line defaults repeat the
      first six of them, and an argument overrides only when it differs. */
  const DefaultEndpoint: string := "http://localhost:6006"
  const DefaultProject: string := "playground"
  const DefaultFallbackProject: string := "default"
  const DefaultMinutesBack: int := 15
  const DefaultOpenaiModel: string := "gpt-4o-mini"
  const DefaultMaxRecent: int := 10

  /** A snapshot of the fields of a `PhoenixConfig`. */
  datatype ConfigValues = ConfigValues(
    endpoint: string,
    projectName: string,
    fallbackProject: string,
    minutesBack: int,
    openaiApiKey: Option<string>,
    openaiModel: string,
    maxAnalysisTokens: int,
    analysisTemperature: real,
    maxRecentCallsDisplay: int,
    maxInputPreviewLength: int,
    maxOutputPreviewLength: int,
    enableCostTracking: bool,
    costPerToken: real)

  /** `PhoenixConfig()` once `__post_init__` has read the key from the
      environment; `envKey` is what `os.getenv("OPENAI_API_KEY")` returns. */
  function Defaults(envKey: Option<string>): ConfigValues {
    ConfigValues(DefaultEndpoint, DefaultProject, DefaultFallbackProject, DefaultMinutesBack,
                 envKey, DefaultOpenaiModel, 1000, 0.3, DefaultMaxRecent, 200, 200, true, 0.000002)
  }

  function DevelopmentPreset(envKey: Option<string>): ConfigValues {
    Defaults(envKey).(minutesBack := 5, maxRecentCallsDisplay := 5)
  }

  function ProductionPreset(envKey: Option<string>): ConfigValues {
    Defaults(envKey).(minutesBack := 60, maxRecentCallsDisplay := 20, enableCostTracking := true)
  }

  function ExtendedPreset(envKey: Option<string>): ConfigValues {
    Defaults(envKey).(minutesBack := 120, maxAnalysisTokens := 2000, maxRecentCallsDisplay := 25)
  }

  /** The mutable dataclass. */
  class PhoenixConfig {
    var endpoint: string
    var projectName: string
    var fallbackProject: string
    var minutesBack: int
    var openaiApiKey: Option<string>
    var openaiModel: string
    var maxAnalysisTokens: int
    var analysisTemperature: real
    var maxRecentCallsDisplay: int
    var maxInputPreviewLength: int
    var maxOutputPreviewLength: int
    var enableCostTracking: bool
    var costPerToken: real

    function Values(): ConfigValues
      reads this
    {
      ConfigValues(endpoint, projectName, fallbackProject, minutesBack, openaiApiKey, openaiModel,
                   maxAnalysisTokens, analysisTemperature, maxRecentCallsDisplay,
                   maxInputPreviewLength, maxOutputPreviewLength, enableCostTracking, costPerToken)
    }

    /** The generated `__init__` with the given field values, followed by
        `__post_init__`, which takes the key from the environment when none
        was given. */
    constructor (v: ConfigValues, envKey: Option<string>)
      ensures Values() == v.(openaiApiKey := if v.openaiApiKey.None? then envKey else v.openaiApiKey)
    {
      endpoint := v.endpoint;
      projectName := v.projectName;
      fallbackProject := v.fallbackProject;
      minutesBack := v.minutesBack;
      openaiApiKey := if v.openaiApiKey.None? then envKey else v.openaiApiKey;
      openaiModel := v.openaiModel;
      maxAnalysisTokens := v.maxAnalysisTokens;
      analysisTemperature := v.analysisTemperature;
      maxRecentCallsDisplay := v.maxRecentCallsDisplay;
      maxInputPreviewLength := v.maxInputPreviewLength;
      maxOutputPreviewLength := v.maxOutputPreviewLength;
      enableCostTracking := v.enableCostTracking;
      costPerToken := v.costPerToken;
    }
  }

  // ---------------------------------------------------------------------------
  // Command-line arguments and the configuration they select

  /** The parsed command line; `configName` is the `--config` choice, if any. */
  datatype Args = Args(
    configName: Option<string>,
    endpoint: string,
    project: string,
    fallbackProject: string,
    minutesBack: int,
    noOpenai: bool,
    openaiModel: string,
    autoAnalyze: bool,
    exportCsv: bool,
    exportExcel: bool,
    exportJson: bool,
    exportMarkdown: bool,
    outputDir: string,
    quiet: bool,
    maxRecent: int)

  /** The command line with no option given. */
  const NoOptions: Args := Args(None, DefaultEndpoint, DefaultProject, DefaultFallbackProject,
                                DefaultMinutesBack, false, DefaultOpenaiModel, false,
                                false, false, false, false, "exports", false, DefaultMaxRecent)

  /** The fields of the chosen configuration before any override: the preset
      named by `--config`, or a fresh default. */
  function BaseValues(configName: Option<string>, dev: ConfigValues, prod: ConfigValues,
                      extended: ConfigValues, defaults: ConfigValues): ConfigValues {
    if configName == Some("dev") then dev
    else if configName == Some("prod") then prod
    else if configName == Some("extended") then extended
    else defaults
  }

  /** One override: the argument when it differs from its default, the
      current value otherwise. */
  function Pick<T(==)>(arg: T, default: T, current: T): (v: T)
    ensures v == arg || v == current
    ensures arg == default ==> v == current
  {
    if arg != default then arg else current
  }

  /** The six overrides of `get_config_from_args`. */
  function Override(base: ConfigValues, args: Args): ConfigValues {
    base.(
      endpoint := Pick(args.endpoint, DefaultEndpoint, base.endpoint),
      projectName := Pick(args.project, DefaultProject, base.projectName),
      fallbackProject := Pick(args.fallbackProject, DefaultFallbackProject, base.fallbackProject),
      minutesBack := Pick(args.minutesBack, DefaultMinutesBack, base.minutesBack),
      openaiModel := Pick(args.openaiModel, DefaultOpenaiModel, base.openaiModel),
      maxRecentCallsDisplay := Pick(args.maxRecent, DefaultMaxRecent, base.maxRecentCallsDisplay))
  }

  /** Only the six overridable fields can change; the key, the analysis
      limits, the preview lengths and the cost settings stay as they were. */
  lemma OverrideTouchesSixFields(base: ConfigValues, args: Args)
    ensures var v := Override(base, args);
            v.(endpoint := base.endpoint, projectName := base.projectName,
               fallbackProject := base.fallbackProject, minutesBack := base.minutesBack,
               openaiModel := base.openaiModel, maxRecentCallsDisplay := base.maxRecentCallsDisplay) == base
  {
  }

  /** An argument different from its default always wins. */
  lemma NonDefaultArgumentWins(base: ConfigValues, args: Args)
    ensures var v := Override(base, args);
            && (args.endpoint != DefaultEndpoint ==> v.endpoint == args.endpoint)
            && (args.project != DefaultProject ==> v.projectName == args.project)
            && (args.fallbackProject != DefaultFallbackProject ==> v.fallbackProject == args.fallbackProject)
            && (args.minutesBack != DefaultMinutesBack ==> v.minutesBack == args.minutesBack)
            && (args.openaiModel != DefaultOpenaiModel ==> v.openaiModel == args.openaiModel)
            && (args.maxRecent != DefaultMaxRecent ==> v.maxRecentCallsDisplay == args.maxRecent)
  {
  }

  /** With no option given the chosen configuration is used as it is. */
  lemma NoOptionsChangeNothing(base: ConfigValues)
    ensures Override(base, NoOptions) == base
  {
  }

  /** Applying the same command line twice is applying it once. */
  lemma OverrideIdempotent(base: ConfigValues, args: Args)
    ensures Override(Override(base, args), args) == Override(base, args)
  {
  }

  /** A field the preset sets away from the default cannot be brought back to
      the default from the command line: passing the default value is
      indistinguishable from passing nothing. */
  lemma DefaultValueCannotBeRequested(base: ConfigValues, args: Args)
    ensures var v := Override(base, args);
            && (base.minutesBack != DefaultMinutesBack ==> v.minutesBack != DefaultMinutesBack)
            && (base.maxRecentCallsDisplay != DefaultMaxRecent ==> v.maxRecentCallsDisplay != DefaultMaxRecent)
            && (base.endpoint != DefaultEndpoint ==> v.endpoint != DefaultEndpoint)
            && (base.projectName != DefaultProject ==> v.projectName != DefaultProject)
            && (base.fallbackProject != DefaultFallbackProject ==> v.fallbackProject != DefaultFallbackProject)
            && (base.openaiModel != DefaultOpenaiModel ==> v.openaiModel != DefaultOpenaiModel)
  {
  }

  /** `--config prod --minutes-back 15` looks back 60 minutes, not 15. */
  lemma ProductionIgnoresFifteenMinutes(envKey: Option<string>)
    ensures var args := NoOptions.(configName := Some("prod"), minutesBack := 15);
            var base := BaseValues(args.configName, DevelopmentPreset(envKey), ProductionPreset(envKey),
                                   ExtendedPreset(envKey), Defaults(envKey));
            Override(base, args).minutesBack == 60 && Override(base, args).maxRecentCallsDisplay == 20
  {
  }

  /** Since the preset object itself is overwritten, a second selection of the
      same preset starts from the first one's overrides: a field the second
      command line leaves at its default keeps the first one's value. */
  lemma OverridesAccumulate(base: ConfigValues, first: Args, second: Args)
    requires second.minutesBack == DefaultMinutesBack && second.endpoint == DefaultEndpoint
    ensures Override(Override(base, first), second).minutesBack == Override(base, first).minutesBack
    ensures Override(Override(base, first), second).endpoint == Override(base, first).endpoint
  {
  }

  /** The override half of `get_config_from_args`, written into `config` field
      by field; a field whose argument is at its default keeps its value. */
  method ApplyOverrides(config: PhoenixConfig, args: Args)
    modifies config
    ensures config.Values() == Override(old(config.Values()), args)
  {
    config.endpoint := Pick(args.endpoint, DefaultEndpoint, config.endpoint);
    config.projectName := Pick(args.project, DefaultProject, config.projectName);
    config.fallbackProject := Pick(args.fallbackProject, DefaultFallbackProject, config.fallbackProject);
    config.minutesBack := Pick(args.minutesBack, DefaultMinutesBack, config.minutesBack);
    config.openaiModel := Pick(args.openaiModel, DefaultOpenaiModel, config.openaiModel);
    config.maxRecentCallsDisplay := Pick(args.maxRecent, DefaultMaxRecent, config.maxRecentCallsDisplay);
  }

  /** `get_config_from_args`: the preset named by `--config` (the shared
      object itself, not a copy) or a new default one, with the six overrides
      written into it. */
  method GetConfigFromArgs(args: Args, dev: PhoenixConfig, prod: PhoenixConfig, extended: PhoenixConfig,
                           envKey: Option<string>)
    returns (config: PhoenixConfig)
    requires dev != prod && dev != extended && prod != extended
    modifies dev, prod, extended
    ensures args.configName == Some("dev") ==> config == dev && unchanged(prod, extended)
    ensures args.configName == Some("prod") ==> config == prod && unchanged(dev, extended)
    ensures args.configName == Some("extended") ==> config == extended && unchanged(dev, prod)
    ensures args.configName !in {Some("dev"), Some("prod"), Some("extended")} ==>
              fresh(config) && unchanged(dev, prod, extended)
    ensures config.Values() ==
            Override(BaseValues(args.configName, old(dev.Values()), old(prod.Values()),
                                old(extended.Values()), Defaults(envKey)), args)
  {
    if args.configName == Some("dev") {
      config := dev;
    } else if args.configName == Some("prod") {
      config := prod;
    } else if args.configName == Some("extended") {
      config := extended;
    } else {
      config := new PhoenixConfig(Defaults(None), envKey);
    }
    ApplyOverrides(config, args);
  }

  // ---------------------------------------------------------------------------
  // Exports

  datatype ExportKind = CsvExport | ExcelExport | JsonExport | MarkdownExport

  /** What an exporter produced, in memory. */
  datatype Artifact =
    | CsvFile(rows: seq<CallRow>)
    | ExcelFile(workbook: Workbook)
    | JsonFile(report: Report)
    | MarkdownFile(doc: MdReport)

  function KindOf(a: Artifact): ExportKind {
    match a
    case CsvFile(_) => CsvExport
    case ExcelFile(_) => ExcelExport
    case JsonFile(_) => JsonExport
    case MarkdownFile(_) => MarkdownExport
  }

  function Kinds(written: seq<Artifact>): (ks: seq<ExportKind>)
    ensures |ks| == |written|
  {
    seq(|written|, k requires 0 <= k < |written| => KindOf(written[k]))
  }

  /** The exports a command line asks for, in the order they run. */
  function RequestedExports(args: Args): (ks: seq<ExportKind>)
    ensures |ks| <= 4
  {
    (if args.exportCsv then [CsvExport] else []) +
    (if args.exportExcel then [ExcelExport] else []) +
    (if args.exportJson then [JsonExport] else []) +
    (if args.exportMarkdown then [MarkdownExport] else [])
  }

  /** Each export is asked for by its own flag, and they appear in the fixed
      order csv, excel, json, markdown. */
  lemma RequestedExportsOrder(args: Args)
    ensures CsvExport in RequestedExports(args) <==> args.exportCsv
    ensures ExcelExport in RequestedExports(args) <==> args.exportExcel
    ensures JsonExport in RequestedExports(args) <==> args.exportJson
    ensures MarkdownExport in RequestedExports(args) <==> args.exportMarkdown
    ensures args.exportCsv ==> RequestedExports(args)[0] == CsvExport
    ensures args.exportMarkdown ==> RequestedExports(args)[|RequestedExports(args)| - 1] == MarkdownExport
  {
  }

  /** The artifact is what its exporter builds for these groups. */
  predicate ArtifactFor(a: Artifact, groups: seq<Group>, analysis: seq<AnalysisEntry>) {
    match a
    case CsvFile(rows) => rows == CsvRows(groups)
    case ExcelFile(wb) => WorkbookOf(wb, groups)
    case JsonFile(report) => EfficiencyReportOf(report, groups, analysis)
    case MarkdownFile(doc) => MarkdownReportOf(doc, groups, analysis)
  }

  /** Appending one artifact extends the kinds by its kind and keeps every
      artifact what its exporter builds. */
  lemma Push(written: seq<Artifact>, a: Artifact, groups: seq<Group>, analysis: seq<AnalysisEntry>)
    requires forall k :: 0 <= k < |written| ==> ArtifactFor(written[k], groups, analysis)
    requires ArtifactFor(a, groups, analysis)
    ensures Kinds(written + [a]) == Kinds(written) + [KindOf(a)]
    ensures forall k :: 0 <= k < |written + [a]| ==> ArtifactFor((written + [a])[k], groups, analysis)
  {
    assert forall k :: 0 <= k < |written| ==> (written + [a])[k] == written[k];
  }

  /** The part of `CLIAnalyzer` the exports use. Nothing ever stores results
      in `analysisResults`, so the reports are written without an analysis
      section. */
  class CliAnalyzer {
    const args: Args
    var analysisResults: seq<AnalysisEntry>

    constructor (args: Args)
      ensures this.args == args && analysisResults == []
    {
      this.args := args;
      analysisResults := [];
    }

    /** `_handle_exports`: nothing without groups; otherwise the requested
        exporters in order. A failing Excel export raises out of the method,
        so only the CSV export before it has happened. */
    method HandleExports(groups: seq<Group>) returns (written: seq<Artifact>, error: Option<string>)
      ensures |groups| == 0 ==> written == [] && error == None
      ensures error.Some? <==> |groups| > 0 && args.exportExcel && !AllJoinable(groups)
      ensures |groups| > 0 && error.None? ==> Kinds(written) == RequestedExports(args)
      ensures error.Some? ==> Kinds(written) == if args.exportCsv then [CsvExport] else []
      ensures forall k :: 0 <= k < |written| ==> ArtifactFor(written[k], groups, analysisResults)
    {
      written, error := [], None;
      if |groups| == 0 {
        return;
      }
      var analysis := analysisResults;
      if args.exportCsv {
        var rows := ExportGroupedCallsToCsv(groups);
        Push(written, CsvFile(rows), groups, analysis);
        written := written + [CsvFile(rows)];
      }
      ghost var expected: seq<ExportKind> := if args.exportCsv then [CsvExport] else [];
      assert Kinds(written) == expected;
      if args.exportExcel {
        var r := ExportToExcel(groups);
        if r.Failure? {
          return written, Some(r.error);
        }
        Push(written, ExcelFile(r.value), groups, analysis);
        written := written + [ExcelFile(r.value)];
      }
      expected := expected + if args.exportExcel then [ExcelExport] else [];
      assert Kinds(written) == expected;
      if args.exportJson {
        var report := ExportEfficiencyReport(groups, analysis);
        Push(written, JsonFile(report), groups, analysis);
        written := written + [JsonFile(report)];
      }
      expected := expected + if args.exportJson then [JsonExport] else [];
      assert Kinds(written) == expected;
      if args.exportMarkdown {
        var doc := GenerateMarkdownReport(groups, analysis);
        Push(written, MarkdownFile(doc), groups, analysis);
        written := written + [MarkdownFile(doc)];
      }
      expected := expected + if args.exportMarkdown then [MarkdownExport] else [];
      assert Kinds(written) == expected;
      assert expected == RequestedExports(args);
    }
  }
}

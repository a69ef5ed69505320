/** The benchmark's command-line entry point: how each subcommand registers task
    handlers with the task runner, and the log formatter that indents messages by
    logger depth. Handlers are opaque tags carrying their constructor arguments;
    the prerequisite check, the visualizer and the runner's own work are not part
    of this model. */
module BenchmarkCli {
  import opened Wrappers
  import opened Text

  /** File names `Benchmark.__init__` stores. */
  const DetectorResultFile := "findings.yml"
  const EvalResultFile := "result.csv"
  const ReviewedEvalResultFile := "reviewed-result.csv"
  const VisualizeResultFile := "result.csv"

  /** The `realpath` of "data", "checkouts" and "results", computed when the class
      is loaded. */
  datatype Paths = Paths(data: string, checkouts: string, results: string)

  /** The parsed command line, apart from the two lists `__init__` may fill in. */
  datatype Settings = Settings(
    subprocess: string,
    forceCheckout: bool,
    forceCompile: bool,
    forceDetect: bool,
    patternFrequency: int,
    detector: string,
    timeout: Option<int>,
    javaOptions: string,
    script: string)

  class Config {
    const settings: Settings
    /** `None` when the attribute is absent from the namespace. */
    var whiteList: Option<seq<string>>
    var blackList: Option<seq<string>>

    constructor (settings: Settings, whiteList: Option<seq<string>>, blackList: Option<seq<string>>)
      ensures this.settings == settings && this.whiteList == whiteList && this.blackList == blackList
    {
      this.settings := settings;
      this.whiteList := whiteList;
      this.blackList := blackList;
    }
  }

  /** A task handler as it is constructed, with its arguments. */
  datatype Handler =
    | Checkout(checkoutsPath: string, force: bool)
    | Compile(sourcePath: string, outputPath: string, patternFrequency: int, force: bool)
    | Detect(detector: string, findingsFile: string, checkoutsPath: string, resultsPath: string,
             timeout: Option<int>, javaOptions: string, force: bool)
    | Evaluate(resultsPath: string, findingsFile: string, checkoutsPath: string, resultFile: string)
    | Stats(script: string)

  datatype Stage = CheckoutStage | CompileStage | DetectStage | EvaluateStage | StatsStage

  function StageOf(h: Handler): Stage {
    match h
    case Checkout(_, _) => CheckoutStage
    case Compile(_, _, _, _) => CompileStage
    case Detect(_, _, _, _, _, _, _) => DetectStage
    case Evaluate(_, _, _, _) => EvaluateStage
    case Stats(_) => StatsStage
  }

  function Stages(hs: seq<Handler>): seq<Stage> {
    seq(|hs|, i requires 0 <= i < |hs| => StageOf(hs[i]))
  }

  /** The task runner. Its implementation is not part of this model: `Add`
      appends a handler and `Run` is counted. */
  class TaskRunner {
    const dataPath: string
    const whiteList: seq<string>
    const blackList: seq<string>
    var handlers: seq<Handler>
    var runs: nat

    constructor (dataPath: string, whiteList: seq<string>, blackList: seq<string>)
      ensures this.dataPath == dataPath && this.whiteList == whiteList && this.blackList == blackList
      ensures handlers == [] && runs == 0
    {
      this.dataPath := dataPath;
      this.whiteList := whiteList;
      this.blackList := blackList;
      handlers := [];
      runs := 0;
    }

    method Add(h: Handler)
      modifies this`handlers
      ensures handlers == old(handlers) + [h]
    {
      handlers := handlers + [h];
    }

    method Run()
      modifies this`runs
      ensures runs == old(runs) + 1
    {
      runs := runs + 1;
    }
  }

  // --- the handler lists each setup step appends -----------------------------

  function CheckoutPlan(s: Settings, p: Paths): seq<Handler> {
    [CheckoutHandler(s, p)]
  }

  function CompilePlan(s: Settings, p: Paths): seq<Handler> {
    CheckoutPlan(s, p) + [CompileHandler(s, p)]
  }

  function DetectPlan(s: Settings, p: Paths): seq<Handler> {
    CheckoutPlan(s, p) + CompilePlan(s, p) + [DetectHandler(s, p)]
  }

  function EvalPlan(s: Settings, p: Paths): seq<Handler> {
    CheckoutPlan(s, p) + CompilePlan(s, p) + DetectPlan(s, p) + [EvaluateHandler(s, p)]
  }

  /** The handlers a subcommand other than `stats` registers before the runner runs. */
  function Plan(s: Settings, p: Paths): seq<Handler> {
    match s.subprocess
    case "checkout" => CheckoutPlan(s, p)
    case "compile" => CompilePlan(s, p)
    case "detect" => DetectPlan(s, p)
    case "eval" => EvalPlan(s, p)
    case _ => []
  }

  function Copies(h: Handler, n: nat): (hs: seq<Handler>)
    ensures |hs| == n && forall i :: 0 <= i < n ==> hs[i] == h
  {
    if n == 0 then [] else [h] + Copies(h, n - 1)
  }

  /** How `run` ends: after the visualizer (with the arguments it was built
      with), after the task runner, or with the interpreter's stack exhausted. */
  datatype Outcome =
    | Visualized(resultsPath: string, reviewedResultFile: string, resultFile: string, dataPath: string)
    | RanTasks
    | StackExhausted

  class Benchmark {
    const config: Config
    const paths: Paths
    const runner: TaskRunner

    constructor (config: Config, paths: Paths)
      modifies config
      ensures this.config == config && this.paths == paths
      ensures config.whiteList == Some(old(config.whiteList).GetOr([]))
      ensures config.blackList == Some(old(config.blackList).GetOr([]))
      ensures fresh(runner) && runner.handlers == [] && runner.runs == 0
      ensures runner.dataPath == paths.data
      ensures runner.whiteList == config.whiteList.value && runner.blackList == config.blackList.value
    {
      this.config := config;
      this.paths := paths;
      if config.whiteList.None? {
        config.whiteList := Some([]);
      }
      if config.blackList.None? {
        config.blackList := Some([]);
      }
      runner := new TaskRunner(paths.data, config.whiteList.value, config.blackList.value);
    }

    method SetupCheckout()
      modifies runner`handlers
      ensures runner.handlers == old(runner.handlers) + CheckoutPlan(config.settings, paths)
    {
      runner.Add(Checkout(paths.checkouts, config.settings.forceCheckout));
    }

    method SetupCompile()
      modifies runner`handlers
      ensures runner.handlers == old(runner.handlers) + CompilePlan(config.settings, paths)
    {
      SetupCheckout();
      var s := config.settings;
      runner.Add(Compile(paths.checkouts, paths.checkouts, s.patternFrequency, s.forceCompile));
    }

    method SetupDetect()
      modifies runner`handlers
      ensures runner.handlers == old(runner.handlers) + DetectPlan(config.settings, paths)
    {
      SetupCheckout();
      SetupCompile();
      var s := config.settings;
      var resultsPath := PathJoin(paths.results, s.detector);
      runner.Add(Detect(s.detector, DetectorResultFile, paths.checkouts, resultsPath, s.timeout, s.javaOptions, s.forceDetect));
    }

    method SetupEval()
      modifies runner`handlers
      ensures runner.handlers == old(runner.handlers) + EvalPlan(config.settings, paths)
    {
      SetupCheckout();
      SetupCompile();
      SetupDetect();
      var resultsPath := PathJoin(paths.results, config.settings.detector);
      runner.Add(Evaluate(resultsPath, DetectorResultFile, paths.checkouts, EvalResultFile));
    }

    /** `_setup_stats` registers a stats handler and calls `run` again, which
        dispatches back here: `depth` is how many of these calls the interpreter's
        stack admits before the recursion error. */
    method SetupStats(depth: nat) returns (outcome: Outcome)
      requires config.settings.subprocess == "stats"
      modifies runner`handlers, runner`runs
      decreases depth, 0
      ensures outcome == StackExhausted
      ensures runner.handlers == old(runner.handlers) + Copies(Stats(config.settings.script), depth)
      ensures runner.runs == old(runner.runs)
    {
      if depth == 0 {
        outcome := StackExhausted;
      } else {
        runner.Add(Stats(config.settings.script));
        outcome := Run(depth - 1);
        assert [Stats(config.settings.script)] + Copies(Stats(config.settings.script), depth - 1)
            == Copies(Stats(config.settings.script), depth);
      }
    }

    method Run(depth: nat) returns (outcome: Outcome)
      modifies runner`handlers, runner`runs
      decreases depth, 1
      ensures config.settings.subprocess == "visualize" ==>
        && outcome == Visualized(paths.results, ReviewedEvalResultFile, VisualizeResultFile, paths.data)
        && runner.handlers == old(runner.handlers) && runner.runs == old(runner.runs)
      ensures config.settings.subprocess == "stats" ==>
        && outcome == StackExhausted
        && runner.handlers == old(runner.handlers) + Copies(Stats(config.settings.script), depth)
        && runner.runs == old(runner.runs)
      ensures config.settings.subprocess != "visualize" && config.settings.subprocess != "stats" ==>
        && outcome == RanTasks
        && runner.handlers == old(runner.handlers) + Plan(config.settings, paths)
        && runner.runs == old(runner.runs) + 1
    {
      var sub := config.settings.subprocess;
      if sub == "visualize" {
        outcome := Visualized(paths.results, ReviewedEvalResultFile, VisualizeResultFile, paths.data);
        return;
      } else if sub == "check" {
      } else if sub == "checkout" {
        SetupCheckout();
      } else if sub == "compile" {
        SetupCompile();
      } else if sub == "detect" {
        SetupDetect();
      } else if sub == "eval" {
        SetupEval();
      } else if sub == "stats" {
        outcome := SetupStats(depth);
        return;
      }
      runner.Run();
      outcome := RanTasks;
    }
  }

  // --- properties of the registered pipelines ---------------------------------

  /** The four handlers a configuration gives rise to. */
  function CheckoutHandler(s: Settings, p: Paths): Handler {
    Checkout(p.checkouts, s.forceCheckout)
  }

  function CompileHandler(s: Settings, p: Paths): Handler {
    Compile(p.checkouts, p.checkouts, s.patternFrequency, s.forceCompile)
  }

  function DetectHandler(s: Settings, p: Paths): Handler {
    Detect(s.detector, DetectorResultFile, p.checkouts, PathJoin(p.results, s.detector), s.timeout, s.javaOptions, s.forceDetect)
  }

  function EvaluateHandler(s: Settings, p: Paths): Handler {
    Evaluate(PathJoin(p.results, s.detector), DetectorResultFile, p.checkouts, EvalResultFile)
  }

  /** The nested setup calls flattened: the full handler list of each subcommand. */
  lemma PlanFlattened(s: Settings, p: Paths)
    ensures var (co, cp, dt, ev) := (CheckoutHandler(s, p), CompileHandler(s, p), DetectHandler(s, p), EvaluateHandler(s, p));
      && CheckoutPlan(s, p) == [co]
      && CompilePlan(s, p) == [co, cp]
      && DetectPlan(s, p) == [co, co, cp, dt]
      && EvalPlan(s, p) == [co, co, cp, co, co, cp, dt, ev]
  {
  }

  /** The stage sequence of each subcommand, duplicates included. */
  lemma PlanStages(s: Settings, p: Paths)
    ensures s.subprocess == "checkout" ==> Stages(Plan(s, p)) == [CheckoutStage]
    ensures s.subprocess == "compile" ==> Stages(Plan(s, p)) == [CheckoutStage, CompileStage]
    ensures s.subprocess == "detect" ==>
      Stages(Plan(s, p)) == [CheckoutStage, CheckoutStage, CompileStage, DetectStage]
    ensures s.subprocess == "eval" ==>
      Stages(Plan(s, p)) == [CheckoutStage, CheckoutStage, CompileStage, CheckoutStage, CheckoutStage,
                             CompileStage, DetectStage, EvaluateStage]
    ensures s.subprocess == "check" || s.subprocess == "visualize" ==> Plan(s, p) == []
    ensures s.subprocess == "eval" ==> multiset(Stages(Plan(s, p)))[CheckoutStage] == 4
  {
    PlanFlattened(s, p);
    var (co, cp, dt, ev) := (CheckoutHandler(s, p), CompileHandler(s, p), DetectHandler(s, p), EvaluateHandler(s, p));
    match s.subprocess
    case "checkout" =>
    case "compile" =>
    case "detect" =>
      assert Stages([co, co, cp, dt]) == [CheckoutStage, CheckoutStage, CompileStage, DetectStage];
    case "eval" =>
      var stages := [CheckoutStage, CheckoutStage, CompileStage, CheckoutStage, CheckoutStage,
                     CompileStage, DetectStage, EvaluateStage];
      assert Stages([co, co, cp, co, co, cp, dt, ev]) == stages;
      assert stages == [CheckoutStage, CheckoutStage] + [CompileStage] + [CheckoutStage, CheckoutStage]
                       + [CompileStage, DetectStage, EvaluateStage];
    case _ =>
  }

  /** A stage's prerequisite has been registered before it. */
  predicate PrerequisitesFirst(stages: seq<Stage>) {
    forall i :: 0 <= i < |stages| ==>
      match stages[i]
      case CompileStage => CheckoutStage in stages[..i]
      case DetectStage => CompileStage in stages[..i]
      case EvaluateStage => DetectStage in stages[..i]
      case _ => true
  }

  lemma PrerequisitesFirstOf(stages: seq<Stage>)
    requires |stages| >= 1 && stages[0] == CheckoutStage
    requires forall i :: 0 <= i < |stages| && stages[i] == DetectStage ==> i >= 3 && stages[2] == CompileStage
    requires forall i :: 0 <= i < |stages| && stages[i] == EvaluateStage ==> i >= 7 && stages[6] == DetectStage
    ensures PrerequisitesFirst(stages)
  {
    forall i | 0 <= i < |stages|
      ensures match stages[i]
        case CompileStage => CheckoutStage in stages[..i]
        case DetectStage => CompileStage in stages[..i]
        case EvaluateStage => DetectStage in stages[..i]
        case _ => true
    {
      if i >= 1 { assert stages[..i][0] == stages[0]; }
      if stages[i] == DetectStage { assert stages[..i][2] == stages[2]; }
      if stages[i] == EvaluateStage { assert stages[..i][6] == stages[6]; }
    }
  }

  /** Every subcommand registers each stage after the stage it depends on. */
  lemma PlanPrerequisitesFirst(s: Settings, p: Paths)
    ensures PrerequisitesFirst(Stages(Plan(s, p)))
  {
    PlanStages(s, p);
    var stages := Stages(Plan(s, p));
    if stages != [] {
      PrerequisitesFirstOf(stages);
    }
  }

  /** Every handler a subcommand registers carries the configuration's paths and
      force flags. */
  lemma PlanArguments(s: Settings, p: Paths)
    ensures forall h :: h in Plan(s, p) && h.Checkout? ==> h == Checkout(p.checkouts, s.forceCheckout)
    ensures forall h :: h in Plan(s, p) && h.Compile? ==>
      h == Compile(p.checkouts, p.checkouts, s.patternFrequency, s.forceCompile)
    ensures forall h :: h in Plan(s, p) && h.Detect? ==>
      h == Detect(s.detector, DetectorResultFile, p.checkouts, PathJoin(p.results, s.detector),
                  s.timeout, s.javaOptions, s.forceDetect)
    ensures forall h :: h in Plan(s, p) && h.Evaluate? ==>
      h == Evaluate(PathJoin(p.results, s.detector), DetectorResultFile, p.checkouts, EvalResultFile)
    ensures forall h :: h in Plan(s, p) ==> !h.Stats?
  {
    PlanFlattened(s, p);
    var kinds := {CheckoutHandler(s, p), CompileHandler(s, p), DetectHandler(s, p), EvaluateHandler(s, p)};
    assert forall h :: h in Plan(s, p) ==> h in kinds;
  }

  // --- IndentFormatter ---------------------------------------------------------

  /** The indent of a logger: nothing for the root logger, otherwise four spaces
      per level, a level being one more than the dots in the name. */
  function IndentFor(loggerName: string): (indent: string)
    ensures indent == "" <==> loggerName == "root"
    ensures loggerName != "root" ==> |indent| == 4 * (CountChar(loggerName, '.') + 1)
    ensures forall i :: 0 <= i < |indent| ==> indent[i] == ' '
  {
    var level := if loggerName == "root" then 0 else CountChar(loggerName, '.') + 1;
    RepeatChars("    ", level, ' ');
    Repeat("    ", level)
  }

  /** Every line break is followed by the indent. */
  function Reindent(text: string, indent: string): string {
    ReplaceChar(text, '\n', "\n" + indent)
  }

  /** Removes `indent` after each line break that carries it. */
  function Dedent(text: string, indent: string): string {
    if text == [] then []
    else if text[0] == '\n' && indent <= text[1..] then "\n" + Dedent(text[1 + |indent|..], indent)
    else [text[0]] + Dedent(text[1..], indent)
  }

  /** Indenting loses nothing: dedenting gives back the base text. */
  lemma {:induction false} DedentReindent(text: string, indent: string)
    ensures Dedent(Reindent(text, indent), indent) == text
  {
    if text != [] {
      DedentReindent(text[1..], indent);
      var r := Reindent(text, indent);
      if text[0] == '\n' {
        assert r == "\n" + indent + Reindent(text[1..], indent);
        assert r[1..] == indent + Reindent(text[1..], indent);
        assert r[1 + |indent|..] == Reindent(text[1..], indent);
      } else {
        assert r == [text[0]] + Reindent(text[1..], indent);
        assert r[1..] == Reindent(text[1..], indent);
      }
    }
  }

  /** The text grows by one indent per line break. */
  lemma {:induction false} ReindentLength(text: string, indent: string)
    ensures |Reindent(text, indent)| == |text| + CountChar(text, '\n') * |indent|
  {
    if text != [] {
      ReindentLength(text[1..], indent);
    }
  }

  /** When the indent holds no line break, every line break of the result is
      followed by the indent. */
  lemma {:induction false} ReindentBreaks(text: string, indent: string, i: int)
    requires '\n' !in indent
    requires 0 <= i < |Reindent(text, indent)| && Reindent(text, indent)[i] == '\n'
    ensures indent <= Reindent(text, indent)[i + 1..]
  {
    var r := Reindent(text, indent);
    var head := if text[0] == '\n' then "\n" + indent else [text[0]];
    assert r == head + Reindent(text[1..], indent);
    if i < |head| {
      assert i == 0;
      assert r[1..] == indent + Reindent(text[1..], indent);
    } else {
      ReindentBreaks(text[1..], indent, i - |head|);
      assert r[i + 1..] == Reindent(text[1..], indent)[i - |head| + 1..];
    }
  }

  class LogRecord {
    const name: string
    /** The temporary `indent` attribute. */
    var indent: Option<string>

    constructor (name: string)
      ensures this.name == name && indent == None
    {
      this.name := name;
      indent := None;
    }
  }

  /** `IndentFormatter.format`. `baseFormat` is what the base formatter produces
      for this record given its `indent` attribute. */
  method IndentFormat(rec: LogRecord, baseFormat: string -> string) returns (out: string)
    modifies rec`indent
    ensures out == Reindent(baseFormat(IndentFor(rec.name)), IndentFor(rec.name))
    ensures rec.indent == None
  {
    var loggerName := rec.name;
    var loggerLevel := 0;
    if loggerName != "root" {
      loggerLevel := CountChar(loggerName, '.') + 1;
    }
    rec.indent := Some(Repeat("    ", loggerLevel));
    out := baseFormat(rec.indent.value);
    out := ReplaceChar(out, '\n', "\n" + rec.indent.value);
    rec.indent := None;
  }
}

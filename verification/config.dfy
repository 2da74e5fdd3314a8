/** The run configuration and metrics records of src/kmeans_config.c: their
    defaults, count and file validation, and the option switch of
    `parse_kmeans_cli`. */
module Config {
  import opened Wrappers
  import opened Points

  /** `enum log_level_t` of src/mpi_log.h, in declaration order. */
  datatype LogLevel = Error | Warn | Info | Verbose | Debug | Trace

  /** `struct kmeans_config`; a null path is None. */
  datatype KmeansConfig = KmeansConfig(
    maxPoints: int,
    numClusters: int,
    maxIterations: int,
    numProcessors: int,
    inFile: Option<string>,
    outFile: Option<string>,
    testFile: Option<string>,
    metricsFile: Option<string>,
    runLabel: string,
    properDistance: bool)

  /** `struct kmeans_metrics` without the OpenMP fields, which belong to the
      OpenMP build. */
  datatype Metrics = Metrics(
    runLabel: string,
    assignmentSeconds: real,
    centroidsSeconds: real,
    totalSeconds: real,
    maxIterationSeconds: real,
    usedIterations: int,
    testResult: int,
    numPoints: int,
    numClusters: int,
    maxIterations: int,
    numProcessors: int)

  /** The three counts a run is sized by are all positive. */
  predicate CountsPositive(c: KmeansConfig)
  {
    c.maxPoints > 0 && c.numClusters > 0 && c.maxIterations > 0
  }

  /** `new_kmeans_config`: the compiled-in sizes, one processor, label
      "no-label" and no files. The record comes from malloc and
      `proper_distance` is never set, so its value is a parameter. */
  function NewKmeansConfig(unsetProperDistance: bool): (c: KmeansConfig)
    ensures CountsPositive(c)
    ensures c.maxPoints == MAX_POINTS && c.numClusters == NUM_CLUSTERS && c.maxIterations == MAX_ITERATIONS
    ensures c.numProcessors == 1 && c.runLabel == "no-label"
    ensures c.inFile.None? && c.outFile.None? && c.testFile.None? && c.metricsFile.None?
  {
    KmeansConfig(MAX_POINTS, NUM_CLUSTERS, MAX_ITERATIONS, 1, None, None, None, None, "no-label",
                 unsetProperDistance)
  }

  /** `new_kmeans_metrics`: label, iteration cap and cluster count come from the
      configuration, total time is 0 and the test result is 0 ("not tested");
      the other fields keep whatever the fresh allocation held (`stale`). */
  function NewKmeansMetrics(c: KmeansConfig, stale: Metrics): (m: Metrics)
    ensures m.runLabel == c.runLabel && m.maxIterations == c.maxIterations && m.numClusters == c.numClusters
    ensures m.totalSeconds == 0.0 && m.testResult == 0
    ensures m.assignmentSeconds == stale.assignmentSeconds && m.centroidsSeconds == stale.centroidsSeconds
    ensures m.maxIterationSeconds == stale.maxIterationSeconds && m.usedIterations == stale.usedIterations
    ensures m.numPoints == stale.numPoints && m.numProcessors == stale.numProcessors
  {
    stale.(runLabel := c.runLabel, maxIterations := c.maxIterations, numClusters := c.numClusters,
           totalSeconds := 0.0, testResult := 0)
  }

  /** `valid_count`, applied to the value `atoi` made of the argument: a value
      that is not positive is fatal, any other is returned unchanged. */
  function ValidCount(value: int): (r: Result<int>)
    ensures r.Success? <==> value > 0
    ensures r.Success? ==> r.value == value
  {
    if value <= 0 then Failure("expects a counting number") else Success(value)
  }

  /** `validate_config`: fatal without a non-empty input file. */
  function ValidateConfig(c: KmeansConfig): (r: Result<KmeansConfig>)
    ensures r.Failure? <==> c.inFile.None? || |c.inFile.value| == 0
    ensures r.Success? ==> r.value == c
  {
    if c.inFile.None? || |c.inFile.value| == 0 then Failure("You must at least provide an input file with -f")
    else Success(c)
  }

  /** One item handed back by `getopt_long`: a log-level long option
      (`--error` … `--trace`), which stores its level through the flag pointer,
      or an option character with its argument (empty when it takes none). */
  datatype CliOption = LevelFlag(level: LogLevel) | Opt(code: char, arg: string)

  /** The parser's state: the configuration and the log level being built. */
  datatype Parsed = Parsed(config: KmeansConfig, level: LogLevel)

  /** One pass of the option switch. `atoi` and the file-existence check are C
      library calls, so they are parameters. `-h`, `:` and `?` print usage and
      exit; any other unlisted character is reported and skipped. */
  function ApplyKmeansOption(p: Parsed, o: CliOption, atoi: string -> int, fileExists: string -> bool)
    : (r: Result<Parsed>)
    ensures o.LevelFlag? ==> r == Success(p.(level := o.level))
    ensures o.Opt? && o.code in "h:?" ==> r.Failure?
    ensures o.Opt? && o.code in "ink" ==> (r.Success? <==> atoi(o.arg) > 0)
    ensures o.Opt? && o.code == 'f' ==> (r.Success? <==> fileExists(o.arg))
    ensures r.Success? ==> r.value.config.numProcessors == p.config.numProcessors
    ensures o.Opt? && o.code == 'i' && r.Success? ==> r.value == p.(config := p.config.(maxIterations := atoi(o.arg)))
    ensures o.Opt? && o.code == 'n' && r.Success? ==> r.value == p.(config := p.config.(maxPoints := atoi(o.arg)))
    ensures o.Opt? && o.code == 'k' && r.Success? ==> r.value == p.(config := p.config.(numClusters := atoi(o.arg)))
    ensures o.Opt? && o.code == 'f' && r.Success? ==> r.value == p.(config := p.config.(inFile := Some(o.arg)))
    ensures o.Opt? && o.code == 'o' ==> r == Success(p.(config := p.config.(outFile := Some(o.arg))))
    ensures o.Opt? && o.code == 't' ==> r == Success(p.(config := p.config.(testFile := Some(o.arg))))
    ensures o.Opt? && o.code == 'm' ==> r == Success(p.(config := p.config.(metricsFile := Some(o.arg))))
    ensures o.Opt? && o.code == 'e' ==> r == Success(p.(config := p.config.(properDistance := true)))
    ensures o.Opt? && o.code == 'l' ==> r == Success(p.(config := p.config.(runLabel := o.arg)))
    ensures o.Opt? && o.code !in "hinkfotmel:?" ==> r == Success(p)
  {
    match o
    case LevelFlag(level) => Success(p.(level := level))
    case Opt(code, arg) =>
      var c := p.config;
      match code
      case 'h' => Failure("usage")
      case 'i' =>
        (match ValidCount(atoi(arg))
         case Failure(e) => Failure(e)
         case Success(v) => Success(p.(config := c.(maxIterations := v))))
      case 'n' =>
        (match ValidCount(atoi(arg))
         case Failure(e) => Failure(e)
         case Success(v) => Success(p.(config := c.(maxPoints := v))))
      case 'k' =>
        (match ValidCount(atoi(arg))
         case Failure(e) => Failure(e)
         case Success(v) => Success(p.(config := c.(numClusters := v))))
      case 'f' =>
        if fileExists(arg) then Success(p.(config := c.(inFile := Some(arg))))
        else Failure("The option 'f' expects the name of an existing file")
      case 'o' => Success(p.(config := c.(outFile := Some(arg))))
      case 't' => Success(p.(config := c.(testFile := Some(arg))))
      case 'm' => Success(p.(config := c.(metricsFile := Some(arg))))
      case 'e' => Success(p.(config := c.(properDistance := true)))
      case 'l' => Success(p.(config := c.(runLabel := arg)))
      case ':' => Failure("Option needs a value")
      case '?' => Failure("Unknown option")
      case _ => Success(p)
  }

  /** The option loop, stopping at the first fatal option. */
  function ApplyKmeansOptions(p: Parsed, opts: seq<CliOption>, atoi: string -> int, fileExists: string -> bool)
    : Result<Parsed>
    decreases |opts|
  {
    if |opts| == 0 then Success(p)
    else
      match ApplyKmeansOption(p, opts[0], atoi, fileExists)
      case Failure(e) => Failure(e)
      case Success(p') => ApplyKmeansOptions(p', opts[1..], atoi, fileExists)
  }

  /** `parse_kmeans_cli`: the option loop, then `validate_config`. */
  function ParseKmeansCli(c: KmeansConfig, level: LogLevel, opts: seq<CliOption>,
                          atoi: string -> int, fileExists: string -> bool): Result<Parsed>
  {
    match ApplyKmeansOptions(Parsed(c, level), opts, atoi, fileExists)
    case Failure(e) => Failure(e)
    case Success(p) =>
      (match ValidateConfig(p.config)
       case Failure(e) => Failure(e)
       case Success(_) => Success(p))
  }

  /** The label the options leave behind: the argument of the last `-l`, or the
      starting label when there is none. */
  function LastLabel(initial: string, opts: seq<CliOption>): string
    decreases |opts|
  {
    if |opts| == 0 then initial
    else
      var last := opts[|opts| - 1];
      if last.Opt? && last.code == 'l' then last.arg else LastLabel(initial, opts[..|opts| - 1])
  }

  lemma {:induction false} ApplyKmeansOptionsSpec(p: Parsed, opts: seq<CliOption>,
                                                  atoi: string -> int, fileExists: string -> bool)
    requires CountsPositive(p.config)
    ensures ApplyKmeansOptions(p, opts, atoi, fileExists).Success? ==>
              var r := ApplyKmeansOptions(p, opts, atoi, fileExists).value;
              && CountsPositive(r.config)
              && r.config.numProcessors == p.config.numProcessors
              && r.config.runLabel == LastLabel(p.config.runLabel, opts)
              && (forall i :: 0 <= i < |opts| && opts[i].Opt? ==> opts[i].code !in "h:?")
              && (forall i :: 0 <= i < |opts| && opts[i].Opt? && opts[i].code in "ink" ==> atoi(opts[i].arg) > 0)
    decreases |opts|
  {
    if |opts| > 0 {
      match ApplyKmeansOption(p, opts[0], atoi, fileExists)
      case Failure(_) =>
      case Success(p') =>
        ApplyKmeansOptionsSpec(p', opts[1..], atoi, fileExists);
        if ApplyKmeansOptions(p, opts, atoi, fileExists).Success? {
          LastLabelCons(p.config.runLabel, p'.config.runLabel, opts);
          forall i | 0 < i < |opts|
            ensures opts[i] == opts[1..][i - 1]
          {
          }
        }
    }
  }

  /** Peeling the first option off the front of the label search. */
  lemma {:induction false} LastLabelCons(initial: string, next: string, opts: seq<CliOption>)
    requires |opts| > 0
    requires next == (if opts[0].Opt? && opts[0].code == 'l' then opts[0].arg else initial)
    ensures LastLabel(next, opts[1..]) == LastLabel(initial, opts)
    decreases |opts|
  {
    if |opts| > 1 {
      assert opts[1..][..|opts[1..]| - 1] == opts[..|opts| - 1][1..];
      LastLabelCons(initial, next, opts[..|opts| - 1]);
    }
  }

  /** The argument of the last option `code` in `opts`, None when there is none:
      a later occurrence overrides an earlier one. */
  function LastArg(code: char, opts: seq<CliOption>): Option<string>
    decreases |opts|
  {
    if |opts| == 0 then None
    else if LastArg(code, opts[1..]).Some? then LastArg(code, opts[1..])
    else if opts[0].Opt? && opts[0].code == code then Some(opts[0].arg)
    else None
  }

  /** The level of the last log-level long option in `opts`, None when there is none. */
  function LastLevel(opts: seq<CliOption>): Option<LogLevel>
    decreases |opts|
  {
    if |opts| == 0 then None
    else if LastLevel(opts[1..]).Some? then LastLevel(opts[1..])
    else if opts[0].LevelFlag? then Some(opts[0].level)
    else None
  }

  /** The count the last `code` option sets, or `initial` when there is none. */
  function LastCount(code: char, opts: seq<CliOption>, atoi: string -> int, initial: int): int
  {
    if LastArg(code, opts).Some? then atoi(LastArg(code, opts).value) else initial
  }

  /** The path the last `code` option sets, or `initial` when there is none. */
  function LastPath(code: char, opts: seq<CliOption>, initial: Option<string>): Option<string>
  {
    if LastArg(code, opts).Some? then LastArg(code, opts) else initial
  }

  /** The count field option `code` writes: `-i`, `-n` or `-k`. */
  function CountField(c: KmeansConfig, code: char): int
    requires code in "ink"
  {
    if code == 'i' then c.maxIterations else if code == 'n' then c.maxPoints else c.numClusters
  }

  /** The path field option `code` writes: `-f`, `-o`, `-t` or `-m`. */
  function PathField(c: KmeansConfig, code: char): Option<string>
    requires code in "fotm"
  {
    if code == 'f' then c.inFile else if code == 'o' then c.outFile
    else if code == 't' then c.testFile else c.metricsFile
  }

  /** After an option list that gets through, each count holds what the last
      option writing it gave, or its starting value. */
  lemma {:induction false} ApplyKmeansOptionsCounts(p: Parsed, opts: seq<CliOption>, code: char,
                                                    atoi: string -> int, fileExists: string -> bool)
    requires code in "ink"
    ensures ApplyKmeansOptions(p, opts, atoi, fileExists).Success? ==>
              CountField(ApplyKmeansOptions(p, opts, atoi, fileExists).value.config, code)
              == LastCount(code, opts, atoi, CountField(p.config, code))
    decreases |opts|
  {
    if |opts| > 0 {
      match ApplyKmeansOption(p, opts[0], atoi, fileExists)
      case Failure(_) =>
      case Success(p') =>
        ApplyKmeansOptionsCounts(p', opts[1..], code, atoi, fileExists);
    }
  }

  /** After an option list that gets through, each file path holds what the last
      option writing it gave, or its starting value. */
  lemma {:induction false} ApplyKmeansOptionsPaths(p: Parsed, opts: seq<CliOption>, code: char,
                                                   atoi: string -> int, fileExists: string -> bool)
    requires code in "fotm"
    ensures ApplyKmeansOptions(p, opts, atoi, fileExists).Success? ==>
              PathField(ApplyKmeansOptions(p, opts, atoi, fileExists).value.config, code)
              == LastPath(code, opts, PathField(p.config, code))
    decreases |opts|
  {
    if |opts| > 0 {
      match ApplyKmeansOption(p, opts[0], atoi, fileExists)
      case Failure(_) =>
      case Success(p') =>
        ApplyKmeansOptionsPaths(p', opts[1..], code, atoi, fileExists);
    }
  }

  /** After an option list that gets through, the log level is the last level
      option's, `-e` has only ever switched proper distance on, the label is the
      last `-l` argument, and the processor count is untouched. */
  lemma {:induction false} ApplyKmeansOptionsFlags(p: Parsed, opts: seq<CliOption>,
                                                   atoi: string -> int, fileExists: string -> bool)
    ensures ApplyKmeansOptions(p, opts, atoi, fileExists).Success? ==>
              var r := ApplyKmeansOptions(p, opts, atoi, fileExists).value;
              && r.level == (if LastLevel(opts).Some? then LastLevel(opts).value else p.level)
              && r.config.properDistance == (p.config.properDistance || LastArg('e', opts).Some?)
              && r.config.runLabel == (if LastArg('l', opts).Some? then LastArg('l', opts).value else p.config.runLabel)
              && r.config.numProcessors == p.config.numProcessors
    decreases |opts|
  {
    if |opts| > 0 {
      match ApplyKmeansOption(p, opts[0], atoi, fileExists)
      case Failure(_) =>
      case Success(p') =>
        ApplyKmeansOptionsFlags(p', opts[1..], atoi, fileExists);
    }
  }

  /** A configuration accepted by `parse_kmeans_cli` started from the defaults
      has positive counts, one processor, an existing non-empty input file, and
      the label of the last `-l` option. */
  lemma ParseKmeansCliSpec(unset: bool, level: LogLevel, opts: seq<CliOption>,
                           atoi: string -> int, fileExists: string -> bool)
    ensures var r := ParseKmeansCli(NewKmeansConfig(unset), level, opts, atoi, fileExists);
            r.Success? ==>
              && CountsPositive(r.value.config)
              && r.value.config.numProcessors == 1
              && r.value.config.inFile.Some? && |r.value.config.inFile.value| > 0
              && r.value.config.runLabel == LastLabel("no-label", opts)
  {
    ApplyKmeansOptionsSpec(Parsed(NewKmeansConfig(unset), level), opts, atoi, fileExists);
  }
}

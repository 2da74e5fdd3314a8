/** The verbosity flags of src/log_support.c: the option switch of
    `parse_log_cli` and the normalisation applied after it. */
module Logging {
  import opened Wrappers

  /** `struct log_config`. */
  datatype LogConfig = LogConfig(silent: bool, verbose: bool, debug: bool, quiet: bool)

  /** `new_log_config`: every flag starts cleared. */
  function NewLogConfig(): (c: LogConfig)
    ensures !c.silent && !c.verbose && !c.debug && !c.quiet
  {
    LogConfig(false, false, false, false)
  }

  /** One option character handed back by `getopt_long`. `-h` prints usage and
      exits (None); `-d`, `-z`, `-v` and `-q` raise their flag; every other
      character, `?` included, is left for the other command-line parser. */
  function ApplyLogOption(c: LogConfig, opt: char): (r: Option<LogConfig>)
    ensures r.None? <==> opt == 'h'
  {
    match opt
    case 'h' => None
    case 'd' => Some(c.(debug := true))
    case 'z' => Some(c.(silent := true))
    case 'v' => Some(c.(verbose := true))
    case 'q' => Some(c.(quiet := true))
    case _ => Some(c)
  }

  /** The consistency the normalisation establishes: silent output is quiet, and
      debug output is verbose and neither silent nor quiet. */
  predicate Normal(c: LogConfig)
  {
    && (c.silent ==> c.quiet)
    && (c.debug ==> c.verbose && !c.silent && !c.quiet)
  }

  /** The two adjustments after the option loop: silent implies quiet, then debug
      forces verbose and clears silent and quiet. */
  function Normalize(c: LogConfig): (r: LogConfig)
    ensures Normal(r)
    ensures r.debug == c.debug
    ensures r.verbose == (c.verbose || c.debug)
    ensures r.silent == (c.silent && !c.debug)
    ensures r.quiet == ((c.quiet || c.silent) && !c.debug)
  {
    var c1 := if c.silent then c.(quiet := true) else c;
    if c1.debug then c1.(verbose := true, silent := false, quiet := false) else c1
  }

  /** Normalisation leaves a configuration alone exactly when it is already normal. */
  lemma NormalizeFixedPoint(c: LogConfig)
    ensures Normalize(c) == c <==> Normal(c)
  {
  }

  /** Normalising twice is normalising once. */
  lemma NormalizeIdempotent(c: LogConfig)
    ensures Normalize(Normalize(c)) == Normalize(c)
  {
    NormalizeFixedPoint(Normalize(c));
  }

  /** The option loop of `parse_log_cli`, before normalisation. */
  function ApplyLogOptions(c: LogConfig, opts: seq<char>): Option<LogConfig>
    decreases |opts|
  {
    if |opts| == 0 then Some(c)
    else
      match ApplyLogOption(c, opts[0])
      case None => None
      case Some(c') => ApplyLogOptions(c', opts[1..])
  }

  /** `parse_log_cli`: a fresh configuration, every option applied in order,
      then normalised. None stands for the usage-and-exit path of `-h`. */
  function ParseLogCli(opts: seq<char>): Option<LogConfig>
  {
    match ApplyLogOptions(NewLogConfig(), opts)
    case None => None
    case Some(c) => Some(Normalize(c))
  }

  lemma {:induction false} ApplyLogOptionsSpec(c: LogConfig, opts: seq<char>)
    ensures ApplyLogOptions(c, opts).None? <==> 'h' in opts
    ensures ApplyLogOptions(c, opts).Some? ==>
              var r := ApplyLogOptions(c, opts).value;
              && r.debug == (c.debug || 'd' in opts)
              && r.silent == (c.silent || 'z' in opts)
              && r.verbose == (c.verbose || 'v' in opts)
              && r.quiet == (c.quiet || 'q' in opts)
    decreases |opts|
  {
    if |opts| > 0 {
      assert opts == [opts[0]] + opts[1..];
      match ApplyLogOption(c, opts[0])
      case None =>
      case Some(c') => ApplyLogOptionsSpec(c', opts[1..]);
    }
  }

  /** What the command line decides, flag by flag, independent of option order:
      `-h` anywhere exits; debug comes from `-d`; verbose from `-v` or `-d`;
      silent from `-z` unless `-d`; quiet from `-q` or `-z` unless `-d`. */
  lemma ParseLogCliSpec(opts: seq<char>)
    ensures ParseLogCli(opts).None? <==> 'h' in opts
    ensures ParseLogCli(opts).Some? ==>
              var r := ParseLogCli(opts).value;
              && r.debug == ('d' in opts)
              && r.verbose == ('v' in opts || 'd' in opts)
              && r.silent == ('z' in opts && 'd' !in opts)
              && r.quiet == (('q' in opts || 'z' in opts) && 'd' !in opts)
  {
    ApplyLogOptionsSpec(NewLogConfig(), opts);
  }
}

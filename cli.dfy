/** The command line: `parseArgs` reads the arguments left to right, a value
    flag taking the token after it whatever that token is, and `runCLI`
    refuses to start unless a pattern was given. `parseInt` is a parameter;
    a value flag at the very end reads `undefined`, which `parseInt` turns
    into NaN. */
module Cli {
  import opened Types

  /** What `parseArgs` returns: the pattern configuration and, kept apart, the
      `workers` count. */
  datatype CliConfig = CliConfig(config: VanityConfig, workers: Option<NumberValue>)

  /** `--help` prints the usage and exits; otherwise parsing yields options. */
  datatype ParseResult = ShowHelp | Parsed(options: CliConfig)

  /** The object literal `{}` that parsing starts from. */
  const NoOptions: CliConfig := CliConfig(EmptyConfig, None)

  /** The cases of the `switch (args[i])`. */
  datatype Flag = PrefixFlag | SuffixFlag | ContainsFlag | CaseSensitiveFlag
                | MaxAttemptsFlag | WorkersFlag | HelpFlag | Unrecognised

  function Classify(token: string): Flag {
    if token == "--prefix" then PrefixFlag
    else if token == "--suffix" then SuffixFlag
    else if token == "--contains" then ContainsFlag
    else if token == "--case-sensitive" then CaseSensitiveFlag
    else if token == "--max-attempts" then MaxAttemptsFlag
    else if token == "--workers" then WorkersFlag
    else if token == "--help" then HelpFlag
    else Unrecognised
  }

  /** The flags that read `args[++i]`. */
  predicate TakesValue(f: Flag) {
    f.PrefixFlag? || f.SuffixFlag? || f.ContainsFlag? || f.MaxAttemptsFlag? || f.WorkersFlag?
  }

  /** `args[i]`, or `undefined` past the end. */
  function At(args: seq<string>, i: nat): Option<string> {
    if i < |args| then Some(args[i]) else None
  }

  /** `parseInt(args[++i])`: `parseInt(undefined)` is NaN. */
  function ParseNumber(parseInt: string -> NumberValue, value: Option<string>): NumberValue {
    if value.Some? then parseInt(value.value) else NaN
  }

  /** The assignment a value flag performs. */
  function SetOption(f: Flag, value: Option<string>, options: CliConfig, parseInt: string -> NumberValue): CliConfig
    requires TakesValue(f)
  {
    match f
    case PrefixFlag => options.(config := options.config.(prefix := value))
    case SuffixFlag => options.(config := options.config.(suffix := value))
    case ContainsFlag => options.(config := options.config.(contains := value))
    case MaxAttemptsFlag => options.(config := options.config.(maxAttempts := Some(ParseNumber(parseInt, value))))
    case WorkersFlag => options.(workers := Some(ParseNumber(parseInt, value)))
  }

  /** The arguments after a value flag and its value (none if the flag was
      last). */
  function AfterValue(args: seq<string>): seq<string> {
    if |args| >= 2 then args[2..] else []
  }

  /** The arguments the loop has not read yet when its index is `i` (which
      can pass the end by one after a trailing value flag). */
  function Rest(args: seq<string>, i: nat): seq<string> {
    if i <= |args| then args[i..] else []
  }

  /** Parsing the remaining arguments `args` with the options collected so
      far. */
  function ParseFrom(args: seq<string>, options: CliConfig, parseInt: string -> NumberValue): ParseResult
    decreases |args|
  {
    if args == [] then Parsed(options)
    else
      var f := Classify(args[0]);
      if f.HelpFlag? then ShowHelp
      else if f.CaseSensitiveFlag? then
        ParseFrom(args[1..], options.(config := options.config.(caseSensitive := Some(true))), parseInt)
      else if f.Unrecognised? then ParseFrom(args[1..], options, parseInt)
      else ParseFrom(AfterValue(args), SetOption(f, At(args, 1), options, parseInt), parseInt)
  }

  /** `parseArgs()` over the argument list `args`. */
  method ParseArgs(args: seq<string>, parseInt: string -> NumberValue) returns (r: ParseResult)
    ensures r == ParseFrom(args, NoOptions, parseInt)
  {
    var options := NoOptions;
    var i := 0;
    while i < |args|
      invariant 0 <= i <= |args| + 1
      invariant ParseFrom(args, NoOptions, parseInt) == ParseFrom(Rest(args, i), options, parseInt)
    {
      assert Rest(args, i)[1..] == Rest(args, i + 1);
      var f := Classify(args[i]);
      if f.HelpFlag? {
        return ShowHelp;
      } else if f.CaseSensitiveFlag? {
        options := options.(config := options.config.(caseSensitive := Some(true)));
      } else if TakesValue(f) {
        i := i + 1;
        assert AfterValue(Rest(args, i - 1)) == Rest(args, i + 1);
        assert At(Rest(args, i - 1), 1) == At(args, i);
        options := SetOption(f, At(args, i), options, parseInt);
      }
      i := i + 1;
    }
    r := Parsed(options);
  }

  /** The tokens the `switch` examines, in order: a value flag's argument is
      skipped, everything else is examined. */
  function Switched(args: seq<string>): seq<string>
    decreases |args|
  {
    if args == [] then []
    else if TakesValue(Classify(args[0])) then [args[0]] + Switched(AfterValue(args))
    else [args[0]] + Switched(args[1..])
  }

  /** Help is shown exactly when `--help` is among the examined tokens; the
      same token standing as a flag's value does not count. */
  lemma {:induction false} HelpIff(args: seq<string>, options: CliConfig, parseInt: string -> NumberValue)
    ensures ParseFrom(args, options, parseInt) == ShowHelp <==> "--help" in Switched(args)
    decreases |args|
  {
    if args != [] {
      var f := Classify(args[0]);
      if f.HelpFlag? {
        assert Switched(args)[0] == "--help";
      } else if f.CaseSensitiveFlag? {
        HelpIff(args[1..], options.(config := options.config.(caseSensitive := Some(true))), parseInt);
      } else if f.Unrecognised? {
        HelpIff(args[1..], options, parseInt);
      } else {
        HelpIff(AfterValue(args), SetOption(f, At(args, 1), options, parseInt), parseInt);
      }
    }
  }

  /** A value flag takes the next token as its value, even one that looks
      like a flag, and parsing resumes after it. */
  lemma ValueFlagConsumesNext(flag: string, value: string, rest: seq<string>, options: CliConfig, parseInt: string -> NumberValue)
    requires TakesValue(Classify(flag))
    ensures ParseFrom([flag, value] + rest, options, parseInt)
            == ParseFrom(rest, SetOption(Classify(flag), Some(value), options, parseInt), parseInt)
  {
    assert AfterValue([flag, value] + rest) == rest;
  }

  /** A value flag as the last argument assigns `undefined` (NaN for the
      numeric ones) and ends parsing. */
  lemma TrailingValueFlag(flag: string, options: CliConfig, parseInt: string -> NumberValue)
    requires TakesValue(Classify(flag))
    ensures ParseFrom([flag], options, parseInt) == Parsed(SetOption(Classify(flag), None, options, parseInt))
  {
  }

  /** `--case-sensitive` sets the flag and consumes only itself. */
  lemma CaseSensitiveConsumesOnlyItself(rest: seq<string>, options: CliConfig, parseInt: string -> NumberValue)
    ensures ParseFrom(["--case-sensitive"] + rest, options, parseInt)
            == ParseFrom(rest, options.(config := options.config.(caseSensitive := Some(true))), parseInt)
  {
    assert (["--case-sensitive"] + rest)[1..] == rest;
  }

  /** A token that is no flag is skipped without effect. */
  lemma UnrecognisedIgnored(token: string, rest: seq<string>, options: CliConfig, parseInt: string -> NumberValue)
    requires Classify(token).Unrecognised?
    ensures ParseFrom([token] + rest, options, parseInt) == ParseFrom(rest, options, parseInt)
  {
    assert ([token] + rest)[1..] == rest;
  }

  /** `args` ends on a token boundary: no value flag at its end waits for a
      value. */
  predicate Complete(args: seq<string>)
    decreases |args|
  {
    args == [] ||
    if TakesValue(Classify(args[0])) then |args| >= 2 && Complete(args[2..])
    else Complete(args[1..])
  }

  /** Parsing is left to right: a complete first part is parsed first and the
      second part continues from the options it produced. */
  lemma {:induction false} ParseConcat(a: seq<string>, b: seq<string>, options: CliConfig, parseInt: string -> NumberValue)
    requires Complete(a)
    ensures ParseFrom(a + b, options, parseInt) ==
      match ParseFrom(a, options, parseInt)
      case ShowHelp => ShowHelp
      case Parsed(o) => ParseFrom(b, o, parseInt)
    decreases |a|
  {
    if a == [] {
      assert a + b == b;
    } else {
      var f := Classify(a[0]);
      assert (a + b)[0] == a[0];
      if f.HelpFlag? {
      } else if f.CaseSensitiveFlag? {
        assert (a + b)[1..] == a[1..] + b;
        ParseConcat(a[1..], b, options.(config := options.config.(caseSensitive := Some(true))), parseInt);
      } else if f.Unrecognised? {
        assert (a + b)[1..] == a[1..] + b;
        ParseConcat(a[1..], b, options, parseInt);
      } else {
        assert AfterValue(a + b) == a[2..] + b;
        assert At(a + b, 1) == At(a, 1);
        ParseConcat(a[2..], b, SetOption(f, At(a, 1), options, parseInt), parseInt);
      }
    }
  }

  /** A flag repeated later wins: appending `flag value` to complete
      arguments overrides whatever they set for that option. */
  lemma LaterFlagOverrides(args: seq<string>, flag: string, value: string, options: CliConfig, parseInt: string -> NumberValue)
    requires Complete(args) && TakesValue(Classify(flag))
    requires ParseFrom(args, options, parseInt).Parsed?
    ensures ParseFrom(args + [flag, value], options, parseInt)
            == Parsed(SetOption(Classify(flag), Some(value), ParseFrom(args, options, parseInt).options, parseInt))
  {
    ParseConcat(args, [flag, value], options, parseInt);
    ValueFlagConsumesNext(flag, value, [], ParseFrom(args, options, parseInt).options, parseInt);
    assert [flag, value] + [] == [flag, value];
  }

  /** A value flag sets its own option only. */
  lemma SetOptionOnlyTouchesItsField(f: Flag, value: Option<string>, options: CliConfig, parseInt: string -> NumberValue)
    requires TakesValue(f)
    ensures var o := SetOption(f, value, options, parseInt);
      (o.config.prefix == if f.PrefixFlag? then value else options.config.prefix) &&
      (o.config.suffix == if f.SuffixFlag? then value else options.config.suffix) &&
      (o.config.contains == if f.ContainsFlag? then value else options.config.contains) &&
      o.config.caseSensitive == options.config.caseSensitive &&
      (o.config.maxAttempts == if f.MaxAttemptsFlag? then Some(ParseNumber(parseInt, value)) else options.config.maxAttempts) &&
      (o.workers == if f.WorkersFlag? then Some(ParseNumber(parseInt, value)) else options.workers)
  {
  }

  /** `--prefix --help` sets the prefix to the text "--help"; it shows no
      help. */
  lemma HelpAsValueExample(parseInt: string -> NumberValue)
    ensures ParseFrom(["--prefix", "--help"], NoOptions, parseInt)
            == Parsed(CliConfig(EmptyConfig.(prefix := Some("--help")), None))
  {
    assert Classify("--prefix") == PrefixFlag;
    assert AfterValue(["--prefix", "--help"]) == [];
  }

  /** How `runCLI` proceeds after parsing. */
  datatype CliOutcome =
    | HelpShown                                                   // `--help`: exit 0
    | PatternMissing                                              // no pattern: exit 1
    | Launch(config: VanityConfig, workers: Option<NumberValue>)  // start the generator

  /** `runCLI` up to the call of `generate`: parse, split `workers` off, and
      exit unless a prefix, suffix or contains was given. */
  function RunCli(args: seq<string>, parseInt: string -> NumberValue): CliOutcome {
    match ParseFrom(args, NoOptions, parseInt)
    case ShowHelp => HelpShown
    case Parsed(o) => if !HasPattern(o.config) then PatternMissing else Launch(o.config, o.workers)
  }

  /** `--help` among the examined tokens exits before the pattern check. */
  lemma RunCliHelpFirst(args: seq<string>, parseInt: string -> NumberValue)
    ensures RunCli(args, parseInt) == HelpShown <==> "--help" in Switched(args)
  {
    HelpIff(args, NoOptions, parseInt);
  }

  /** A pattern field changes only when its flag is among the examined
      tokens. */
  lemma {:induction false} UnflaggedPatternsKept(args: seq<string>, options: CliConfig, parseInt: string -> NumberValue)
    ensures match ParseFrom(args, options, parseInt)
      case ShowHelp => true
      case Parsed(o) =>
        ("--prefix" !in Switched(args) ==> o.config.prefix == options.config.prefix) &&
        ("--suffix" !in Switched(args) ==> o.config.suffix == options.config.suffix) &&
        ("--contains" !in Switched(args) ==> o.config.contains == options.config.contains)
    decreases |args|
  {
    if args != [] {
      var f := Classify(args[0]);
      if f.CaseSensitiveFlag? {
        UnflaggedPatternsKept(args[1..], options.(config := options.config.(caseSensitive := Some(true))), parseInt);
      } else if f.Unrecognised? {
        UnflaggedPatternsKept(args[1..], options, parseInt);
      } else if TakesValue(f) {
        UnflaggedPatternsKept(AfterValue(args), SetOption(f, At(args, 1), options, parseInt), parseInt);
      }
    }
  }

  /** The generator starts only if `--prefix`, `--suffix` or `--contains` is
      among the examined tokens: flags' values alone never supply a pattern. */
  lemma LaunchNeedsPatternFlag(args: seq<string>, parseInt: string -> NumberValue)
    ensures RunCli(args, parseInt).Launch? ==>
      "--prefix" in Switched(args) || "--suffix" in Switched(args) || "--contains" in Switched(args)
  {
    UnflaggedPatternsKept(args, NoOptions, parseInt);
  }

  /** Conversely, appending a pattern flag with a non-empty value to complete
      arguments without `--help` launches the generator, with that pattern
      set on the configuration the arguments produced and the worker count
      they gave. */
  lemma PatternFlagLaunches(args: seq<string>, flag: string, value: string, parseInt: string -> NumberValue)
    requires Complete(args) && "--help" !in Switched(args)
    requires Classify(flag).PrefixFlag? || Classify(flag).SuffixFlag? || Classify(flag).ContainsFlag?
    requires value != ""
    ensures ParseFrom(args, NoOptions, parseInt).Parsed?
    ensures var o := ParseFrom(args, NoOptions, parseInt).options;
      RunCli(args + [flag, value], parseInt)
      == Launch(SetOption(Classify(flag), Some(value), o, parseInt).config, o.workers)
  {
    HelpIff(args, NoOptions, parseInt);
    LaterFlagOverrides(args, flag, value, NoOptions, parseInt);
  }

  /** `--case-sensitive --max-attempts 5` alone starts nothing: it names no
      pattern. */
  lemma NoPatternExample(parseInt: string -> NumberValue)
    ensures RunCli(["--case-sensitive", "--max-attempts", "5"], parseInt) == PatternMissing
  {
    assert Classify("--case-sensitive") == CaseSensitiveFlag;
    assert Classify("--max-attempts") == MaxAttemptsFlag;
    assert ["--case-sensitive", "--max-attempts", "5"][1..] == ["--max-attempts", "5"];
    assert AfterValue(["--max-attempts", "5"]) == [];
  }
}

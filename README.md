# Solana vanity-address generator: a Dafny model

This project models the sequential core of a vanity-address generator. Worker
threads draw random keypairs until the base-58 address matches a pattern: a
prefix, a suffix, a substring, matched case-sensitively or not. A coordinator
spawns the workers, counts their progress and saves every match, and a command
line turns flags into a configuration. The model has five modules:

- `Types` mirrors the `VanityConfig` and `WorkerMessage` interfaces and the
  JavaScript truthiness tests the program applies to their optional fields.
  A number is an integer or NaN.
- `Matcher` is `matchesPattern` as a predicate. It is proved equal to "every
  non-empty field occurs where it should" in the lower-cased (or verbatim)
  address.
- `Workers` is the attempt loop and the worker's `start`/`stop` handler.
  - The keypair generator is replaced by the sequence of keypairs it would
    yield, so a run also ends when that sequence runs out.
  - The loop, a class method, is proved equal to a recursive specification
    `Run`. The properties of a run (progress counts, first match, attempt cap)
    are lemmas about `Run`.
- `Coordinator` is the class `VanityAddressGenerator`, with its event handlers
  as methods.
  - A database save is a boolean outcome.
  - Every `postMessage`/`terminate` is appended to a command log.
  - The promise of `generate` is a settlement field that only a pending
    promise can change.
- `Cli` is `parseArgs` (a loop over the arguments, proved equal to a
  recursive parser) and the pattern check of `runCLI`. `parseInt` is a
  parameter.

Where the program's documented design and its code differ, the model follows
the code:

- Progress messages carry the cumulative count of the run, and the
  coordinator adds each one as it comes. So `totalAttempts` grows by
  10000·k·(k+1)/2 for a run of k·10000 to k·10000+9999 attempts, which is
  more than were made once a run passes 20000 attempts
  (`Coordinator.DeliverRun`).
- A worker that exhausts `maxAttempts` posts no final progress message.
- `generate` resets the counters and sets the running flag before it
  validates the configuration. A rejected configuration therefore leaves the
  generator marked as running.
- A failed save posts no new `start` to the worker that found the address.
- `stop()` settles no promise.

## Model

| member | source | states |
|---|---|---|
| Matcher.ToLower | src/workers.ts:53-56 | lower-casing keeps the length, leaves no upper-case ASCII letter and changes only upper-case letters, each to its lower-case form |
| Matcher.ToLowerIdempotent | src/workers.ts:53-56 | lower-casing an already lower-cased string changes nothing |
| Matcher.OccurrenceIsIncluded | src/workers.ts:66 | a substring occurring at any index is found by `includes` |
| Matcher.IncludedOccurs | src/workers.ts:66 | whatever `includes` finds occurs at some index |
| Matcher.IncludesIff | src/workers.ts:66 | `includes` holds exactly when the substring occurs at some index |
| Matcher.NormalizedKeepsTruthiness | src/workers.ts:54-56 | lower-casing a pattern field neither sets nor clears it and keeps its length |
| Matcher.MatchesPatternIff | src/workers.ts:52-71 | the matcher accepts iff the set prefix occurs at 0, the set suffix occurs at the end and the set substring occurs somewhere, in the case-folded address |
| Matcher.UnsetFieldsImposeNoConstraint | src/workers.ts:58-70 | removing an absent or empty prefix, suffix or contains never changes the verdict |
| Matcher.NoPatternMatchesEverything | src/workers.ts:58-70 | a configuration without a non-empty pattern accepts every address |
| Matcher.CaseInsensitiveIsLowercasedMatch | src/workers.ts:53-56 | case-insensitive matching equals case-sensitive matching of the lower-cased address against the lower-cased patterns |
| Matcher.CaseInsensitiveIgnoresAddressCase | src/workers.ts:53 | without case sensitivity, addresses equal up to letter case get the same verdict |
| Matcher.CaseSensitivityExample | src/workers.ts:53-59 | "ABCxyz" matches prefix "abc" case-insensitively and not case-sensitively |
| Matcher.CombinedPatternExample | src/workers.ts:58-70 | "SolDAOxyz" matches prefix "Sol", suffix "xyz" and contains "DAO" together, and fails with suffix "zzz" |
| Workers.Run | src/workers.ts:9-50 | a run draws no more keypairs than it is given, and a run that finds a match drew at least one |
| Workers.RunShape | src/workers.ts:16-43 | a run posts the progress messages of the attempts it made, then one result for the last keypair drawn exactly when it found a match |
| Workers.ProgressesValues | src/workers.ts:16-23 | between two attempt counts the progress messages carry exactly the multiples of 10000 in between, in increasing order |
| Workers.ProgressesSnoc | src/workers.ts:16-23 | one more attempt appends a progress message exactly when the new count is a multiple of 10000 |
| Workers.RunFromStartShape | src/workers.ts:10-43 | a run posts 10000, 20000, ... up to the keypairs drawn and then at most one result, which comes last and carries the full count; no final progress follows an exhausted cap |
| Workers.BudgetStep | src/workers.ts:13 | an attempt made under the limit uses exactly one unit of the remaining budget |
| Workers.RunWithinBudget | src/workers.ts:13 | a run draws at most `maxAttempts` (when truthy) and the whole budget unless it finds a match |
| Workers.RunStopsAtFirstMatch | src/workers.ts:29-43 | every keypair drawn before the last fails the pattern, and the last matches exactly when the run reports a find |
| Workers.RunRespectsMaxAttempts | src/workers.ts:13 | a truthy `maxAttempts` caps the keypairs drawn (a negative one allows none); zero, NaN or an absent value caps nothing |
| Workers.RunFindsFirstMatch | src/workers.ts:13-43 | when the first match within the budget is at index k, the run finds it after exactly k+1 draws |
| Workers.RunExhaustsBudget | src/workers.ts:13-49 | when nothing within the budget matches, the run draws the whole budget and finds nothing |
| Workers.RunEndsWithMatch | src/workers.ts:29-43 | a loop exit on a match at index k is the whole run: progress up to k+1 and the result |
| Workers.RunEndsWithoutMatch | src/workers.ts:13-49 | a loop exit on an exhausted budget is the whole run: progress only |
| Workers.VanityWorker.constructor | src/workers.ts:6-7 | a fresh worker is stopped, has the empty configuration and has posted nothing |
| Workers.VanityWorker.GenerateVanityAddress | src/workers.ts:9-50 | the loop posts exactly the messages of `Run`, draws `Run`'s count and leaves the flag set iff nothing matched; a stopped worker does nothing |
| Workers.VanityWorker.HandleMessage | src/workers.ts:73-84 | `start` installs `message.config` or `{}`, sets the flag and runs the loop; `stop` only clears the flag; other kinds change nothing |
| Coordinator.SettleOnce | src/vanity-generator.ts:21-22 | a settled promise keeps its first outcome; a pending one takes the first `resolve`/`reject` |
| Coordinator.SpawnedBelow | src/vanity-generator.ts:42-92 | every listed worker was spawned before the counter's current value |
| Coordinator.SpawnedDistinct | src/vanity-generator.ts:42-92 | no worker is listed twice |
| Coordinator.SpawnedRaise | src/vanity-generator.ts:42-92 | spawning further workers keeps the existing list valid |
| Coordinator.AppendFresh | src/vanity-generator.ts:91 | pushing a newly spawned worker keeps the list duplicate-free |
| Coordinator.StartAllShape | src/vanity-generator.ts:98-103 | starting posts exactly one `start` with the configuration to each listed worker, in order, and nothing else |
| Coordinator.StopAllShape | src/vanity-generator.ts:134-137 | cleanup sends each listed worker `stop` and then `terminate`, in order, and nothing else |
| Coordinator.StopAllTargets | src/vanity-generator.ts:134-137 | every cleanup command goes to a listed worker, and every listed worker is stopped and terminated |
| Coordinator.SpawnWorkers | src/vanity-generator.ts:42-92 | the creation loop appends `count` freshly numbered workers and keeps the list duplicate-free |
| Coordinator.PostStartToAll | src/vanity-generator.ts:98-103 | the start loop logs the commands of `StartAll` |
| Coordinator.PostStopToAll | src/vanity-generator.ts:134-137 | the cleanup loop logs the commands of `StopAll` |
| Coordinator.ReportedAppend | src/vanity-generator.ts:79-80 | the progress total of two message sequences in a row is the sum of their totals |
| Coordinator.ReportedProgressions | src/vanity-generator.ts:79-80 | progress counts 10000, ..., 10000·k add up to 10000·k·(k+1)/2 |
| Coordinator.ReportedNoProgress | src/vanity-generator.ts:79-81 | messages other than `progress` add nothing to the total |
| Coordinator.ReportedProgressThenResult | src/vanity-generator.ts:79-81 | a run's progress counts followed by its result add up to the progress counts alone |
| Coordinator.RunReportedTotal | src/vanity-generator.ts:79-80 | the progress counts of a worker run add up to 10000·k·(k+1)/2 (k = attempts/10000), more than its attempts once it passes 20000 |
| Coordinator.SumExceedsCount | src/vanity-generator.ts:80 | from the second progress message on, the summed counts exceed the attempts made |
| Coordinator.VanityAddressGenerator.constructor | src/vanity-generator.ts:8-19 | a new generator is stopped, owns no workers, has zero counters and has posted nothing |
| Coordinator.VanityAddressGenerator.Cleanup | src/vanity-generator.ts:127-140 | clears the flag and the reporter, stops and terminates every listed worker, empties the list, and changes no counter and no settlement |
| Coordinator.VanityAddressGenerator.Stop | src/vanity-generator.ts:142-145 | `stop()` is a cleanup and settles nothing |
| Coordinator.VanityAddressGenerator.Generate | src/vanity-generator.ts:21-115 | resets both counters and sets the flag; without a pattern it rejects before spawning or posting anything; otherwise it spawns `numWorkers` workers, posts `start` to every listed one and arms a timeout iff `maxAttempts` is truthy |
| Coordinator.VanityAddressGenerator.HandleWorkerMessage | src/vanity-generator.ts:47-83 | progress adds `attempts` or 0 and changes nothing else, so a non-negative count never lowers `totalAttempts`; a saved result adds one address and then cleans up and resolves at the target, or restarts only that worker with the same configuration; a failed save or an empty result changes nothing |
| Coordinator.VanityAddressGenerator.OnWorkerError | src/vanity-generator.ts:85-89 | a worker error cleans up and rejects |
| Coordinator.VanityAddressGenerator.OnDeadline | src/vanity-generator.ts:106-113 | the timeout cleans up and rejects while running and does nothing once stopped |
| Coordinator.DeliverMessages | src/vanity-generator.ts:47-83 | a worker's messages handled one after another raise `totalAttempts` by exactly their progress total, whatever the results and saves do |
| Coordinator.DeliverRun | src/vanity-generator.ts:79-80 | the messages of one worker run raise `totalAttempts` by 10000·k·(k+1)/2 (k = attempts/10000), more than the attempts made once the run passes 20000 |
| Coordinator.StopTwice | src/vanity-generator.ts:142-145 | stopping twice posts only the first cleanup's commands |
| Cli.ParseArgs | src/cli.ts:6-52 | the argument loop yields what the recursive parser `ParseFrom` yields |
| Cli.HelpIff | src/cli.ts:29-47 | help is shown exactly when `--help` is among the tokens the switch examines, which excludes a flag's value |
| Cli.ValueFlagConsumesNext | src/cli.ts:11-28 | a value flag takes the next token as its value, even one that looks like a flag, and parsing resumes after it |
| Cli.TrailingValueFlag | src/cli.ts:11-28 | a value flag at the end assigns `undefined`, NaN for the numeric flags |
| Cli.CaseSensitiveConsumesOnlyItself | src/cli.ts:20-22 | `--case-sensitive` sets the flag and consumes only itself |
| Cli.UnrecognisedIgnored | src/cli.ts:10-48 | a token that is no flag is skipped without effect |
| Cli.ParseConcat | src/cli.ts:9-49 | parsing is left to right: the second part of the arguments continues from the options the complete first part produced |
| Cli.LaterFlagOverrides | src/cli.ts:9-28 | a flag repeated later overrides whatever the earlier arguments set for it |
| Cli.SetOptionOnlyTouchesItsField | src/cli.ts:11-28 | each value flag sets its own option and leaves the others unchanged; `--workers` is kept apart from the pattern configuration |
| Cli.HelpAsValueExample | src/cli.ts:11-13 | `--prefix --help` sets the prefix to "--help" and shows no help |
| Cli.RunCliHelpFirst | src/cli.ts:29-47 | `runCLI` exits with the usage exactly when `--help` is among the examined tokens, before any pattern check |
| Cli.UnflaggedPatternsKept | src/cli.ts:9-49 | prefix, suffix and contains change only when their own flag is among the examined tokens |
| Cli.LaunchNeedsPatternFlag | src/cli.ts:54-62 | the generator starts only if `--prefix`, `--suffix` or `--contains` is among the examined tokens |
| Cli.PatternFlagLaunches | src/cli.ts:54-62 | appending a pattern flag with a non-empty value to complete arguments without `--help` starts the generator with that pattern set on the parsed configuration and with the parsed worker count |
| Cli.NoPatternExample | src/cli.ts:58-62 | `--case-sensitive --max-attempts 5` is rejected for lack of a pattern |

## Left out

- `Keypair.generate`, `toBase58`, `bs58` and the secret-key rendering are foreign cryptography. A worker receives a finite sequence of keypairs instead, so an unbounded search is only modelled up to the keypairs supplied.
- MongoDB (`connectDB`, `TokenAddress.create`, the schemas in `src/models`) is I/O. A save is a boolean outcome; its unique indexes are why a save can fail.
- Thread spawning, `postMessage` transport, `terminate` and real concurrency are not modelled. Events are method calls processed one at a time, and commands are appended to a log. Nothing models a `stop` that arrives while a worker's loop runs, which the loop cannot observe anyway.
- Workers.VanityWorker.GenerateVanityAddress: the posted messages reach the outbox when the loop ends rather than one by one. No message is handled while the loop runs.
- The asynchronous gap between a result event, its save and the increment of `addressesFound` is not modelled. Each result event is handled whole.
- The progress reporter (`startProgressReporting`) prints clock-based rates. Only whether it is armed is kept.
- The timeout delay `(maxAttempts / numWorkers) * 10` is timer arithmetic. Only the firing of an armed timeout is modelled.
- The `os.cpus()` default worker count and all console output are left out. `process.exit` becomes an outcome of `Cli.RunCli`, and the SIGINT handler is just a call of `stop()`.
- Overlapping `generate` calls are not separated. The generator keeps one configuration and one settlement, those of the latest call.
- Lower-casing covers ASCII letters only, the only letters a base-58 address contains. Other characters of a pattern are left as they are.
- `src/index.ts` (process wiring with a fixed configuration) and `ecosystem.config.js` (deployment settings) are not part of this model.

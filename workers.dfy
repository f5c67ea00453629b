/** One worker thread: the attempt loop `generateVanityAddress` and the
    `start`/`stop` message handler. The keypair generator is replaced by the
    sequence of keypairs it would produce; messages posted to the parent are
    appended to the worker's outbox. */
module Workers {
  import opened Types
  import opened Matcher

  /** A progress message is posted every this many attempts. */
  const ProgressInterval: nat := 10000

  /** What one call of the keypair generator yields: the base-58 address and
      the secret key as `secretKey.toString()` renders it. */
  datatype Keypair = Keypair(publicKey: string, secretKey: string)

  /** `config.maxAttempts || Infinity`: None stands for Infinity. */
  function AttemptLimit(cfg: VanityConfig): Option<int> {
    if NumberSet(cfg.maxAttempts) then Some(cfg.maxAttempts.value.n) else None
  }

  /** The loop bound `attempts < (config.maxAttempts || Infinity)`. */
  predicate UnderLimit(cfg: VanityConfig, attempts: int) {
    match AttemptLimit(cfg)
    case None => true
    case Some(n) => attempts < n
  }

  /** How many more keypairs a run that has made `attempts` attempts may still
      draw from `available` remaining ones if none of them matches. */
  function Budget(cfg: VanityConfig, attempts: nat, available: nat): nat {
    match AttemptLimit(cfg)
    case None => available
    case Some(n) => if n - attempts <= 0 then 0 else if n - attempts < available then n - attempts else available
  }

  /** What a run posts, how many keypairs it draws and whether it found a match. */
  datatype RunOutcome = RunOutcome(messages: seq<WorkerMessage>, drawn: nat, found: bool)

  /** The remainder of a run that has already made `attempts` attempts and will
      be handed `keys` by the generator next. */
  function Run(cfg: VanityConfig, keys: seq<Keypair>, attempts: nat): (r: RunOutcome)
    ensures r.drawn <= |keys|
    ensures r.found ==> 1 <= r.drawn
    decreases |keys|
  {
    if keys == [] || !UnderLimit(cfg, attempts) then RunOutcome([], 0, false)
    else
      var n := attempts + 1;
      var progress := if n % ProgressInterval == 0 then [ProgressMessage(n)] else [];
      if MatchesPattern(keys[0].publicKey, cfg) then
        RunOutcome(progress + [ResultMessage(FoundAddress(keys[0].publicKey, keys[0].secretKey, n))], 1, true)
      else
        var rest := Run(cfg, keys[1..], n);
        RunOutcome(progress + rest.messages, rest.drawn + 1, rest.found)
  }

  /** The progress messages posted while the attempt count goes from `lo` to `hi`. */
  function Progresses(lo: nat, hi: nat): seq<WorkerMessage>
    decreases hi - lo
  {
    if hi <= lo then []
    else (if (lo + 1) % ProgressInterval == 0 then [ProgressMessage(lo + 1)] else []) + Progresses(lo + 1, hi)
  }

  /** The result message for the keypair drawn at attempt `attempts`. */
  function Found(key: Keypair, attempts: int): WorkerMessage {
    ResultMessage(FoundAddress(key.publicKey, key.secretKey, attempts))
  }

  /** A run posts its progress messages and then, if it found a match, one
      result for the last keypair it drew, carrying the cumulative count. */
  lemma {:induction false} RunShape(cfg: VanityConfig, keys: seq<Keypair>, attempts: nat)
    ensures var r := Run(cfg, keys, attempts);
      r.messages == Progresses(attempts, attempts + r.drawn)
                    + (if r.found then [Found(keys[r.drawn - 1], attempts + r.drawn)] else [])
    decreases |keys|
  {
    if keys != [] && UnderLimit(cfg, attempts) && !MatchesPattern(keys[0].publicKey, cfg) {
      RunShape(cfg, keys[1..], attempts + 1);
      var rest := Run(cfg, keys[1..], attempts + 1);
      if rest.found {
        assert keys[1..][rest.drawn - 1] == keys[rest.drawn];
      }
    }
  }

  /** The progress messages between `lo` and `hi` carry exactly the multiples
      of the interval in (lo, hi], in increasing order. */
  lemma {:induction false} ProgressesValues(lo: nat, hi: nat)
    requires lo <= hi
    ensures |Progresses(lo, hi)| == hi / ProgressInterval - lo / ProgressInterval
    ensures forall i :: 0 <= i < |Progresses(lo, hi)| ==>
      Progresses(lo, hi)[i] == ProgressMessage((lo / ProgressInterval + 1 + i) * ProgressInterval)
    decreases hi - lo
  {
    if lo < hi {
      ProgressesValues(lo + 1, hi);
      if (lo + 1) % ProgressInterval == 0 {
        assert (lo + 1) / ProgressInterval == lo / ProgressInterval + 1;
        assert lo + 1 == (lo / ProgressInterval + 1) * ProgressInterval;
      } else {
        assert (lo + 1) / ProgressInterval == lo / ProgressInterval;
      }
    }
  }

  /** A run that starts from zero attempts posts the progress counts
      10000, 20000, ... up to the number of keypairs drawn, and then at most one
      result, which is the last message and carries the full count. */
  lemma RunFromStartShape(cfg: VanityConfig, keys: seq<Keypair>)
    ensures var r := Run(cfg, keys, 0);
      r.messages == seq(r.drawn / ProgressInterval, i => ProgressMessage((i + 1) * ProgressInterval))
                    + (if r.found then [Found(keys[r.drawn - 1], r.drawn)] else [])
  {
    var r := Run(cfg, keys, 0);
    RunShape(cfg, keys, 0);
    ProgressesValues(0, r.drawn);
    assert Progresses(0, r.drawn) == seq(r.drawn / ProgressInterval, i => ProgressMessage((i + 1) * ProgressInterval));
  }

  /** One attempt under the limit uses up one unit of the budget. */
  lemma BudgetStep(cfg: VanityConfig, attempts: nat, available: nat)
    requires UnderLimit(cfg, attempts) && available > 0
    ensures Budget(cfg, attempts, available) == Budget(cfg, attempts + 1, available - 1) + 1
  {
  }

  /** A run draws at most its budget, and all of it unless it finds a match. */
  lemma {:induction false} RunWithinBudget(cfg: VanityConfig, keys: seq<Keypair>, attempts: nat)
    ensures var r := Run(cfg, keys, attempts);
      r.drawn <= Budget(cfg, attempts, |keys|) &&
      (!r.found ==> r.drawn == Budget(cfg, attempts, |keys|))
    decreases |keys|
  {
    if keys != [] && UnderLimit(cfg, attempts) {
      BudgetStep(cfg, attempts, |keys|);
      if !MatchesPattern(keys[0].publicKey, cfg) {
        RunWithinBudget(cfg, keys[1..], attempts + 1);
      }
    }
  }

  /** The run stops at the first match: every keypair it drew before the last
      one fails the pattern, and the last one matches exactly when the run
      reports a find. */
  lemma {:induction false} RunStopsAtFirstMatch(cfg: VanityConfig, keys: seq<Keypair>, attempts: nat)
    ensures var r := Run(cfg, keys, attempts);
      (forall j :: 0 <= j < r.drawn - 1 ==> !MatchesPattern(keys[j].publicKey, cfg)) &&
      (r.drawn > 0 ==> (r.found <==> MatchesPattern(keys[r.drawn - 1].publicKey, cfg)))
    decreases |keys|
  {
    if keys != [] && UnderLimit(cfg, attempts) && !MatchesPattern(keys[0].publicKey, cfg) {
      RunStopsAtFirstMatch(cfg, keys[1..], attempts + 1);
      var rest := Run(cfg, keys[1..], attempts + 1);
      forall j | 1 <= j < rest.drawn + 1
        ensures keys[j] == keys[1..][j - 1]
      {
      }
    }
  }

  /** A positive `maxAttempts` caps the number of keypairs a run draws; zero,
      NaN or an absent value caps nothing. */
  lemma RunRespectsMaxAttempts(cfg: VanityConfig, keys: seq<Keypair>)
    ensures NumberSet(cfg.maxAttempts) ==>
      Run(cfg, keys, 0).drawn <= (if cfg.maxAttempts.value.n < 0 then 0 else cfg.maxAttempts.value.n)
    ensures !NumberSet(cfg.maxAttempts) ==>
      (Run(cfg, keys, 0).found || Run(cfg, keys, 0).drawn == |keys|)
  {
    RunWithinBudget(cfg, keys, 0);
  }

  /** Reaching one more attempt appends at most one progress message. */
  lemma {:induction false} ProgressesSnoc(lo: nat, hi: nat)
    requires lo <= hi
    ensures Progresses(lo, hi + 1) ==
      Progresses(lo, hi) + (if (hi + 1) % ProgressInterval == 0 then [ProgressMessage(hi + 1)] else [])
    decreases hi - lo
  {
    if lo < hi {
      ProgressesSnoc(lo + 1, hi);
    }
  }

  lemma AppendAssoc(a: seq<WorkerMessage>, b: seq<WorkerMessage>, c: seq<WorkerMessage>)
    ensures a + (b + c) == (a + b) + c
  {
  }

  /** None of the first `k` keypairs matches. */
  predicate NoMatchBefore(cfg: VanityConfig, keys: seq<Keypair>, k: nat)
    requires k <= |keys|
    decreases k
  {
    k == 0 || (NoMatchBefore(cfg, keys, k - 1) && !MatchesPattern(keys[k - 1].publicKey, cfg))
  }

  lemma {:induction false} NoMatchBeforeAll(cfg: VanityConfig, keys: seq<Keypair>, k: nat)
    requires k <= |keys| && NoMatchBefore(cfg, keys, k)
    ensures forall j :: 0 <= j < k ==> !MatchesPattern(keys[j].publicKey, cfg)
    decreases k
  {
    if k > 0 {
      NoMatchBeforeAll(cfg, keys, k - 1);
    }
  }

  /** When the keypair at index `k` is the first match within the budget, the
      run draws exactly `k + 1` keypairs and finds a match. */
  lemma {:induction false} RunFindsFirstMatch(cfg: VanityConfig, keys: seq<Keypair>, attempts: nat, k: nat)
    requires k < Budget(cfg, attempts, |keys|)
    requires MatchesPattern(keys[k].publicKey, cfg)
    requires forall j :: 0 <= j < k ==> !MatchesPattern(keys[j].publicKey, cfg)
    ensures Run(cfg, keys, attempts).found && Run(cfg, keys, attempts).drawn == k + 1
    decreases k
  {
    if k > 0 {
      forall j | 0 <= j < k - 1
        ensures !MatchesPattern(keys[1..][j].publicKey, cfg)
      {
        assert keys[1..][j] == keys[j + 1];
      }
      RunFindsFirstMatch(cfg, keys[1..], attempts + 1, k - 1);
    }
  }

  /** When no keypair within the budget matches, the run draws the whole
      budget and finds nothing. */
  lemma {:induction false} RunExhaustsBudget(cfg: VanityConfig, keys: seq<Keypair>, attempts: nat)
    requires forall j :: 0 <= j < Budget(cfg, attempts, |keys|) ==> !MatchesPattern(keys[j].publicKey, cfg)
    ensures !Run(cfg, keys, attempts).found && Run(cfg, keys, attempts).drawn == Budget(cfg, attempts, |keys|)
    decreases |keys|
  {
    if keys != [] && UnderLimit(cfg, attempts) {
      forall j | 0 <= j < Budget(cfg, attempts + 1, |keys| - 1)
        ensures !MatchesPattern(keys[1..][j].publicKey, cfg)
      {
        assert keys[1..][j] == keys[j + 1];
      }
      RunExhaustsBudget(cfg, keys[1..], attempts + 1);
    }
  }

  /** The loop's exit on a match at index `k`, in terms of the specification. */
  lemma RunEndsWithMatch(cfg: VanityConfig, keys: seq<Keypair>, k: nat)
    requires k < |keys| && k < Budget(cfg, 0, |keys|)
    requires NoMatchBefore(cfg, keys, k) && MatchesPattern(keys[k].publicKey, cfg)
    ensures Run(cfg, keys, 0) == RunOutcome(Progresses(0, k + 1) + [Found(keys[k], k + 1)], k + 1, true)
  {
    NoMatchBeforeAll(cfg, keys, k);
    RunFindsFirstMatch(cfg, keys, 0, k);
    RunShape(cfg, keys, 0);
  }

  /** The loop's exit without a match after `k` attempts, in terms of the
      specification. */
  lemma RunEndsWithoutMatch(cfg: VanityConfig, keys: seq<Keypair>, k: nat)
    requires k <= |keys| && k == Budget(cfg, 0, |keys|) && NoMatchBefore(cfg, keys, k)
    ensures Run(cfg, keys, 0) == RunOutcome(Progresses(0, k), k, false)
  {
    NoMatchBeforeAll(cfg, keys, k);
    RunExhaustsBudget(cfg, keys, 0);
    RunShape(cfg, keys, 0);
  }

  /** The state of one worker thread: the module-level `isRunning` and
      `config`, and the messages it has posted to its parent. */
  class VanityWorker {
    var isRunning: bool
    var config: VanityConfig
    var outbox: seq<WorkerMessage>

    constructor ()
      ensures !isRunning && config == EmptyConfig && outbox == []
    {
      isRunning := false;
      config := EmptyConfig;
      outbox := [];
    }

    /** `generateVanityAddress`, fed the keypairs the generator would produce;
        returns how many of them the loop drew. The loop runs to completion
        without handling any message, so it reads `config` as it stands and
        keeps the flag and the posted messages in locals that are written
        back when it ends. */
    method GenerateVanityAddress(keys: seq<Keypair>) returns (drawn: nat)
      modifies this
      ensures config == old(config)
      ensures var r := Run(config, keys, 0);
        if old(isRunning) then
          outbox == old(outbox) + r.messages && drawn == r.drawn && isRunning == !r.found
        else
          outbox == old(outbox) && drawn == 0 && !isRunning
    {
      var attempts: nat := 0;
      var running, posted := isRunning, outbox;
      while running && UnderLimit(config, attempts) && attempts < |keys|
        invariant attempts <= |keys|
        invariant running ==> attempts <= Budget(config, 0, |keys|) && NoMatchBefore(config, keys, attempts)
        invariant running ==> posted == outbox + Progresses(0, attempts)
        invariant !running ==> attempts == 0 && posted == outbox
        modifies {}
      {
        ProgressesSnoc(0, attempts);
        var key := keys[attempts];
        attempts := attempts + 1;
        if attempts % ProgressInterval == 0 {
          AppendAssoc(outbox, Progresses(0, attempts - 1), [ProgressMessage(attempts)]);
          posted := posted + [ProgressMessage(attempts)];
        }
        if MatchesPattern(key.publicKey, config) {
          RunEndsWithMatch(config, keys, attempts - 1);
          AppendAssoc(outbox, Progresses(0, attempts), [Found(key, attempts)]);
          posted := posted + [Found(key, attempts)];
          running := false;
          break;
        }
      }
      if running {
        RunEndsWithoutMatch(config, keys, attempts);
      }
      outbox, isRunning := posted, running;
      drawn := attempts;
    }

    /** The `message` handler: `start` installs `message.config || {}`, sets the
        flag and runs the loop on `keys`; `stop` only clears the flag; other
        message kinds are ignored. */
    method HandleMessage(message: WorkerMessage, keys: seq<Keypair>) returns (drawn: nat)
      modifies this
      ensures message.kind == Start ==>
        var r := Run(message.config.GetOr(EmptyConfig), keys, 0);
        config == message.config.GetOr(EmptyConfig) &&
        outbox == old(outbox) + r.messages && drawn == r.drawn && isRunning == !r.found
      ensures message.kind == Stop ==>
        !isRunning && config == old(config) && outbox == old(outbox) && drawn == 0
      ensures message.kind != Start && message.kind != Stop ==>
        isRunning == old(isRunning) && config == old(config) && outbox == old(outbox) && drawn == 0
    {
      match message.kind
      case Start =>
        config := message.config.GetOr(EmptyConfig);
        isRunning := true;
        drawn := GenerateVanityAddress(keys);
      case Stop =>
        isRunning := false;
        drawn := 0;
      case _ =>
        drawn := 0;
    }
  }
}

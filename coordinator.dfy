/** The coordinator `VanityAddressGenerator`: it spawns the workers, posts them
    their commands, folds their `progress` and `result` events into its
    counters and shuts everything down. Worker threads are identified by
    number; every `postMessage` and `terminate` it issues is appended to a log,
    and the promise returned by `generate` is a settlement field. */
module Coordinator {
  import opened Types
  import opened Workers

  /** `TARGET_ADDRESSES`: how many saved addresses end a search. */
  const TargetAddresses: nat := 1_000_000

  /** A worker thread, numbered in the order the coordinator spawned it. */
  type WorkerId = nat

  /** What the coordinator does to a worker: `worker.postMessage(message)` or
      `worker.terminate()`. */
  datatype Command = Post(worker: WorkerId, message: WorkerMessage) | Terminate(worker: WorkerId)

  /** Why the promise of `generate` was rejected. */
  datatype Rejection =
    | MissingPattern               // no prefix, suffix or contains
    | WorkerError(worker: WorkerId) // a worker thread raised `error`
    | AttemptBudgetExhausted       // the `maxAttempts` timeout fired while running

  /** The state of the promise returned by the latest `generate` call. */
  datatype Settlement = NoRun | Pending | Resolved(result: FoundAddress) | Rejected(reason: Rejection)

  /** `resolve`/`reject`: a promise settles at most once, so only a pending
      one takes the new outcome. */
  function Settle(s: Settlement, outcome: Settlement): Settlement {
    if s.Pending? then outcome else s
  }

  /** Once settled, a promise ignores every later `resolve` or `reject`. */
  lemma SettleOnce(s: Settlement, first: Settlement, later: Settlement)
    requires !first.Pending?
    ensures Settle(Settle(s, first), later) == Settle(s, first)
    ensures s.Pending? ==> Settle(s, first) == first
  {
  }

  /** `message.attempts || 0`. */
  function AttemptsReported(message: WorkerMessage): int {
    message.attempts.GetOr(0)
  }

  /** How many workers `for (let i = 0; i < numWorkers; i++)` spawns: none for
      NaN or a value below one. */
  function SpawnCount(numWorkers: NumberValue): nat {
    match numWorkers
    case NaN => 0
    case IntValue(n) => if n < 0 then 0 else n
  }

  /** The identifiers `lo`, `lo + 1`, ..., `hi - 1`. */
  function Range(lo: nat, hi: nat): seq<WorkerId>
    requires lo <= hi
  {
    seq(hi - lo, i => lo + i)
  }

  /** The listed identifiers are pairwise distinct and were all handed out
      before the spawn counter reached `n`. */
  predicate Spawned(ws: seq<WorkerId>, n: nat)
    decreases |ws|
  {
    ws == [] ||
    (Spawned(ws[..|ws| - 1], n) && ws[|ws| - 1] < n && ws[|ws| - 1] !in ws[..|ws| - 1])
  }

  lemma {:induction false} SpawnedBelow(ws: seq<WorkerId>, n: nat)
    requires Spawned(ws, n)
    ensures forall i :: 0 <= i < |ws| ==> ws[i] < n
    decreases |ws|
  {
    if ws != [] {
      SpawnedBelow(ws[..|ws| - 1], n);
      forall i | 0 <= i < |ws| - 1
        ensures ws[i] < n
      {
        assert ws[i] == ws[..|ws| - 1][i];
      }
    }
  }

  lemma {:induction false} SpawnedDistinct(ws: seq<WorkerId>, n: nat)
    requires Spawned(ws, n)
    ensures forall i, j :: 0 <= i < j < |ws| ==> ws[i] != ws[j]
    decreases |ws|
  {
    if ws != [] {
      var init := ws[..|ws| - 1];
      SpawnedDistinct(init, n);
      forall i, j | 0 <= i < j < |ws|
        ensures ws[i] != ws[j]
      {
        assert ws[i] == init[i];
        if j < |ws| - 1 {
          assert ws[j] == init[j];
        } else {
          assert ws[i] in init;
        }
      }
    }
  }

  /** Appending the next identifier of the counter keeps the list
      duplicate-free and below the advanced counter. */
  lemma {:induction false} AppendFresh(ws: seq<WorkerId>, n: nat)
    requires Spawned(ws, n)
    ensures Spawned(ws + [n], n + 1)
  {
    SpawnedBelow(ws, n);
    SpawnedRaise(ws, n, n + 1);
    assert (ws + [n])[..|ws|] == ws;
  }

  lemma {:induction false} SpawnedRaise(ws: seq<WorkerId>, n: nat, m: nat)
    requires Spawned(ws, n) && n <= m
    ensures Spawned(ws, m)
    decreases |ws|
  {
    if ws != [] {
      SpawnedRaise(ws[..|ws| - 1], n, m);
    }
  }

  /** `this.workers.forEach(w => w.postMessage({ type: 'start', config }))`. */
  function StartAll(ws: seq<WorkerId>, cfg: VanityConfig): seq<Command>
    decreases |ws|
  {
    if ws == [] then []
    else StartAll(ws[..|ws| - 1], cfg) + [Post(ws[|ws| - 1], StartMessage(cfg))]
  }

  /** The `forEach` of `cleanup`: each worker is sent `stop` and then
      terminated. */
  function StopAll(ws: seq<WorkerId>): seq<Command>
    decreases |ws|
  {
    if ws == [] then []
    else StopAll(ws[..|ws| - 1]) + [Post(ws[|ws| - 1], StopMessage), Terminate(ws[|ws| - 1])]
  }

  /** Starting posts exactly one `start` with the given config to each listed
      worker, in list order, and nothing else. */
  lemma {:induction false} StartAllShape(ws: seq<WorkerId>, cfg: VanityConfig)
    ensures |StartAll(ws, cfg)| == |ws|
    ensures forall i :: 0 <= i < |ws| ==> StartAll(ws, cfg)[i] == Post(ws[i], StartMessage(cfg))
    decreases |ws|
  {
    if ws != [] {
      StartAllShape(ws[..|ws| - 1], cfg);
    }
  }

  /** Cleaning up sends each listed worker `stop` and then terminates it, in
      list order, and addresses no other worker. */
  lemma {:induction false} StopAllShape(ws: seq<WorkerId>)
    ensures |StopAll(ws)| == 2 * |ws|
    ensures forall i :: 0 <= i < |ws| ==>
      StopAll(ws)[2 * i] == Post(ws[i], StopMessage) && StopAll(ws)[2 * i + 1] == Terminate(ws[i])
    decreases |ws|
  {
    if ws != [] {
      StopAllShape(ws[..|ws| - 1]);
    }
  }

  /** Every command of a cleanup is addressed to a listed worker, and every
      listed worker is both stopped and terminated. */
  lemma StopAllTargets(ws: seq<WorkerId>)
    ensures forall c :: c in StopAll(ws) ==> c.worker in ws
    ensures forall w :: w in ws ==> Post(w, StopMessage) in StopAll(ws) && Terminate(w) in StopAll(ws)
  {
    StopAllShape(ws);
    forall c | c in StopAll(ws)
      ensures c.worker in ws
    {
      var k :| 0 <= k < |StopAll(ws)| && StopAll(ws)[k] == c;
      assert StopAll(ws)[2 * (k / 2)] == Post(ws[k / 2], StopMessage);
    }
    forall w | w in ws
      ensures Post(w, StopMessage) in StopAll(ws) && Terminate(w) in StopAll(ws)
    {
      var i :| 0 <= i < |ws| && ws[i] == w;
      assert StopAll(ws)[2 * i] == Post(w, StopMessage);
      assert StopAll(ws)[2 * i + 1] == Terminate(w);
    }
  }

  /** The worker-creation loop of `generate`: `count` new workers, numbered
      on from the spawn counter `next`, are pushed onto the list. */
  method SpawnWorkers(ws: seq<WorkerId>, next: nat, count: nat) returns (ws': seq<WorkerId>, next': nat)
    requires Spawned(ws, next)
    ensures next' == next + count
    ensures ws' == ws + Range(next, next')
    ensures Spawned(ws', next')
  {
    ws', next' := ws, next;
    var i := 0;
    while i < count
      invariant 0 <= i <= count
      invariant next' == next + i
      invariant ws' == ws + Range(next, next')
      invariant Spawned(ws', next')
    {
      AppendFresh(ws', next');
      assert Range(next, next' + 1) == Range(next, next') + [next'];
      ws' := ws' + [next'];
      next' := next' + 1;
      i := i + 1;
    }
  }

  /** The `forEach` of `generate` that posts `start` to every listed worker,
      appending to the command log `log`. */
  method PostStartToAll(log: seq<Command>, ws: seq<WorkerId>, cfg: VanityConfig) returns (posted: seq<Command>)
    ensures posted == log + StartAll(ws, cfg)
  {
    posted := log;
    var j := 0;
    while j < |ws|
      invariant 0 <= j <= |ws|
      invariant posted == log + StartAll(ws[..j], cfg)
    {
      assert ws[..j + 1][..j] == ws[..j];
      posted := posted + [Post(ws[j], StartMessage(cfg))];
      j := j + 1;
    }
    assert ws[..j] == ws;
  }

  /** The `forEach` of `cleanup` that sends `stop` to every listed worker and
      terminates it, appending to the command log `log`. */
  method PostStopToAll(log: seq<Command>, ws: seq<WorkerId>) returns (posted: seq<Command>)
    ensures posted == log + StopAll(ws)
  {
    posted := log;
    var i := 0;
    while i < |ws|
      invariant 0 <= i <= |ws|
      invariant posted == log + StopAll(ws[..i])
    {
      assert ws[..i + 1][..i] == ws[..i];
      posted := posted + [Post(ws[i], StopMessage), Terminate(ws[i])];
      i := i + 1;
    }
    assert ws[..i] == ws;
  }

  /** The sum the `progress` branch adds up over a sequence of worker
      messages; other message kinds add nothing. */
  function Reported(messages: seq<WorkerMessage>): int
    decreases |messages|
  {
    if messages == [] then 0
    else Reported(messages[..|messages| - 1])
         + (if messages[|messages| - 1].kind.Progress? then AttemptsReported(messages[|messages| - 1]) else 0)
  }

  lemma {:induction false} ReportedAppend(a: seq<WorkerMessage>, b: seq<WorkerMessage>)
    ensures Reported(a + b) == Reported(a) + Reported(b)
    decreases |b|
  {
    if b != [] {
      var ab := a + b;
      var last := b[|b| - 1];
      assert ab[..|ab| - 1] == a + b[..|b| - 1];
      assert ab[|ab| - 1] == last;
      ReportedAppend(a, b[..|b| - 1]);
    } else {
      assert a + b == a;
    }
  }

  /** The progress counts 10000, 20000, ..., 10000 * k add up to
      10000 * k * (k + 1) / 2. */
  lemma {:induction false} ReportedProgressions(k: nat)
    ensures Reported(seq(k, i => ProgressMessage((i + 1) * ProgressInterval)))
            == ProgressInterval * (k * (k + 1) / 2)
  {
    if k > 0 {
      var s := seq(k, i => ProgressMessage((i + 1) * ProgressInterval));
      assert s[..k - 1] == seq(k - 1, i => ProgressMessage((i + 1) * ProgressInterval));
      ReportedProgressions(k - 1);
      assert (k - 1) * k / 2 + k == k * (k + 1) / 2 by {
        assert (k - 1) * k + 2 * k == k * (k + 1);
      }
    }
  }

  /** Progress counts followed by messages of other kinds add up to the
      progress counts alone. */
  lemma ReportedProgressThenResult(k: nat, tail: seq<WorkerMessage>)
    requires forall i :: 0 <= i < |tail| ==> !tail[i].kind.Progress?
    ensures Reported(seq(k, i => ProgressMessage((i + 1) * ProgressInterval)) + tail)
            == ProgressInterval * (k * (k + 1) / 2)
  {
    ReportedAppend(seq(k, i => ProgressMessage((i + 1) * ProgressInterval)), tail);
    ReportedProgressions(k);
    ReportedNoProgress(tail);
  }

  lemma {:induction false} ReportedNoProgress(ms: seq<WorkerMessage>)
    requires forall i :: 0 <= i < |ms| ==> !ms[i].kind.Progress?
    ensures Reported(ms) == 0
    decreases |ms|
  {
    if ms != [] {
      ReportedNoProgress(ms[..|ms| - 1]);
    }
  }

  /** What one worker run contributes to `totalAttempts`: because every
      `progress` message carries the run's cumulative count, a run that drew
      `d` keypairs adds 10000 * k * (k + 1) / 2 with k = d / 10000, which
      exceeds `d` as soon as the run passes 20000 attempts. */
  lemma RunReportedTotal(cfg: VanityConfig, keys: seq<Keypair>)
    ensures var r := Run(cfg, keys, 0);
      var k := r.drawn / ProgressInterval;
      Reported(r.messages) == ProgressInterval * (k * (k + 1) / 2) &&
      (k >= 2 ==> Reported(r.messages) > r.drawn)
  {
    var r := Run(cfg, keys, 0);
    RunFromStartShape(cfg, keys);
    ReportedProgressThenResult(r.drawn / ProgressInterval,
      if r.found then [Found(keys[r.drawn - 1], r.drawn)] else []);
    SumExceedsCount(r.drawn);
  }

  lemma SumExceedsCount(d: nat)
    ensures var k := d / ProgressInterval;
      k >= 2 ==> ProgressInterval * (k * (k + 1) / 2) > d
  {
    var k := d / ProgressInterval;
    if k >= 2 {
      assert k * (k + 1) / 2 >= k + 1 by {
        assert k * (k + 1) >= 2 * k + 2;
      }
      assert d < (k + 1) * ProgressInterval;
    }
  }

  /** The coordinator. `config` is the configuration of the latest `generate`
      call, which its event handlers capture; `settlement` is that call's
      promise; `reporting` says whether the progress interval is armed and
      `pendingDeadlines` counts armed `maxAttempts` timeouts. */
  class VanityAddressGenerator {
    const numWorkers: NumberValue
    var workers: seq<WorkerId>
    var isRunning: bool
    var totalAttempts: int
    var addressesFound: nat
    var reporting: bool
    var pendingDeadlines: nat
    var config: VanityConfig
    var settlement: Settlement
    var log: seq<Command>
    var spawned: nat

    /** Every listed worker is a distinct spawned thread, and a stopped
        generator owns no workers and reports nothing. */
    predicate Owned()
      reads this
    {
      Spawned(workers, spawned) &&
      (!isRunning ==> workers == []) &&
      (reporting ==> isRunning)
    }

    /** Between events, moreover, a running generator is below target. */
    predicate Valid()
      reads this
    {
      Owned() && (isRunning ==> addressesFound < TargetAddresses)
    }

    constructor (numWorkers: NumberValue)
      ensures Valid()
      ensures this.numWorkers == numWorkers
      ensures workers == [] && !isRunning && totalAttempts == 0 && addressesFound == 0
      ensures !reporting && pendingDeadlines == 0 && settlement == NoRun && log == [] && spawned == 0
    {
      this.numWorkers := numWorkers;
      workers := [];
      isRunning := false;
      totalAttempts := 0;
      addressesFound := 0;
      reporting := false;
      pendingDeadlines := 0;
      config := EmptyConfig;
      settlement := NoRun;
      log := [];
      spawned := 0;
    }

    /** `cleanup`: clear the flag and the progress interval, send every
        worker `stop` and terminate it, and forget the list. */
    method Cleanup()
      modifies this
      requires Owned()
      ensures Valid()
      ensures !isRunning && !reporting && workers == []
      ensures log == old(log) + StopAll(old(workers))
      ensures totalAttempts == old(totalAttempts) && addressesFound == old(addressesFound)
      ensures pendingDeadlines == old(pendingDeadlines) && config == old(config)
      ensures settlement == old(settlement) && spawned == old(spawned)
    {
      isRunning := false;
      reporting := false;
      log := PostStopToAll(log, workers);
      workers := [];
    }

    /** `stop()`: the public entry to `cleanup`; it does not settle the
        promise. */
    method Stop()
      modifies this
      requires Valid()
      ensures Valid()
      ensures !isRunning && !reporting && workers == []
      ensures log == old(log) + StopAll(old(workers))
      ensures totalAttempts == old(totalAttempts) && addressesFound == old(addressesFound)
      ensures pendingDeadlines == old(pendingDeadlines) && config == old(config)
      ensures settlement == old(settlement) && spawned == old(spawned)
    {
      Cleanup();
    }

    /** `generate(config)`: reset the counters and set the flag, then reject
        a configuration without a pattern before any worker exists; otherwise
        spawn `numWorkers` workers, arm the progress reporter, post `start` to
        every listed worker and arm a timeout when `maxAttempts` is truthy. */
    method Generate(cfg: VanityConfig)
      modifies this
      requires Valid()
      ensures Valid()
      ensures totalAttempts == 0 && addressesFound == 0 && isRunning
      ensures !HasPattern(cfg) ==>
        settlement == Rejected(MissingPattern) &&
        workers == old(workers) && spawned == old(spawned) && log == old(log) &&
        reporting == old(reporting) && pendingDeadlines == old(pendingDeadlines) && config == old(config)
      ensures HasPattern(cfg) ==>
        settlement == Pending && config == cfg && reporting &&
        spawned == old(spawned) + SpawnCount(numWorkers) &&
        workers == old(workers) + Range(old(spawned), spawned) &&
        log == old(log) + StartAll(workers, cfg) &&
        pendingDeadlines == old(pendingDeadlines) + (if NumberSet(cfg.maxAttempts) then 1 else 0)
    {
      totalAttempts := 0;
      addressesFound := 0;
      isRunning := true;
      if !HasPattern(cfg) {
        settlement := Rejected(MissingPattern);
        return;
      }
      settlement := Pending;
      config := cfg;
      workers, spawned := SpawnWorkers(workers, spawned, SpawnCount(numWorkers));
      reporting := true;
      log := PostStartToAll(log, workers, cfg);
      if NumberSet(cfg.maxAttempts) {
        pendingDeadlines := pendingDeadlines + 1;
      }
    }

    /** The `message` handler of worker `w`. `saved` is the outcome of
        storing a result in the database. A `progress` event adds its count; a
        stored `result` counts one more address and either finishes the search
        at the target or restarts `w` with the same configuration; a result
        that could not be stored, a `result` without payload and any other
        message kind change nothing. */
    method HandleWorkerMessage(w: WorkerId, message: WorkerMessage, saved: bool)
      modifies this
      requires Valid()
      ensures Valid()
      ensures message.kind.Progress? ==>
        totalAttempts == old(totalAttempts) + AttemptsReported(message) &&
        addressesFound == old(addressesFound) && isRunning == old(isRunning) && reporting == old(reporting) &&
        workers == old(workers) && log == old(log) && settlement == old(settlement)
      ensures AttemptsReported(message) >= 0 ==> totalAttempts >= old(totalAttempts)
      ensures message.kind.Result? && message.result.Some? && saved ==>
        addressesFound == old(addressesFound) + 1 && totalAttempts == old(totalAttempts) &&
        if addressesFound >= TargetAddresses then
          !isRunning && !reporting && workers == [] &&
          log == old(log) + StopAll(old(workers)) &&
          settlement == Settle(old(settlement), Resolved(message.result.value))
        else
          isRunning == old(isRunning) && reporting == old(reporting) && workers == old(workers) &&
          log == old(log) + [Post(w, StartMessage(config))] && settlement == old(settlement)
      ensures (message.kind.Result? && (message.result.None? || !saved)) || message.kind.Start? || message.kind.Stop? ==>
        totalAttempts == old(totalAttempts) && addressesFound == old(addressesFound) &&
        isRunning == old(isRunning) && reporting == old(reporting) && workers == old(workers) &&
        log == old(log) && settlement == old(settlement)
      ensures config == old(config) && spawned == old(spawned) && pendingDeadlines == old(pendingDeadlines)
    {
      match message.kind
      case Result =>
        if message.result.Some? && saved {
          addressesFound := addressesFound + 1;
          if addressesFound >= TargetAddresses {
            Cleanup();
            settlement := Settle(settlement, Resolved(message.result.value));
            return;
          }
          log := log + [Post(w, StartMessage(config))];
        }
      case Progress =>
        totalAttempts := totalAttempts + AttemptsReported(message);
      case _ =>
    }

    /** The `error` handler of worker `w`: clean up and reject. */
    method OnWorkerError(w: WorkerId)
      modifies this
      requires Valid()
      ensures Valid()
      ensures !isRunning && !reporting && workers == []
      ensures log == old(log) + StopAll(old(workers))
      ensures settlement == Settle(old(settlement), Rejected(WorkerError(w)))
      ensures totalAttempts == old(totalAttempts) && addressesFound == old(addressesFound)
      ensures config == old(config) && spawned == old(spawned) && pendingDeadlines == old(pendingDeadlines)
    {
      Cleanup();
      settlement := Settle(settlement, Rejected(WorkerError(w)));
    }

    /** An armed `maxAttempts` timeout fires: while running it cleans up and
        rejects; once the generator has stopped it does nothing. */
    method OnDeadline()
      modifies this
      requires Valid() && pendingDeadlines > 0
      ensures Valid()
      ensures pendingDeadlines == old(pendingDeadlines) - 1
      ensures old(isRunning) ==>
        !isRunning && !reporting && workers == [] &&
        log == old(log) + StopAll(old(workers)) &&
        settlement == Settle(old(settlement), Rejected(AttemptBudgetExhausted))
      ensures !old(isRunning) ==>
        !isRunning && reporting == old(reporting) && workers == old(workers) &&
        log == old(log) && settlement == old(settlement)
      ensures totalAttempts == old(totalAttempts) && addressesFound == old(addressesFound)
      ensures config == old(config) && spawned == old(spawned)
    {
      pendingDeadlines := pendingDeadlines - 1;
      if isRunning {
        Cleanup();
        settlement := Settle(settlement, Rejected(AttemptBudgetExhausted));
      }
    }
  }

  /** Worker `w`'s messages arrive one after another at its `message`
      handler, every result with the same save outcome `saved`: whatever else
      happens, `totalAttempts` grows by exactly the progress total of the
      sequence. */
  method DeliverMessages(g: VanityAddressGenerator, w: WorkerId, ms: seq<WorkerMessage>, saved: bool)
    modifies g
    requires g.Valid()
    ensures g.Valid()
    ensures g.totalAttempts == old(g.totalAttempts) + Reported(ms)
  {
    var i := 0;
    while i < |ms|
      invariant 0 <= i <= |ms|
      invariant g.Valid()
      invariant g.totalAttempts == old(g.totalAttempts) + Reported(ms[..i])
    {
      assert ms[..i + 1][..i] == ms[..i];
      g.HandleWorkerMessage(w, ms[i], saved);
      i := i + 1;
    }
    assert ms[..|ms|] == ms;
  }

  /** The messages of one worker run, delivered to the coordinator, raise
      `totalAttempts` by 10000 * k * (k + 1) / 2 for a run of `d` attempts
      with k = d / 10000: more than `d` once the run passes 20000 attempts. */
  method DeliverRun(g: VanityAddressGenerator, w: WorkerId, cfg: VanityConfig, keys: seq<Keypair>, saved: bool)
    modifies g
    requires g.Valid()
    ensures g.Valid()
    ensures var r := Run(cfg, keys, 0);
      var k := r.drawn / ProgressInterval;
      g.totalAttempts == old(g.totalAttempts) + ProgressInterval * (k * (k + 1) / 2) &&
      (k >= 2 ==> g.totalAttempts > old(g.totalAttempts) + r.drawn)
  {
    RunReportedTotal(cfg, keys);
    DeliverMessages(g, w, Run(cfg, keys, 0).messages, saved);
  }

  /** Calling `stop()` twice is harmless: the second call posts nothing. */
  method StopTwice(g: VanityAddressGenerator)
    modifies g
    requires g.Valid()
    ensures g.Valid() && !g.isRunning && g.workers == []
    ensures g.log == old(g.log) + StopAll(old(g.workers))
    ensures g.settlement == old(g.settlement)
  {
    g.Stop();
    ghost var afterFirst := g.log;
    g.Stop();
    assert g.log == afterFirst;
  }
}

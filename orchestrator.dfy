/**
 * The download orchestrator: a bounded queue of download requests, the inflight and
 * completed dedup sets, five counters and the batch whose latest timestamp becomes
 * the checkpoint.
 *
 * The source runs several workers as goroutines over a channel. This model runs one
 * worker step at a time. The channel is its buffer (`queue`, at most `capacity`
 * requests) plus the sends that goroutines have started and not yet delivered
 * (`pending`): retries and the requests for a module's dependencies.
 *
 * `WorkerStep` states what one pass of the worker loop does to the whole state,
 * `Run` chains passes, and the class `DownloadClient` is the imperative client whose
 * `ProcessNext` is proved to do exactly what `WorkerStep` says.
 */
module Orchestrator {
  import opened Wrappers
  import opened Modules
  import opened Downloader
  import opened Utils

  /** The source's DownloadStatus values, and Dropped for a request that was already known. */
  datatype Status = Dropped | Pending | Skipped | Retry | Failed | Completed

  datatype Counters = Counters(inflight: int, skipped: int, failed: int, completed: int, retried: int)

  const Zero: Counters := Counters(0, 0, 0, 0, 0)

  /** The counter a status bumps; Dropped and Pending have none. */
  function CounterOf(c: Counters, st: Status): int {
    match st
    case Skipped => c.skipped
    case Retry => c.retried
    case Failed => c.failed
    case Completed => c.completed
    case _ => 0
  }

  /** The four outcome counters together. */
  function Outcomes(c: Counters): int {
    c.skipped + c.failed + c.completed + c.retried
  }

  /** The counter update of completeInflight's switch, without the inflight decrement. */
  function Tally(c: Counters, st: Status): (r: Counters)
    ensures r.inflight == c.inflight
    ensures Outcomes(r) == Outcomes(c) + (if st in {Dropped, Pending} then 0 else 1)
    ensures st !in {Dropped, Pending} ==> CounterOf(r, st) == CounterOf(c, st) + 1
    ensures r.skipped >= c.skipped && r.failed >= c.failed && r.completed >= c.completed && r.retried >= c.retried
  {
    match st
    case Skipped => c.(skipped := c.skipped + 1)
    case Retry => c.(retried := c.retried + 1)
    case Failed => c.(failed := c.failed + 1)
    case Completed => c.(completed := c.completed + 1)
    case _ => c
  }

  /** stats.Reset: every outcome counter back to zero, the inflight counter kept. */
  function ResetCounters(c: Counters): Counters {
    c.(skipped := 0, failed := 0, completed := 0, retried := 0)
  }

  datatype Config = Config(skipPseudoVersions: bool, skipMaxTsWrite: bool, numRetries: int, capacity: nat)

  datatype ClientState = ClientState(
    queue: seq<DownloadRequest>,    // requests buffered in the channel
    pending: seq<DownloadRequest>,  // goroutine sends not yet in the channel
    inflight: set<string>,          // inflightModules
    completed: set<string>,         // completedModules
    counters: Counters,             // stats
    currentBatch: Option<seq<Module>>)

  datatype StepResult = StepResult(status: Status, next: ClientState)

  function HeadKey(s: ClientState): string
    requires |s.queue| > 0
  {
    Identity(s.queue[0].mod)
  }

  /** The request's key is already completed or being worked on. */
  predicate Known(s: ClientState)
    requires |s.queue| > 0
  {
    HeadKey(s) in s.completed || HeadKey(s) in s.inflight
  }

  /** The skip policy: an optional pseudo-version when skipping is on. */
  predicate SkipsPseudo(cfg: Config, req: DownloadRequest) {
    !req.required && cfg.skipPseudoVersions && IsPseudoVersion(req.mod.version)
  }

  /** The head request reaches the Download call. */
  predicate Attempted(cfg: Config, s: ClientState)
    requires |s.queue| > 0
  {
    !Known(s) && !SkipsPseudo(cfg, s.queue[0])
  }

  /**
   * One pass of the worker loop over the request at the head of the queue, with the
   * inflight mark and unmark folded together. `d` is what Download returns for the
   * request if the pass gets that far; DownloadClient.ProcessNext supplies it.
   */
  function WorkerStep(cfg: Config, s: ClientState, d: DownloadResult): (r: StepResult)
    requires |s.queue| > 0
    ensures r.next.queue == s.queue[1..] && r.status != Pending
    ensures r.next.inflight == s.inflight && r.next.currentBatch == s.currentBatch
  {
    var req := s.queue[0];
    var rest := s.(queue := s.queue[1..]);
    if Known(s) then StepResult(Dropped, rest)
    else if SkipsPseudo(cfg, req) then StepResult(Skipped, rest.(counters := Tally(s.counters, Skipped)))
    else
      var sent := s.pending + d.emitted;
      if d.err.Some? then
        if req.retries > 0 then
          StepResult(Retry, rest.(pending := sent + [req.(retries := req.retries - 1)],
                                  counters := Tally(s.counters, Retry)))
        else
          StepResult(Failed, rest.(pending := sent, counters := Tally(s.counters, Failed)))
      else
        StepResult(Completed, rest.(pending := sent, completed := s.completed + {HeadKey(s)},
                                    counters := Tally(s.counters, Completed)))
  }

  /** What one pass of the worker loop promises about the whole state. */
  lemma WorkerStepSpec(cfg: Config, s: ClientState, d: DownloadResult)
    requires |s.queue| > 0
    // the request leaves the queue; the inflight set and counter end as they began; the batch stays
    ensures var r := WorkerStep(cfg, s, d);
            && r.next.queue == s.queue[1..]
            && r.next.inflight == s.inflight && r.next.counters.inflight == s.counters.inflight
            && r.next.currentBatch == s.currentBatch
            && r.status != Pending
    // dedup: a known key is dropped and nothing else changes
    ensures var r := WorkerStep(cfg, s, d);
            && (r.status == Dropped <==> Known(s))
            && (r.status == Dropped ==> r.next == s.(queue := s.queue[1..]))
    // skip policy; a required request is never skipped
    ensures var r := WorkerStep(cfg, s, d);
            && (r.status == Skipped <==> !Known(s) && SkipsPseudo(cfg, s.queue[0]))
            && (s.queue[0].required ==> r.status != Skipped)
    // exactly one outcome counter goes up, the one matching the status
    ensures var r := WorkerStep(cfg, s, d);
            && Outcomes(r.next.counters) == Outcomes(s.counters) + (if r.status == Dropped then 0 else 1)
            && (r.status != Dropped ==> CounterOf(r.next.counters, r.status) == CounterOf(s.counters, r.status) + 1)
            && r.next.counters.skipped >= s.counters.skipped && r.next.counters.failed >= s.counters.failed
            && r.next.counters.completed >= s.counters.completed && r.next.counters.retried >= s.counters.retried
    // only a successful download completes the key
    ensures var r := WorkerStep(cfg, s, d);
            && (r.status == Completed <==> Attempted(cfg, s) && d.err.None?)
            && r.next.completed == if r.status == Completed then s.completed + {HeadKey(s)} else s.completed
    // a failed attempt is retried with one retry fewer while retries remain, and fails for good otherwise
    ensures var r := WorkerStep(cfg, s, d);
            && (r.status == Retry <==> Attempted(cfg, s) && d.err.Some? && s.queue[0].retries > 0)
            && (r.status == Retry ==>
                  r.next.pending == s.pending + d.emitted + [s.queue[0].(retries := s.queue[0].retries - 1)])
            && (r.status in {Failed, Completed} ==> r.next.pending == s.pending + d.emitted)
            && (r.status in {Dropped, Skipped} ==> r.next.pending == s.pending)
  {
  }

  /** A new optional pseudo-version under the skip policy: counted as skipped, nothing else. */
  lemma SkippedStep(cfg: Config, s: ClientState, d: DownloadResult)
    requires |s.queue| > 0 && !Known(s) && SkipsPseudo(cfg, s.queue[0])
    ensures WorkerStep(cfg, s, d)
         == StepResult(Skipped, s.(queue := s.queue[1..], counters := Tally(s.counters, Skipped)))
  {
  }

  /** A new request that reaches Download, in closed form. */
  lemma AttemptedStep(cfg: Config, s: ClientState, d: DownloadResult)
    requires |s.queue| > 0 && Attempted(cfg, s)
    ensures var req := s.queue[0];
            var st := if d.err.None? then Completed else if req.retries > 0 then Retry else Failed;
            WorkerStep(cfg, s, d)
              == StepResult(st, s.(queue := s.queue[1..],
                                   pending := s.pending + d.emitted
                                              + (if st == Retry then [req.(retries := req.retries - 1)] else []),
                                   completed := s.completed + (if st == Completed then {HeadKey(s)} else {}),
                                   counters := Tally(s.counters, st)))
  {
    var req := s.queue[0];
    assert s.pending + d.emitted + [] == s.pending + d.emitted;
    assert s.completed + {} == s.completed;
  }

  /** A goroutine's send lands in the channel buffer. */
  function Deliver(s: ClientState, i: nat): (r: ClientState)
    requires i < |s.pending|
    ensures r.queue == s.queue + [s.pending[i]]
    ensures r.pending == s.pending[..i] + s.pending[i + 1..]
    ensures multiset(r.queue + r.pending) == multiset(s.queue + s.pending)
    ensures r.inflight == s.inflight && r.completed == s.completed
    ensures r.counters == s.counters && r.currentBatch == s.currentBatch
  {
    var r := s.(queue := s.queue + [s.pending[i]], pending := s.pending[..i] + s.pending[i + 1..]);
    assert s.pending == s.pending[..i] + [s.pending[i]] + s.pending[i + 1..];
    r
  }

  /** awaitInflight's loop condition is false: nothing buffered and nothing inflight. */
  predicate Drained(s: ClientState) {
    |s.queue| == 0 && s.counters.inflight == 0
  }

  datatype RunResult = RunResult(statuses: seq<Status>, final: ClientState)

  /**
   * The worker loop over a sequence of passes, `ds[k]` being what Download returns
   * if the k-th pass reaches it: take the head of the buffer, or, when the buffer is
   * empty, let the oldest pending send in first.
   */
  function Run(cfg: Config, s: ClientState, ds: seq<DownloadResult>): (r: RunResult)
    decreases |ds|, |s.pending|
  {
    if |ds| == 0 then RunResult([], s)
    else if |s.queue| > 0 then
      var st := WorkerStep(cfg, s, ds[0]);
      var rest := Run(cfg, st.next, ds[1..]);
      RunResult([st.status] + rest.statuses, rest.final)
    else if |s.pending| > 0 && cfg.capacity > 0 then
      Run(cfg, Deliver(s, 0), ds)
    else RunResult([], s)
  }

  /**
   * The loop takes one outcome per pass and stops short of the outcomes only when it
   * is idle: nothing is buffered, and no pending send can get into the channel.
   */
  lemma {:induction false} RunStops(cfg: Config, s: ClientState, ds: seq<DownloadResult>)
    ensures var r := Run(cfg, s, ds);
            && |r.statuses| <= |ds|
            && (|r.statuses| < |ds| ==> |r.final.queue| == 0 && (|r.final.pending| == 0 || cfg.capacity == 0))
    decreases |ds|, |s.pending|
  {
    if |ds| == 0 {
    } else if |s.queue| > 0 {
      RunStops(cfg, WorkerStep(cfg, s, ds[0]).next, ds[1..]);
    } else if |s.pending| > 0 && cfg.capacity > 0 {
      RunStops(cfg, Deliver(s, 0), ds);
    }
  }

  function Count(sts: seq<Status>, st: Status): nat {
    if |sts| == 0 then 0 else (if sts[0] == st then 1 else 0) + Count(sts[1..], st)
  }

  /**
   * Over any run: the inflight set and counter, and the batch, end as they began;
   * the completed set only grows; each Completed outcome adds one new key, and the
   * completed counter tracks it; the buffer stays within capacity.
   */
  lemma {:induction false} RunInvariants(cfg: Config, s: ClientState, ds: seq<DownloadResult>)
    ensures var r := Run(cfg, s, ds);
            && r.final.inflight == s.inflight
            && r.final.counters.inflight == s.counters.inflight
            && r.final.currentBatch == s.currentBatch
            && s.completed <= r.final.completed
            && |r.final.completed| - |s.completed| == Count(r.statuses, Completed)
            && r.final.counters.completed - s.counters.completed == Count(r.statuses, Completed)
            && (|s.queue| <= cfg.capacity ==> |r.final.queue| <= cfg.capacity)
    decreases |ds|, |s.pending|
  {
    if |ds| == 0 {
    } else if |s.queue| > 0 {
      var st := WorkerStep(cfg, s, ds[0]);
      WorkerStepSpec(cfg, s, ds[0]);
      RunInvariants(cfg, st.next, ds[1..]);
      var rest := Run(cfg, st.next, ds[1..]);
      assert Run(cfg, s, ds) == RunResult([st.status] + rest.statuses, rest.final);
      assert ([st.status] + rest.statuses)[1..] == rest.statuses;
      if st.status == Completed {
        assert HeadKey(s) !in s.completed;
        assert |st.next.completed| == |s.completed| + 1;
      }
    } else if |s.pending| > 0 && cfg.capacity > 0 {
      RunInvariants(cfg, Deliver(s, 0), ds);
    }
  }

  /** Every attempt fails before a go.mod is parsed: no success, no dependency requests. */
  predicate AllFail(ds: seq<DownloadResult>) {
    forall k :: 0 <= k < |ds| ==> ds[k].err.Some? && ds[k].emitted == []
  }

  /** An attempt that neither succeeds nor reaches the go.mod's requirements fails that way. */
  lemma FailsEarly(req: DownloadRequest, env: FetchEnv, validSemver: string -> bool, numRetries: int, now: int)
    requires !Succeeds(env, validSemver(req.mod.version)) && !ReachesDependencies(env, validSemver(req.mod.version))
    ensures AllFail([Download(req, env, validSemver, numRetries, now)])
  {
  }

  /** The statuses of a request that fails every attempt: n retries, then a failure. */
  function RetryLog(n: nat): (r: seq<Status>)
    ensures |r| == n + 1 && r[n] == Failed
    ensures forall k :: 0 <= k < n ==> r[k] == Retry
  {
    if n == 0 then [Failed] else [Retry] + RetryLog(n - 1)
  }

  /**
   * One failing attempt of the only request while retries remain: the retried copy,
   * with one retry fewer, is delivered and run next.
   */
  lemma RetryStep(cfg: Config, s: ClientState, ds: seq<DownloadResult>)
    requires |s.queue| == 1 && s.pending == [] && cfg.capacity > 0
    requires s.queue[0].retries > 0 && |ds| >= 2
    requires !Known(s) && !SkipsPseudo(cfg, s.queue[0])
    requires ds[0].err.Some? && ds[0].emitted == []
    ensures var req := s.queue[0];
            var next := s.(queue := [req.(retries := req.retries - 1)], counters := Tally(s.counters, Retry));
            var rest := Run(cfg, next, ds[1..]);
            Run(cfg, s, ds) == RunResult([Retry] + rest.statuses, rest.final)
  {
    WorkerStepSpec(cfg, s, ds[0]);
    var req := s.queue[0];
    var st := WorkerStep(cfg, s, ds[0]);
    assert st.next == s.(queue := [], pending := [req.(retries := req.retries - 1)], counters := st.next.counters);
    assert Deliver(st.next, 0) == s.(queue := [req.(retries := req.retries - 1)], counters := st.next.counters);
  }

  /** The retried copy is as new to the client as the request was, and the rest of the attempts still fail. */
  lemma RetriedCopy(cfg: Config, s: ClientState, ds: seq<DownloadResult>)
    requires |s.queue| == 1 && s.pending == [] && cfg.capacity > 0
    requires !Known(s) && !SkipsPseudo(cfg, s.queue[0])
    requires s.queue[0].retries > 0 && |ds| == s.queue[0].retries + 1
    requires AllFail(ds)
    ensures var req := s.queue[0];
            var s' := s.(queue := [req.(retries := req.retries - 1)], counters := Tally(s.counters, Retry));
            && |s'.queue| == 1 && s'.pending == [] && !Known(s') && !SkipsPseudo(cfg, s'.queue[0])
            && s'.queue[0].retries >= 0 && |ds[1..]| == s'.queue[0].retries + 1
            && AllFail(ds[1..])
  {
    var req := s.queue[0];
    var s' := s.(queue := [req.(retries := req.retries - 1)], counters := Tally(s.counters, Retry));
    assert HeadKey(s') == HeadKey(s);
    assert forall k | 0 <= k < |ds[1..]| :: ds[1..][k] == ds[k + 1];
  }

  /** The failing attempt of the only request with no retries left ends the run. */
  lemma LastStep(cfg: Config, s: ClientState, ds: seq<DownloadResult>)
    requires |s.queue| == 1 && s.pending == []
    requires s.queue[0].retries == 0 && |ds| == 1
    requires !Known(s) && !SkipsPseudo(cfg, s.queue[0])
    requires ds[0].err.Some? && ds[0].emitted == []
    ensures Run(cfg, s, ds) == RunResult([Failed], s.(queue := [], counters := Tally(s.counters, Failed)))
  {
    WorkerStepSpec(cfg, s, ds[0]);
  }

  /**
   * A request with retry budget n whose every attempt fails is attempted exactly
   * n + 1 times: n retries, then one failure, after which it is in neither the
   * buffer nor the pending sends, was never completed, and the retried and failed
   * counters have gone up by n and 1.
   */
  lemma {:induction false} RetriesThenFails(cfg: Config, s: ClientState, ds: seq<DownloadResult>)
    requires |s.queue| == 1 && s.pending == [] && cfg.capacity > 0
    requires !Known(s) && !SkipsPseudo(cfg, s.queue[0])
    requires s.queue[0].retries >= 0 && |ds| == s.queue[0].retries + 1
    requires AllFail(ds)
    ensures Run(cfg, s, ds)
         == RunResult(RetryLog(s.queue[0].retries),
                      s.(queue := [], counters := s.counters.(retried := s.counters.retried + s.queue[0].retries,
                                                              failed := s.counters.failed + 1)))
    decreases s.queue[0].retries
  {
    var req, n := s.queue[0], s.queue[0].retries;
    if n > 0 {
      var s' := s.(queue := [req.(retries := n - 1)], counters := Tally(s.counters, Retry));
      RetriedCopy(cfg, s, ds);
      var fin := s.(queue := [], counters := s.counters.(retried := s.counters.retried + n, failed := s.counters.failed + 1));
      calc {
        Run(cfg, s, ds);
        == { RetryStep(cfg, s, ds); }
        RunResult([Retry] + Run(cfg, s', ds[1..]).statuses, Run(cfg, s', ds[1..]).final);
        == { RetriesThenFails(cfg, s', ds[1..]); }
        RunResult([Retry] + RetryLog(n - 1), fin);
      }
    } else {
      LastStep(cfg, s, ds);
    }
  }

  /** The requests EnqueueBatch sends: one optional request per module, in batch order. */
  function BatchRequests(mods: seq<Module>, numRetries: int, now: int): (rs: seq<DownloadRequest>)
    ensures |rs| == |mods|
    ensures forall k :: 0 <= k < |rs| ==> rs[k].mod == mods[k] && !rs[k].required && rs[k].retries == numRetries
  {
    seq(|mods|, k requires 0 <= k < |mods| => NewDownloadRequest(mods[k], false, numRetries, now))
  }

  // ---------------------------------------------------------------------------
  // The imperative client

  /** The stats counters, each a plain integer. */
  class Stats {
    var inflightRequests: int
    var skippedRequests: int
    var failedRequests: int
    var completedRequests: int
    var retriedRequests: int

    /** newStats. */
    constructor ()
      ensures Value() == Zero
    {
      inflightRequests, skippedRequests, failedRequests, completedRequests, retriedRequests := 0, 0, 0, 0, 0;
    }

    function Value(): Counters
      reads this
    {
      Counters(inflightRequests, skippedRequests, failedRequests, completedRequests, retriedRequests)
    }

    /** stats.Reset: failed, retried, skipped and completed to zero; inflight untouched. */
    method Reset()
      modifies this
      ensures Value() == ResetCounters(old(Value()))
      ensures inflightRequests == old(inflightRequests)
      ensures failedRequests == 0 && retriedRequests == 0 && skippedRequests == 0 && completedRequests == 0
    {
      failedRequests := 0;
      retriedRequests := 0;
      skippedRequests := 0;
      completedRequests := 0;
    }
  }

  class DownloadClient {
    var queue: seq<DownloadRequest>
    var pending: seq<DownloadRequest>
    var capacity: nat
    const inflightModules: ConcurrentSet<string>
    const completedModules: ConcurrentSet<string>
    const stats: Stats
    var skipPseudoVersions: bool
    var skipMaxTsWrite: bool
    var numRetries: int
    var currentBatch: Option<seq<Module>>

    ghost predicate Valid()
      reads this
    {
      inflightModules != completedModules && |queue| <= capacity
    }

    function Cfg(): Config
      reads this
    {
      Config(skipPseudoVersions, skipMaxTsWrite, numRetries, capacity)
    }

    ghost function State(): ClientState
      reads this, inflightModules, completedModules, stats
    {
      ClientState(queue, pending, inflightModules.m, completedModules.m, stats.Value(), currentBatch)
    }

    /** NewDownloadClient: a one-slot channel, no skipping, ten retries per module. */
    constructor ()
      ensures Valid() && fresh(inflightModules) && fresh(completedModules) && fresh(stats)
      ensures State() == ClientState([], [], {}, {}, Zero, None)
      ensures Cfg() == Config(false, false, 10, 1)
    {
      queue, pending, capacity := [], [], 1;
      inflightModules := new ConcurrentSet<string>();
      completedModules := new ConcurrentSet<string>();
      stats := new Stats();
      skipPseudoVersions, skipMaxTsWrite, numRetries := false, false, 10;
      currentBatch := None;
    }

    /** WithRequestCapacity: a new, empty channel of the given size. */
    method WithRequestCapacity(cnt: nat)
      requires Valid() && cnt >= 1
      modifies this
      ensures Valid() && queue == [] && capacity == cnt
      ensures pending == old(pending) && currentBatch == old(currentBatch)
      ensures skipPseudoVersions == old(skipPseudoVersions) && skipMaxTsWrite == old(skipMaxTsWrite)
      ensures numRetries == old(numRetries)
    {
      queue, capacity := [], cnt;
    }

    method WithSkipPseudoVersions(setting: bool)
      requires Valid()
      modifies this
      ensures Valid() && Cfg() == old(Cfg()).(skipPseudoVersions := setting)
      ensures queue == old(queue) && pending == old(pending) && currentBatch == old(currentBatch)
    {
      skipPseudoVersions := setting;
    }

    method WithSkipMaxTsWrite(setting: bool)
      requires Valid()
      modifies this
      ensures Valid() && Cfg() == old(Cfg()).(skipMaxTsWrite := setting)
      ensures queue == old(queue) && pending == old(pending) && currentBatch == old(currentBatch)
    {
      skipMaxTsWrite := setting;
    }

    method WithPerModuleRetries(setting: int)
      requires Valid()
      modifies this
      ensures Valid() && Cfg() == old(Cfg()).(numRetries := setting)
      ensures queue == old(queue) && pending == old(pending) && currentBatch == old(currentBatch)
    {
      numRetries := setting;
    }

    /** enqueueMod: a blocking send, so the caller needs a free slot. */
    method EnqueueMod(mod: Module, required: bool, now: int)
      requires Valid() && |queue| < capacity
      modifies this
      ensures Valid() && Cfg() == old(Cfg())
      ensures queue == old(queue) + [NewDownloadRequest(mod, required, numRetries, now)]
      ensures pending == old(pending) && currentBatch == old(currentBatch)
    {
      queue := queue + [NewDownloadRequest(mod, required, numRetries, now)];
    }

    /**
     * EnqueueBatch: remember the batch for the checkpoint and send one optional
     * request per module, in order. The caller blocks while the channel is full, so
     * here the whole batch must fit.
     */
    method EnqueueBatch(mods: seq<Module>, now: int)
      requires Valid() && |queue| + |mods| <= capacity
      modifies this
      ensures Valid() && Cfg() == old(Cfg())
      ensures currentBatch == Some(mods)
      ensures queue == old(queue) + BatchRequests(mods, numRetries, now)
      ensures pending == old(pending)
    {
      currentBatch := Some(mods);
      for i := 0 to |mods|
        invariant Valid() && Cfg() == old(Cfg()) && currentBatch == Some(mods) && pending == old(pending)
        invariant queue == old(queue) + BatchRequests(mods[..i], numRetries, now)
      {
        assert BatchRequests(mods[..i + 1], numRetries, now)
            == BatchRequests(mods[..i], numRetries, now) + [NewDownloadRequest(mods[i], false, numRetries, now)];
        EnqueueMod(mods[i], false, now);
      }
      assert mods[..|mods|] == mods;
    }

    /** setInflight: mark the key and count the request before any work. */
    method SetInflight(req: DownloadRequest)
      modifies inflightModules, stats
      ensures inflightModules.m == old(inflightModules.m) + {Identity(req.mod)}
      ensures stats.Value() == old(stats.Value()).(inflight := old(stats.Value()).inflight + 1)
    {
      inflightModules.Set(Identity(req.mod));
      stats.inflightRequests := stats.inflightRequests + 1;
    }

    /** completeInflight: count the outcome, then unmark the key and uncount the request. */
    method CompleteInflight(req: DownloadRequest, status: Status)
      modifies inflightModules, stats
      ensures inflightModules.m == old(inflightModules.m) - {Identity(req.mod)}
      ensures stats.Value() == Tally(old(stats.Value()), status).(inflight := old(stats.Value()).inflight - 1)
    {
      match status {
        case Completed => stats.completedRequests := stats.completedRequests + 1;
        case Failed => stats.failedRequests := stats.failedRequests + 1;
        case Skipped => stats.skippedRequests := stats.skippedRequests + 1;
        case Retry => stats.retriedRequests := stats.retriedRequests + 1;
        case _ =>
      }
      inflightModules.Delete(Identity(req.mod));
      stats.inflightRequests := stats.inflightRequests - 1;
    }

    /** One pass of the worker loop in ProcessIncomingDownloadRequests. */
    method ProcessNext(env: FetchEnv, validSemver: string -> bool, now: int) returns (status: Status)
      requires Valid() && |queue| > 0
      modifies this, inflightModules, completedModules, stats
      ensures Valid() && Cfg() == old(Cfg())
      ensures StepResult(status, State())
           == WorkerStep(old(Cfg()), old(State()), Download(old(queue[0]), env, validSemver, old(numRetries), now))
    {
      ghost var s0 := State();
      var req := queue[0];
      queue := queue[1..];
      var key := Identity(req.mod);
      var known := completedModules.Exists(key);
      if !known {
        known := inflightModules.Exists(key);
      }
      if known {
        return Dropped;
      }
      status := Admit(req, s0, env, validSemver, now);
    }

    /**
     * The rest of a pass once the request is known to be new: mark it inflight, then
     * skip or download it. Both branches start with the mark.
     */
    method Admit(req: DownloadRequest, ghost s0: ClientState, env: FetchEnv, validSemver: string -> bool, now: int)
      returns (status: Status)
      requires Valid() && |s0.queue| > 0 && req == s0.queue[0] && !Known(s0)
      requires State() == s0.(queue := s0.queue[1..])
      modifies this, inflightModules, completedModules, stats
      ensures Valid() && Cfg() == old(Cfg())
      ensures StepResult(status, State()) == WorkerStep(Cfg(), s0, Download(req, env, validSemver, numRetries, now))
    {
      if !req.required && skipPseudoVersions && IsPseudoVersion(req.mod.version) {
        SkippedStep(Cfg(), s0, Download(req, env, validSemver, numRetries, now));
        status := Skip(req, s0);
      } else {
        status := Attempt(req, s0, env, validSemver, now);
      }
    }

    /** A skipped request: marked, counted, unmarked, and nothing else. */
    method Skip(req: DownloadRequest, ghost s0: ClientState) returns (status: Status)
      requires Valid() && |s0.queue| > 0 && req == s0.queue[0] && !Known(s0)
      requires State() == s0.(queue := s0.queue[1..])
      modifies inflightModules, stats
      ensures status == Skipped
      ensures State() == s0.(queue := s0.queue[1..], counters := Tally(s0.counters, Skipped))
    {
      SetInflight(req);
      CompleteInflight(req, Skipped);
      assert inflightModules.m == s0.inflight;
      status := Skipped;
    }

    /** A request that reaches Download: mark it, download it, then settle the outcome. */
    method Attempt(req: DownloadRequest, ghost s0: ClientState, env: FetchEnv, validSemver: string -> bool, now: int)
      returns (status: Status)
      requires Valid() && |s0.queue| > 0 && req == s0.queue[0] && Attempted(Cfg(), s0)
      requires State() == s0.(queue := s0.queue[1..])
      modifies this, inflightModules, completedModules, stats
      ensures Valid() && Cfg() == old(Cfg())
      ensures StepResult(status, State()) == WorkerStep(Cfg(), s0, Download(req, env, validSemver, numRetries, now))
    {
      SetInflight(req);
      var d := Download(req, env, validSemver, numRetries, now);
      AttemptedStep(Cfg(), s0, d);
      status := Settle(req, d);
      assert inflightModules.m == s0.inflight;
    }

    /**
     * The end of a pass that reached Download: send the dependency requests, then
     * requeue the request with one retry fewer, give up on it, or mark it completed.
     */
    method Settle(req: DownloadRequest, d: DownloadResult) returns (status: Status)
      requires inflightModules != completedModules
      modifies this, inflightModules, completedModules, stats
      ensures status == if d.err.None? then Completed else if req.retries > 0 then Retry else Failed
      ensures pending == old(pending) + d.emitted + (if status == Retry then [req.(retries := req.retries - 1)] else [])
      ensures completedModules.m == old(completedModules.m) + (if status == Completed then {Identity(req.mod)} else {})
      ensures inflightModules.m == old(inflightModules.m) - {Identity(req.mod)}
      ensures stats.Value() == Tally(old(stats.Value()), status).(inflight := old(stats.Value()).inflight - 1)
      ensures queue == old(queue) && capacity == old(capacity) && currentBatch == old(currentBatch)
      ensures Cfg() == old(Cfg())
    {
      pending := pending + d.emitted;
      if d.err.Some? {
        if req.retries > 0 {
          var retried := req.(retries := req.retries - 1);
          pending := pending + [retried];
          CompleteInflight(retried, Retry);
          return Retry;
        }
        CompleteInflight(req, Failed);
        return Failed;
      }
      completedModules.Set(Identity(req.mod));
      CompleteInflight(req, Completed);
      status := Completed;
    }

    /** The runtime moves a waiting goroutine's send into a free slot of the channel. */
    method DeliverSend(i: nat)
      requires Valid() && i < |pending| && |queue| < capacity
      modifies this
      ensures Valid() && Cfg() == old(Cfg())
      ensures State() == Deliver(old(State()), i)
    {
      queue := queue + [pending[i]];
      pending := pending[..i] + pending[i + 1..];
    }

    /**
     * One evaluation of AwaitInflight's wait. While anything is buffered or inflight
     * it reports that it is still waiting and changes nothing. Once drained it
     * resets the outcome counters and yields the checkpoint to write: the latest
     * timestamp of the current batch, unless checkpoint writing is off.
     */
    method AwaitInflight() returns (done: bool, checkpoint: Option<int>)
      requires Valid()
      requires Drained(State()) && !skipMaxTsWrite ==> currentBatch.Some?
      modifies stats
      ensures done <==> Drained(old(State()))
      ensures !done ==> stats.Value() == old(stats.Value()) && checkpoint == None
      ensures done ==> stats.Value() == ResetCounters(old(stats.Value()))
      ensures done && !skipMaxTsWrite ==> checkpoint == Some(MaxTimestamp(currentBatch.value))
      ensures skipMaxTsWrite ==> checkpoint == None
    {
      done := |queue| == 0 && stats.inflightRequests == 0;
      checkpoint := None;
      if done {
        stats.Reset();
        if !skipMaxTsWrite {
          var maxTs := GetMaxTs(currentBatch.value);
          checkpoint := Some(maxTs);
        }
      }
    }
  }
}

/** The periodic API connectivity check of an agent, and what its whole runs guarantee. */
module ApiCheck {
  import opened Common
  import opened Batches
  import opened PeerQuery

  /** One look at the control-plane peers: the answers of the cached peers and, if nobody answers,
      those of the peers cached after the forced refresh (None: the refresh failed). */
  datatype CpDial = CpDial(cached: seq<int>, refreshed: Option<seq<int>>)

  datatype CpStatus = CpStatus(canBeReached: bool, consideredUnhealthy: bool)

  /** Everything the outside world contributes to one iteration of the check loop. */
  datatype Check = Check(
    readyz: bool,          // the API server answered 200 in time
    workers: PeerRound,    // what the worker peers would answer
    direct: CpDial,        // control-plane peers, right after a passing readyz
    peersExist: bool,      // control-plane peers are cached at that point
    confirm: CpDial,       // control-plane peers, when the failure is being confirmed
    diagnostics: bool)     // endpoint and kubelet diagnostics would pass

  /** Any answer shows that the peer was reached. An empty list reaches nobody. */
  function Dial(replies: seq<int>): CpStatus {
    CpStatus(Answered(replies), UNHEALTHY in replies)
  }

  function ControlPlanePeersStatus(dial: CpDial): CpStatus {
    if !Dial(dial.cached).canBeReached && dial.refreshed.Some? then Dial(dial.refreshed.value) else Dial(dial.cached)
  }

  /** The case split a control-plane node makes on top of the workers' verdict. */
  function IsControlPlaneHealthy(reason: Reason, canOtherControlPlanesBeReached: bool, diagnostics: bool): bool {
    match reason
    case UnHealthyBecausePeersResponse => false
    case UnHealthyBecauseNodeIsIsolated => canOtherControlPlanesBeReached
    case HealthyBecauseErrorsThresholdNotReached => true
    case HealthyBecauseCRNotFound => true
    case HealthyBecauseNoPeersResponseNotReachedTimeout => true
    case HealthyBecauseMostPeersCantAccessAPIServer => diagnostics
    case HealthyBecauseNoPeersWereFound => diagnostics && canOtherControlPlanesBeReached
  }

  function ConsideredHealthy(cfg: Config, isControlPlane: bool, m: Monitor, c: Check): (Monitor, bool)
    requires c.workers.Valid()
  {
    var (m', response) := AskWorkers(cfg, m, c.workers);
    if !isControlPlane then (m', response.isHealthy) else
      var status := ControlPlanePeersStatus(c.confirm);
      (m', !status.consideredUnhealthy && IsControlPlaneHealthy(response.reason, status.canBeReached, c.diagnostics))
  }

  /** A failed readyz, or a passing one that the control-plane peers expose as a false positive. */
  predicate CountsAsFailure(isControlPlane: bool, c: Check) {
    || !c.readyz
    || (isControlPlane && c.peersExist && ControlPlanePeersStatus(c.direct) == CpStatus(false, false))
  }

  /** Readyz passed but a control-plane peer says Unhealthy: reboot at once, without counting. */
  predicate Denounced(isControlPlane: bool, c: Check) {
    c.readyz && isControlPlane && ControlPlanePeersStatus(c.direct).consideredUnhealthy
  }

  /** One iteration: the new memory, and whether Reboot was called. */
  function RunCheck(cfg: Config, isControlPlane: bool, m: Monitor, c: Check): (Monitor, bool)
    requires c.workers.Valid()
  {
    if Denounced(isControlPlane, c) then (m, true)
    else if CountsAsFailure(isControlPlane, c) then
      var (m', healthy) := ConsideredHealthy(cfg, isControlPlane, m, c);
      (m', !healthy)
    else (m.(errorCount := 0), false)
  }

  /** The batches are consecutive, non-empty slices from the front of the list. */
  ghost predicate Slices(peers: seq<string>, batches: seq<seq<string>>) {
    forall k :: 0 <= k < |batches| ==>
      && Asked(|peers|, k) < Asked(|peers|, k + 1)
      && batches[k] == peers[Asked(|peers|, k)..Asked(|peers|, k + 1)]
  }

  lemma CountPositive(batch: seq<int>)
    ensures forall code :: Count(batch, code) > 0 <==> code in batch
  {
  }

  /** The query is still open after `i` batches: none was decisive, `sum` peers said ApiError, and the memory `m` holds the
      time of the last answer since `before`. */
  ghost predicate Open(round: PeerRound, i: nat, sum: int, m: Monitor, before: Monitor)
    requires round.Valid()
  {
    && i <= NrOfBatches(|round.replies|)
    && (forall k :: 0 <= k < i ==> !Decisive(round.replies, k))
    && sum == Count(AskedReplies(round.replies, i), API_ERROR) <= |round.replies| / 2
    && m == Monitor(before.errorCount + 1, LastAnswer(round, i, before.lastPeerResponse))
  }

  lemma NothingAskedYet(round: PeerRound, before: Monitor)
    requires round.Valid()
    ensures Open(round, 0, 0, before.(errorCount := before.errorCount + 1), before)
  {
    hide NrOfBatches, Decisive;
    assert AskedReplies(round.replies, 0) == [];
  }

  /** The memory after one more batch. */
  function Noted(round: PeerRound, i: nat, m: Monitor): Monitor
    requires round.Valid() && i < NrOfBatches(|round.replies|)
  {
    if Answered(Batch(round.replies, i)) then m.(lastPeerResponse := round.times[i]) else m
  }

  /** One more batch leaves the query open, or settles it. */
  lemma NextBatchSettles(cfg: Config, before: Monitor, round: PeerRound, i: nat, sum: int, m: Monitor)
    requires round.Valid() && Queries(cfg, before, round) && i < NrOfBatches(|round.replies|) && Open(round, i, sum, m, before)
    ensures var batch := Batch(round.replies, i);
            var total, noted := sum + Count(batch, API_ERROR), Noted(round, i, m);
            if HEALTHY in batch then
              AskWorkers(cfg, before, round) == (noted.(errorCount := 0), Response(true, HealthyBecauseCRNotFound)) && RoundsAsked(round.replies) == i + 1
            else if UNHEALTHY in batch then
              AskWorkers(cfg, before, round) == (noted, Response(false, UnHealthyBecausePeersResponse)) && RoundsAsked(round.replies) == i + 1
            else if total > |round.replies| / 2 then
              AskWorkers(cfg, before, round) == (noted, Response(true, HealthyBecauseMostPeersCantAccessAPIServer)) && RoundsAsked(round.replies) == i + 1
            else Open(round, i + 1, total, noted, before)
  {
    hide Asked, NrOfBatches, LaterBatch, CeilDiv, Batch, RoundsAsked, AskWorkers, AskedReplies, Count;
    PrefixIsBatches(round.replies, i, API_ERROR);
    if Decisive(round.replies, i) {
      Settled(cfg, before, round, i);
    }
  }

  /** A query that stays open through all batches is settled by the timer. */
  lemma TimerSettles(cfg: Config, before: Monitor, round: PeerRound, sum: int, m: Monitor)
    requires round.Valid() && Queries(cfg, before, round) && Open(round, NrOfBatches(|round.replies|), sum, m, before)
    ensures AskWorkers(cfg, before, round) ==
            (m, if round.finish > m.lastPeerResponse + cfg.maxTimeForNoPeersResponse
                then Response(false, UnHealthyBecauseNodeIsIsolated)
                else Response(true, HealthyBecauseNoPeersResponseNotReachedTimeout))
    ensures RoundsAsked(round.replies) == NrOfBatches(|round.replies|)
  {
    hide Asked, NrOfBatches, LaterBatch, CeilDiv, Batch, RoundsAsked, AskWorkers, AskedReplies, Count;
    Settled(cfg, before, round, NrOfBatches(|round.replies|));
  }

  lemma NoSlices(peers: seq<string>)
    ensures Slices(peers, [])
  {
  }

  lemma SlicesGrow(peers: seq<string>, batches: seq<seq<string>>, chosen: seq<string>)
    requires Slices(peers, batches) && Asked(|peers|, |batches|) < Asked(|peers|, |batches| + 1)
    requires chosen == peers[Asked(|peers|, |batches|)..Asked(|peers|, |batches| + 1)]
    ensures Slices(peers, batches + [chosen])
  {
    hide Asked;
  }

  class ApiConnectivityCheck {
    const config: Config
    const isControlPlane: bool
    var errorCount: int
    var timeOfLastPeerResponse: int

    ghost function Memory(): Monitor
      reads this
    {
      Monitor(errorCount, timeOfLastPeerResponse)
    }

    constructor (config: Config, isControlPlane: bool, now: int)
      ensures this.config == config && this.isControlPlane == isControlPlane
      ensures Memory() == Monitor(0, now)
    {
      this.config, this.isControlPlane := config, isControlPlane;
      errorCount, timeOfLastPeerResponse := 0, now;
    }

    /** Pops the next batch off the list, asks it, and notes the time if anybody answers. */
    method AskNextBatch(peers: seq<string>, peersToAsk: seq<string>, round: PeerRound, i: nat)
        returns (chosen: seq<string>, rest: seq<string>, healthy: nat, unhealthy: nat, apiErrors: nat)
      requires round.Valid() && |round.replies| == |peers| && i < NrOfBatches(|peers|)
      requires peersToAsk == peers[Asked(|peers|, i)..]
      modifies this`timeOfLastPeerResponse
      ensures Asked(|peers|, i) < Asked(|peers|, i + 1)
      ensures chosen == peers[Asked(|peers|, i)..Asked(|peers|, i + 1)]
      ensures rest == peers[Asked(|peers|, i + 1)..]
      ensures healthy == Count(Batch(round.replies, i), HEALTHY)
      ensures unhealthy == Count(Batch(round.replies, i), UNHEALTHY)
      ensures apiErrors == Count(Batch(round.replies, i), API_ERROR)
      ensures timeOfLastPeerResponse ==
              if Answered(Batch(round.replies, i)) then round.times[i] else old(timeOfLastPeerResponse)
    {
      hide NrOfBatches, LaterBatch, CeilDiv;
      RoundsNeeded(|peers|, i);
      NextRound(|peers|, i);
      var batchSize := NextBatchSize(|peers|, |peersToAsk|);
      chosen, rest := PopPeerIPs(peersToAsk, batchSize);
      assert chosen == peersToAsk[..batchSize] && rest == peersToAsk[batchSize..];
      var answers := Batch(round.replies, i);
      var none;
      healthy, unhealthy, apiErrors, none := GetHealthStatusFromPeers(answers);
      if healthy + unhealthy + apiErrors > 0 {
        timeOfLastPeerResponse := round.times[i];
      }
    }

    /** Asks the workers batch by batch. The batches taken are consecutive slices of the list: no peer
        is asked twice, each round asks somebody, and without an early exit there are exactly as
        many rounds as the reboot-duration calculator counts. */
    method GetWorkerPeersResponse(peers: seq<string>, round: PeerRound)
        returns (response: Response, batches: seq<seq<string>>)
      requires round.Valid() && |round.replies| == |peers|
      modifies this
      ensures (Memory(), response) == AskWorkers(config, old(Memory()), round)
      ensures |batches| == if Queries(config, old(Memory()), round) then RoundsAsked(round.replies) else 0
      ensures Slices(peers, batches)
    {
      hide Asked, NrOfBatches, LaterBatch, CeilDiv, Batch, RoundsAsked, AskWorkers, Open, Slices, Count;
      EarlyExit(config, Memory(), round);
      errorCount := errorCount + 1;
      batches := [];
      assert Slices(peers, batches) by { NoSlices(peers); }
      if errorCount < config.maxErrorsThreshold {
        return Response(true, HealthyBecauseErrorsThresholdNotReached), batches;
      }
      var peersToAsk := peers;
      if |peersToAsk| < config.minPeersForRemediation {
        return Response(true, HealthyBecauseNoPeersWereFound), batches;
      }
      if |peersToAsk| == 0 {
        return Response(false, UnHealthyBecauseNodeIsIsolated), batches;
      }
      var apiErrorsResponsesSum, nrAllPeers := 0, |peersToAsk|;
      var i := 0;
      NothingAskedYet(round, old(Memory()));
      RoundsNeeded(|peers|, 0);
      while |peersToAsk| > 0
        invariant i == |batches| <= NrOfBatches(|peers|)
        invariant peersToAsk == peers[Asked(|peers|, i)..]
        invariant Slices(peers, batches)
        invariant apiErrorsResponsesSum <= nrAllPeers / 2
        invariant Open(round, i, apiErrorsResponsesSum, Memory(), old(Memory()))
        decreases |peersToAsk|
      {
        RoundsNeeded(|peers|, i);
        NextBatchSettles(config, old(Memory()), round, i, apiErrorsResponsesSum, Memory());
        CountPositive(Batch(round.replies, i));
        var chosen, healthy, unhealthy, apiErrors;
        chosen, peersToAsk, healthy, unhealthy, apiErrors := AskNextBatch(peers, peersToAsk, round, i);
        SlicesGrow(peers, batches, chosen);
        batches := batches + [chosen];
        if healthy > 0 {
          errorCount := 0;
          return Response(true, HealthyBecauseCRNotFound), batches;
        }
        if unhealthy > 0 {
          return Response(false, UnHealthyBecausePeersResponse), batches;
        }
        if apiErrors > 0 {
          apiErrorsResponsesSum := apiErrorsResponsesSum + apiErrors;
          if apiErrorsResponsesSum > nrAllPeers / 2 {
            return Response(true, HealthyBecauseMostPeersCantAccessAPIServer), batches;
          }
        }
        i := i + 1;
      }
      RoundsNeeded(|peers|, i);
      TimerSettles(config, old(Memory()), round, apiErrorsResponsesSum, Memory());
      if round.finish > timeOfLastPeerResponse + config.maxTimeForNoPeersResponse {
        response := Response(false, UnHealthyBecauseNodeIsIsolated);
      } else {
        response := Response(true, HealthyBecauseNoPeersResponseNotReachedTimeout);
      }
    }

    method GetControlPlanePeersStatus(dial: CpDial) returns (canBeReached: bool, consideredUnhealthy: bool)
      ensures CpStatus(canBeReached, consideredUnhealthy) == ControlPlanePeersStatus(dial)
    {
      canBeReached, consideredUnhealthy := DialControlPlanePeers(dial.cached);
      if !canBeReached {
        if dial.refreshed.Some? {
          canBeReached, consideredUnhealthy := DialControlPlanePeers(dial.refreshed.value);
        }
      }
    }

    method DialControlPlanePeers(replies: seq<int>) returns (canBeReached: bool, consideredUnhealthy: bool)
      ensures canBeReached <==> exists i :: 0 <= i < |replies| && replies[i] in {HEALTHY, UNHEALTHY, API_ERROR}
      ensures consideredUnhealthy <==> UNHEALTHY in replies
    {
      if |replies| == 0 {
        return false, false;
      }
      var healthy, unhealthy, apiErrors, _ := GetHealthStatusFromPeers(replies);
      return healthy + unhealthy + apiErrors > 0, unhealthy > 0;
    }

    method IsConsideredHealthy(peers: seq<string>, c: Check) returns (healthy: bool)
      requires c.workers.Valid() && |c.workers.replies| == |peers|
      modifies this
      ensures (Memory(), healthy) == ConsideredHealthy(config, isControlPlane, old(Memory()), c)
    {
      var response, _ := GetWorkerPeersResponse(peers, c.workers);
      if !isControlPlane {
        return response.isHealthy;
      }
      var canBeReached, cpUnhealthy := GetControlPlanePeersStatus(c.confirm);
      if cpUnhealthy {
        return false;
      }
      return IsControlPlaneHealthy(response.reason, canBeReached, c.diagnostics);
    }

    /** The body of the check loop; `rebooted` tells whether it called Reboot. */
    method CheckOnce(peers: seq<string>, c: Check) returns (rebooted: bool)
      requires c.workers.Valid() && |c.workers.replies| == |peers|
      modifies this
      ensures (Memory(), rebooted) == RunCheck(config, isControlPlane, old(Memory()), c)
    {
      if !c.readyz {
        var isHealthy := IsConsideredHealthy(peers, c);
        return !isHealthy;
      }
      if isControlPlane {
        var canBeReached, cpUnhealthy := GetControlPlanePeersStatus(c.direct);
        if cpUnhealthy {
          return true;
        }
        if !canBeReached && c.peersExist {
          var isHealthy := IsConsideredHealthy(peers, c);
          return !isHealthy;
        }
      }
      errorCount := 0;
      return false;
    }
  }

  lemma EarlyExit(cfg: Config, m: Monitor, round: PeerRound)
    requires round.Valid()
    ensures m.errorCount + 1 < cfg.maxErrorsThreshold ==>
              AskWorkers(cfg, m, round) == (m.(errorCount := m.errorCount + 1), Response(true, HealthyBecauseErrorsThresholdNotReached))
    ensures m.errorCount + 1 >= cfg.maxErrorsThreshold && |round.replies| < cfg.minPeersForRemediation ==>
              AskWorkers(cfg, m, round) == (m.(errorCount := m.errorCount + 1), Response(true, HealthyBecauseNoPeersWereFound))
    ensures m.errorCount + 1 >= cfg.maxErrorsThreshold && |round.replies| >= cfg.minPeersForRemediation && |round.replies| == 0 ==>
              AskWorkers(cfg, m, round) == (m.(errorCount := m.errorCount + 1), Response(false, UnHealthyBecauseNodeIsIsolated))
  {
  }

  /** What one check does to the error count. */
  lemma CountAfterCheck(cfg: Config, isControlPlane: bool, m: Monitor, c: Check)
    requires c.workers.Valid()
    ensures RunCheck(cfg, isControlPlane, m, c).0.errorCount ==
            if Clears(cfg, isControlPlane, m, c) then 0
            else if Denounced(isControlPlane, c) then m.errorCount
            else m.errorCount + 1
  {
    hide Asked, NrOfBatches, LaterBatch, CeilDiv, ControlPlanePeersStatus;
    if !Denounced(isControlPlane, c) && CountsAsFailure(isControlPlane, c) && Queries(cfg, m, c.workers) {
      HealthyVerdict(cfg, m, c.workers);
    }
  }

  /** The answers of the control-plane peers that count: those after the refresh, if there was nobody to hear before. */
  ghost function ControlPlaneReplies(dial: CpDial): seq<int> {
    if Answered(dial.cached) || dial.refreshed == None then dial.cached else dial.refreshed.value
  }

  /** When a control-plane node reboots after a failed check, in terms of the answers and counts alone. A control-plane peer
      that says Unhealthy suffices. Otherwise: never before the threshold; with fewer workers than the minimum, if the
      node's own diagnostics fail or no control-plane peer can be reached; with an empty list that is admitted, if no
      control-plane peer can be reached; and with workers to ask, if no asked one says Healthy, and one says Unhealthy,
      or most cannot reach the API server either and the diagnostics fail, or there was silence for too long and no
      control-plane peer can be reached. */
  lemma ControlPlaneVerdict(cfg: Config, m: Monitor, c: Check)
    requires c.workers.Valid() && CountsAsFailure(true, c) && !Denounced(true, c)
    ensures var replies, cp := c.workers.replies, ControlPlaneReplies(c.confirm);
            var reboots := RunCheck(cfg, true, m, c).1;
            if m.errorCount + 1 < cfg.maxErrorsThreshold then reboots <==> UNHEALTHY in cp
            else if |replies| < cfg.minPeersForRemediation then reboots <==> UNHEALTHY in cp || !c.diagnostics || !Answered(cp)
            else if replies == [] then reboots <==> UNHEALTHY in cp || !Answered(cp)
            else reboots <==> UNHEALTHY in cp || AskedVerdict(cfg, m, c.workers, c.diagnostics, Answered(cp))
  {
    hide Asked, NrOfBatches, LaterBatch, CeilDiv, Batch, AskedReplies, LastAnswer, FirstDecisive, Count, AskWorkers;
    if Queries(cfg, m, c.workers) {
      HealthyVerdict(cfg, m, c.workers);
      UnhealthyVerdict(cfg, m, c.workers);
      MajorityVerdict(cfg, m, c.workers);
      SilenceVerdict(cfg, m, c.workers);
    } else {
      EarlyExit(cfg, m, c.workers);
    }
  }

  /** What the answers of the workers tell a control-plane node. */
  ghost predicate AskedVerdict(cfg: Config, m: Monitor, round: PeerRound, diagnostics: bool, reached: bool)
    requires round.Valid()
  {
    var asked := AskedReplies(round.replies, RoundsAsked(round.replies));
    var last := LastAnswer(round, RoundsAsked(round.replies), m.lastPeerResponse);
    var majority := 2 * Count(asked, API_ERROR) > |round.replies|;
    && HEALTHY !in asked
    && (|| UNHEALTHY in asked
        || (majority && !diagnostics)
        || (!majority && round.finish > last + cfg.maxTimeForNoPeersResponse && !reached))
  }

  /** When a worker reboots after a failed check: never before the threshold or with fewer peers than the minimum; always with
      an empty list that is admitted; and otherwise if no asked peer says Healthy, and one says Unhealthy or there
      was silence for too long without a majority that cannot reach the API server either. */
  lemma WorkerVerdict(cfg: Config, m: Monitor, c: Check)
    requires c.workers.Valid() && !c.readyz
    ensures var replies := c.workers.replies;
            var reboots := RunCheck(cfg, false, m, c).1;
            if m.errorCount + 1 < cfg.maxErrorsThreshold || |replies| < cfg.minPeersForRemediation then !reboots
            else if replies == [] then reboots
            else reboots <==> AskedVerdict(cfg, m, c.workers, true, false)
  {
    hide Asked, NrOfBatches, LaterBatch, CeilDiv, Batch, AskedReplies, LastAnswer, FirstDecisive, Count, AskWorkers;
    HealthFollowsReason(cfg, m, c.workers);
    if Queries(cfg, m, c.workers) {
      HealthyVerdict(cfg, m, c.workers);
      UnhealthyVerdict(cfg, m, c.workers);
      MajorityVerdict(cfg, m, c.workers);
      SilenceVerdict(cfg, m, c.workers);
    } else {
      EarlyExit(cfg, m, c.workers);
    }
  }

  /** What a passing readyz is worth. On a worker it clears the count. On a control-plane node the peers have a say: one that
      says Unhealthy causes a reboot at once and leaves the count alone; if there are peers and none can be reached,
      it is as if readyz had failed; otherwise the count is cleared. */
  lemma PassingReadyz(cfg: Config, isControlPlane: bool, m: Monitor, c: Check)
    requires c.workers.Valid() && c.readyz
    ensures var cp := ControlPlaneReplies(c.direct);
            RunCheck(cfg, isControlPlane, m, c) ==
              if isControlPlane && UNHEALTHY in cp then (m, true)
              else if isControlPlane && c.peersExist && !Answered(cp) then RunCheck(cfg, isControlPlane, m, c.(readyz := false))
              else (m.(errorCount := 0), false)
  {
    hide AskWorkers, IsControlPlaneHealthy;
  }

  // Whole runs: any number of checks, with whatever the world contributes to each.

  ghost predicate ValidRun(run: seq<Check>) {
    forall i :: 0 <= i < |run| ==> run[i].workers.Valid()
  }

  /** The memory after the first `k` checks of the run. */
  ghost function MemoryAt(cfg: Config, isControlPlane: bool, start: Monitor, run: seq<Check>, k: nat): Monitor
    requires ValidRun(run) && k <= |run|
  {
    if k == 0 then start
    else RunCheck(cfg, isControlPlane, MemoryAt(cfg, isControlPlane, start, run, k - 1), run[k - 1]).0
  }

  /** Check `k` of the run calls Reboot. */
  ghost predicate Reboots(cfg: Config, isControlPlane: bool, start: Monitor, run: seq<Check>, k: nat)
    requires ValidRun(run) && k < |run|
  {
    RunCheck(cfg, isControlPlane, MemoryAt(cfg, isControlPlane, start, run, k), run[k]).1
  }

  /** The check passed altogether, or a worker peer said Healthy to it. */
  ghost predicate Clears(cfg: Config, isControlPlane: bool, m: Monitor, c: Check)
    requires c.workers.Valid()
  {
    && !Denounced(isControlPlane, c)
    && (|| !CountsAsFailure(isControlPlane, c)
        || (Queries(cfg, m, c.workers) && HEALTHY in AskedReplies(c.workers.replies, RoundsAsked(c.workers.replies))))
  }

  ghost predicate ClearsStreak(cfg: Config, isControlPlane: bool, start: Monitor, run: seq<Check>, k: nat)
    requires ValidRun(run) && k < |run|
  {
    Clears(cfg, isControlPlane, MemoryAt(cfg, isControlPlane, start, run, k), run[k])
  }

  ghost function Failures(isControlPlane: bool, run: seq<Check>, from: nat, to: nat): nat
    requires from <= to <= |run|
  {
    if from == to then 0
    else Failures(isControlPlane, run, from, to - 1) +
         if CountsAsFailure(isControlPlane, run[to - 1]) && !Denounced(isControlPlane, run[to - 1]) then 1 else 0
  }

  /** No check in `run[from..to]` passed or was told Healthy. */
  ghost predicate Unbroken(cfg: Config, isControlPlane: bool, start: Monitor, run: seq<Check>, from: nat, to: nat)
    requires ValidRun(run) && from <= to <= |run|
  {
    forall k :: from <= k < to ==> !ClearsStreak(cfg, isControlPlane, start, run, k)
  }

  /** The error count is the number of failures since the streak was last cleared. */
  lemma {:induction false} ErrorCountIsStreak(cfg: Config, isControlPlane: bool, start: Monitor, run: seq<Check>, k: nat)
    returns (from: nat)
    requires ValidRun(run) && k <= |run| && start.errorCount == 0
    ensures from <= k && Unbroken(cfg, isControlPlane, start, run, from, k)
    ensures from == 0 || ClearsStreak(cfg, isControlPlane, start, run, from - 1)
    ensures MemoryAt(cfg, isControlPlane, start, run, k).errorCount == Failures(isControlPlane, run, from, k)
  {
    hide RunCheck, Clears, Denounced, CountsAsFailure;
    if k == 0 {
      from := 0;
    } else {
      CountAfterCheck(cfg, isControlPlane, MemoryAt(cfg, isControlPlane, start, run, k - 1), run[k - 1]);
      if ClearsStreak(cfg, isControlPlane, start, run, k - 1) {
        from := k;
      } else {
        from := ErrorCountIsStreak(cfg, isControlPlane, start, run, k - 1);
        ClearsSplit(cfg, isControlPlane, MemoryAt(cfg, isControlPlane, start, run, k - 1), run[k - 1]);
      }
    }
  }

  /** A check that does not clear the streak is a counted failure or an immediate denunciation. */
  lemma ClearsSplit(cfg: Config, isControlPlane: bool, m: Monitor, c: Check)
    requires c.workers.Valid() && !Clears(cfg, isControlPlane, m, c)
    ensures Denounced(isControlPlane, c) || CountsAsFailure(isControlPlane, c)
  {
  }

  /** A control-plane peer said Unhealthy in this very check. */
  ghost predicate DenouncedByControlPlane(isControlPlane: bool, c: Check) {
    && isControlPlane
    && (ControlPlanePeersStatus(c.direct).consideredUnhealthy || ControlPlanePeersStatus(c.confirm).consideredUnhealthy)
  }

  /** On every node: Reboot is only called in a check in which a control-plane peer said Unhealthy, or
      that ends a streak of at least the configured number of failures, during which no check
      passed and no worker peer said Healthy. */
  lemma RebootNeedsStreak(cfg: Config, isControlPlane: bool, start: Monitor, run: seq<Check>, k: nat)
    returns (from: nat)
    requires ValidRun(run) && k < |run| && start.errorCount == 0
    requires Reboots(cfg, isControlPlane, start, run, k)
    ensures from <= k
    ensures DenouncedByControlPlane(isControlPlane, run[k]) ||
            (&& Unbroken(cfg, isControlPlane, start, run, from, k + 1)
             && Failures(isControlPlane, run, from, k + 1) >= cfg.maxErrorsThreshold)
  {
    from := ErrorCountIsStreak(cfg, isControlPlane, start, run, k);
    var c, m := run[k], MemoryAt(cfg, isControlPlane, start, run, k);
    if !DenouncedByControlPlane(isControlPlane, c) {
      HealthFollowsReason(cfg, m, c.workers);
      if Queries(cfg, m, c.workers) {
        HealthyVerdict(cfg, m, c.workers);
      }
      assert !ClearsStreak(cfg, isControlPlane, start, run, k);
    }
  }

  lemma {:induction false} WorkerFailuresAreConsecutive(run: seq<Check>, from: nat, to: nat)
    requires from <= to <= |run|
    ensures Failures(false, run, from, to) <= to - from
    ensures Failures(false, run, from, to) == to - from ==> forall i :: from <= i < to ==> !run[i].readyz
  {
    if from < to { WorkerFailuresAreConsecutive(run, from, to - 1); }
  }

  lemma {:induction false} UnbrokenWorkerFailures(cfg: Config, start: Monitor, run: seq<Check>, from: nat, to: nat)
    requires ValidRun(run) && from <= to <= |run| && Unbroken(cfg, false, start, run, from, to)
    ensures Failures(false, run, from, to) == to - from
  {
    if from < to {
      assert !ClearsStreak(cfg, false, start, run, to - 1);
      UnbrokenWorkerFailures(cfg, start, run, from, to - 1);
    }
  }

  /** On a worker: the last checks, at least as many as the threshold and this one included, all
      failed to reach the API server, and in none of them did a peer say Healthy. */
  lemma WorkerRebootNeedsStreak(cfg: Config, start: Monitor, run: seq<Check>, k: nat) returns (from: nat)
    requires ValidRun(run) && k < |run| && start.errorCount == 0
    requires Reboots(cfg, false, start, run, k)
    ensures from <= k && k + 1 - from >= cfg.maxErrorsThreshold
    ensures forall i :: from <= i <= k ==> !run[i].readyz && !ClearsStreak(cfg, false, start, run, i)
  {
    from := RebootNeedsStreak(cfg, false, start, run, k);
    UnbrokenWorkerFailures(cfg, start, run, from, k + 1);
    WorkerFailuresAreConsecutive(run, from, k + 1);
  }

  // Isolation.

  /** Batch `b` of check `k` was asked and brought an answer. */
  ghost predicate Heard(cfg: Config, isControlPlane: bool, start: Monitor, run: seq<Check>, k: nat, b: nat)
    requires ValidRun(run) && k < |run|
  {
    var c := run[k];
    && CountsAsFailure(isControlPlane, c) && !Denounced(isControlPlane, c)
    && Queries(cfg, MemoryAt(cfg, isControlPlane, start, run, k), c.workers)
    && b < RoundsAsked(c.workers.replies)
    && Answered(Batch(c.workers.replies, b))
  }

  /** Time does not run backwards within a round that begins at time `from` or later. */
  ghost predicate RoundOrdered(round: PeerRound, from: int) {
    && from <= round.finish
    && (forall a :: 0 <= a < |round.times| ==> from <= round.times[a] <= round.finish)
    && (forall a, b :: 0 <= a < b < |round.times| ==> round.times[a] <= round.times[b])
  }

  /** Nor does it from one check to the next. */
  ghost predicate TimeOrdered(start: Monitor, run: seq<Check>)
    requires ValidRun(run)
  {
    forall k :: 0 <= k < |run| ==>
      RoundOrdered(run[k].workers, if k == 0 then start.lastPeerResponse else run[k - 1].workers.finish)
  }

  /** One check keeps the remembered time up to date. */
  lemma LastResponseCoversCheck(cfg: Config, isControlPlane: bool, start: Monitor, run: seq<Check>, n: nat)
    requires ValidRun(run) && n < |run|
    requires RoundOrdered(run[n].workers, MemoryAt(cfg, isControlPlane, start, run, n).lastPeerResponse)
    ensures var last := MemoryAt(cfg, isControlPlane, start, run, n + 1).lastPeerResponse;
            && MemoryAt(cfg, isControlPlane, start, run, n).lastPeerResponse <= last <= run[n].workers.finish
            && forall b :: 0 <= b && Heard(cfg, isControlPlane, start, run, n, b) ==> run[n].workers.times[b] <= last
  {
    hide Asked, NrOfBatches, LaterBatch, CeilDiv, ControlPlanePeersStatus, FirstDecisive, Batch, AskedReplies;
    var c, m := run[n], MemoryAt(cfg, isControlPlane, start, run, n);
    if CountsAsFailure(isControlPlane, c) && !Denounced(isControlPlane, c) && Queries(cfg, m, c.workers) {
      var asked := RoundsAsked(c.workers.replies);
      LastAnswerKeepsOrder(c.workers, asked, m.lastPeerResponse);
      forall b | 0 <= b && Heard(cfg, isControlPlane, start, run, n, b)
        ensures c.workers.times[b] <= LastAnswer(c.workers, asked, m.lastPeerResponse)
      {
        LastAnswerCovers(c.workers, asked, m.lastPeerResponse, b);
      }
    }
  }

  /** The remembered time bounds every answer heard so far, and lies in the past. */
  lemma {:induction false} LastResponseCoversRun(cfg: Config, isControlPlane: bool, start: Monitor, run: seq<Check>, n: nat)
    requires ValidRun(run) && TimeOrdered(start, run) && n <= |run|
    ensures var last := MemoryAt(cfg, isControlPlane, start, run, n).lastPeerResponse;
            && (forall k, b :: 0 <= k < n && 0 <= b && Heard(cfg, isControlPlane, start, run, k, b) ==>
                  run[k].workers.times[b] <= last)
            && last <= if n == 0 then start.lastPeerResponse else run[n - 1].workers.finish
  {
    hide RunCheck, Heard, MemoryAt;
    if n > 0 {
      LastResponseCoversRun(cfg, isControlPlane, start, run, n - 1);
      assert RoundOrdered(run[n - 1].workers, if n - 1 == 0 then start.lastPeerResponse else run[n - 1 - 1].workers.finish);
      LaterRound(run[n - 1].workers, if n == 1 then start.lastPeerResponse else run[n - 2].workers.finish,
                 MemoryAt(cfg, isControlPlane, start, run, n - 1).lastPeerResponse);
      LastResponseCoversCheck(cfg, isControlPlane, start, run, n - 1);
    } else {
      StartMemory(cfg, isControlPlane, start, run);
    }
  }

  lemma StartMemory(cfg: Config, isControlPlane: bool, start: Monitor, run: seq<Check>)
    requires ValidRun(run)
    ensures MemoryAt(cfg, isControlPlane, start, run, 0) == start
  {
  }

  lemma LaterRound(round: PeerRound, from: int, earlier: int)
    requires RoundOrdered(round, from) && earlier <= from
    ensures RoundOrdered(round, earlier)
  {
  }

  /** "Isolated" with a non-empty peer list: every peer was asked, and no worker peer has answered, in
      this check or any earlier one, within the last MaxTimeForNoPeersResponse. */
  lemma IsolatedMeansSilence(cfg: Config, isControlPlane: bool, start: Monitor, run: seq<Check>, i: nat)
    requires ValidRun(run) && TimeOrdered(start, run) && i < |run| && 0 < |run[i].workers.replies|
    requires CountsAsFailure(isControlPlane, run[i]) && !Denounced(isControlPlane, run[i])
    requires AskWorkers(cfg, MemoryAt(cfg, isControlPlane, start, run, i), run[i].workers).1.reason == UnHealthyBecauseNodeIsIsolated
    ensures AskedReplies(run[i].workers.replies, RoundsAsked(run[i].workers.replies)) == run[i].workers.replies
    ensures forall k, b :: 0 <= k <= i && 0 <= b && Heard(cfg, isControlPlane, start, run, k, b) ==>
              run[k].workers.times[b] + cfg.maxTimeForNoPeersResponse < run[i].workers.finish
  {
    hide Asked, NrOfBatches, LaterBatch, CeilDiv, ControlPlanePeersStatus, FirstDecisive, Heard, AskedReplies, Batch;
    var m := MemoryAt(cfg, isControlPlane, start, run, i);
    NoVerdictAsksEverybody(cfg, m, run[i].workers);
    LastResponseCoversRun(cfg, isControlPlane, start, run, i + 1);
  }
}

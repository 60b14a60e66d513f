/** How an agent that lost the API server asks its worker peers whether it is unhealthy. */
module PeerQuery {
  import opened Batches

  // Wire codes of a peer's answer. Any other number is ignored by the tally.
  const REQUEST_FAILED := -1
  const HEALTHY := 1
  const UNHEALTHY := 2
  const API_ERROR := 3

  datatype Reason =
    | HealthyBecauseCRNotFound
    | HealthyBecauseErrorsThresholdNotReached
    | HealthyBecauseNoPeersResponseNotReachedTimeout
    | HealthyBecauseNoPeersWereFound
    | HealthyBecauseMostPeersCantAccessAPIServer
    | UnHealthyBecausePeersResponse
    | UnHealthyBecauseNodeIsIsolated

  datatype Response = Response(isHealthy: bool, reason: Reason)

  datatype Config = Config(
    checkInterval: int,
    maxErrorsThreshold: int,
    apiServerTimeout: int,
    peerDialTimeout: int,
    peerRequestTimeout: int,
    maxTimeForNoPeersResponse: int,
    minPeersForRemediation: int)

  /** What the agent remembers from one check to the next. */
  datatype Monitor = Monitor(errorCount: int, lastPeerResponse: int)

  /** One chance to ask the peers: what each peer of the cached list would answer, the time at
      which each batch would be complete, and the time at which the last one is evaluated. */
  datatype PeerRound = PeerRound(replies: seq<int>, times: seq<int>, finish: int) {
    predicate Valid() {
      |times| == NrOfBatches(|replies|)
    }
  }

  function Count(replies: seq<int>, code: int): nat {
    multiset(replies)[code]
  }

  /** Somebody in this batch sent one of the three answers. */
  predicate Answered(batch: seq<int>) {
    HEALTHY in batch || UNHEALTHY in batch || API_ERROR in batch
  }

  /** The answers of batch number `k`. */
  function Batch(replies: seq<int>, k: nat): (batch: seq<int>)
    requires k < NrOfBatches(|replies|)
    ensures |batch| >= 1
  {
    RoundsNeeded(|replies|, k);
    NextRound(|replies|, k);
    replies[Asked(|replies|, k)..Asked(|replies|, k + 1)]
  }

  /** The answers of the first `k` batches. */
  function AskedReplies(replies: seq<int>, k: nat): seq<int> {
    replies[..Asked(|replies|, k)]
  }

  /** Batch `k` settles the question: it holds a Healthy or an Unhealthy answer, or with it more
      than half of all peers have said that they cannot reach the API server either. */
  predicate Decisive(replies: seq<int>, k: nat)
    requires k < NrOfBatches(|replies|)
  {
    || HEALTHY in Batch(replies, k)
    || UNHEALTHY in Batch(replies, k)
    || Count(AskedReplies(replies, k + 1), API_ERROR) > |replies| / 2
  }

  /** The first decisive batch from `k` on, or the number of batches if there is none. */
  function FirstDecisive(replies: seq<int>, k: nat): (d: nat)
    requires k <= NrOfBatches(|replies|)
    ensures k <= d <= NrOfBatches(|replies|)
    ensures forall j :: k <= j < d ==> !Decisive(replies, j)
    ensures d < NrOfBatches(|replies|) ==> Decisive(replies, d)
    decreases NrOfBatches(|replies|) - k
  {
    if k == NrOfBatches(|replies|) || Decisive(replies, k) then k else FirstDecisive(replies, k + 1)
  }

  /** How many batches the query asks. */
  function RoundsAsked(replies: seq<int>): (rounds: nat)
    ensures rounds <= NrOfBatches(|replies|)
  {
    var d := FirstDecisive(replies, 0);
    if d < NrOfBatches(|replies|) then d + 1 else d
  }

  /** The completion time of the last of the first `k` batches that brought an answer. */
  function LastAnswer(round: PeerRound, k: nat, before: int): int
    requires round.Valid() && k <= NrOfBatches(|round.replies|)
  {
    if k == 0 then before
    else if Answered(Batch(round.replies, k - 1)) then round.times[k - 1]
    else LastAnswer(round, k - 1, before)
  }

  /** The verdict and the new memory of the agent, as a function of the answers alone: the order in
      which the answers of one batch arrive plays no part. */
  function AskWorkers(cfg: Config, m: Monitor, round: PeerRound): (result: (Monitor, Response))
    requires round.Valid()
  {
    var counted := m.(errorCount := m.errorCount + 1);
    var n := |round.replies|;
    if counted.errorCount < cfg.maxErrorsThreshold then
      (counted, Response(true, HealthyBecauseErrorsThresholdNotReached))
    else if n < cfg.minPeersForRemediation then
      (counted, Response(true, HealthyBecauseNoPeersWereFound))
    else if n == 0 then
      (counted, Response(false, UnHealthyBecauseNodeIsIsolated))
    else
      var d := FirstDecisive(round.replies, 0);
      var heard := counted.(lastPeerResponse :=
        LastAnswer(round, RoundsAsked(round.replies), counted.lastPeerResponse));
      if d < NrOfBatches(n) then
        if HEALTHY in Batch(round.replies, d) then
          (heard.(errorCount := 0), Response(true, HealthyBecauseCRNotFound))
        else if UNHEALTHY in Batch(round.replies, d) then
          (heard, Response(false, UnHealthyBecausePeersResponse))
        else
          (heard, Response(true, HealthyBecauseMostPeersCantAccessAPIServer))
      else if round.finish > heard.lastPeerResponse + cfg.maxTimeForNoPeersResponse then
        (heard, Response(false, UnHealthyBecauseNodeIsIsolated))
      else
        (heard, Response(true, HealthyBecauseNoPeersResponseNotReachedTimeout))
  }

  /** The verdict of a query that gets past the early exits, by the batch that settles it. */
  lemma Settled(cfg: Config, m: Monitor, round: PeerRound, d: nat)
    requires round.Valid() && Queries(cfg, m, round)
    requires d <= NrOfBatches(|round.replies|)
    requires forall k :: 0 <= k < d ==> !Decisive(round.replies, k)
    requires d < NrOfBatches(|round.replies|) ==> Decisive(round.replies, d)
    ensures var n, last := NrOfBatches(|round.replies|), if d < NrOfBatches(|round.replies|) then d + 1 else d;
            var heard := Monitor(m.errorCount + 1, LastAnswer(round, last, m.lastPeerResponse));
            && RoundsAsked(round.replies) == last
            && AskWorkers(cfg, m, round) ==
               if d == n then
                 if round.finish > heard.lastPeerResponse + cfg.maxTimeForNoPeersResponse
                 then (heard, Response(false, UnHealthyBecauseNodeIsIsolated))
                 else (heard, Response(true, HealthyBecauseNoPeersResponseNotReachedTimeout))
               else if HEALTHY in Batch(round.replies, d) then (heard.(errorCount := 0), Response(true, HealthyBecauseCRNotFound))
               else if UNHEALTHY in Batch(round.replies, d) then (heard, Response(false, UnHealthyBecausePeersResponse))
               else (heard, Response(true, HealthyBecauseMostPeersCantAccessAPIServer))
  {
    hide Asked, NrOfBatches, LaterBatch, CeilDiv, Batch, FirstDecisive;
    assert FirstDecisive(round.replies, 0) == d;
  }

  /** The query got past the three early exits and asked at least one peer. */
  predicate Queries(cfg: Config, m: Monitor, round: PeerRound) {
    && cfg.maxErrorsThreshold <= m.errorCount + 1
    && cfg.minPeersForRemediation <= |round.replies|
    && 0 < |round.replies|
  }

  lemma PrefixIsBatches(replies: seq<int>, k: nat, code: int)
    requires k < NrOfBatches(|replies|)
    ensures AskedReplies(replies, k + 1) == AskedReplies(replies, k) + Batch(replies, k)
    ensures Count(AskedReplies(replies, k + 1), code) == Count(AskedReplies(replies, k), code) + Count(Batch(replies, k), code)
  {
    RoundsNeeded(|replies|, k);
    NextRound(|replies|, k);
    assert AskedReplies(replies, k + 1) == AskedReplies(replies, k) + Batch(replies, k);
  }

  /** A code was sent by some asked peer exactly if one of the asked batches holds it. */
  lemma {:induction false} SentInSomeBatch(replies: seq<int>, k: nat, code: int)
    requires k <= NrOfBatches(|replies|)
    ensures code in AskedReplies(replies, k) <==> exists j :: 0 <= j < k && code in Batch(replies, j)
  {
    hide NrOfBatches, LaterBatch, CeilDiv, Batch;
    if k > 0 {
      SentInSomeBatch(replies, k - 1, code);
      PrefixIsBatches(replies, k - 1, code);
      if code in AskedReplies(replies, k) && code !in AskedReplies(replies, k - 1) {
        assert code in Batch(replies, k - 1);
      }
    }
  }

  lemma SomebodyToAsk(n: nat)
    requires n > 0
    ensures NrOfBatches(n) > 0
  {
    RoundsNeeded(n, 0);
  }

  /** A Healthy or Unhealthy answer can only come from the batch that settles the question. */
  lemma DecidedBy(replies: seq<int>, code: int)
    requires code in {HEALTHY, UNHEALTHY}
    ensures var d := FirstDecisive(replies, 0);
            (code in AskedReplies(replies, RoundsAsked(replies)) <==> d < NrOfBatches(|replies|) && code in Batch(replies, d))
  {
    hide Asked, NrOfBatches, LaterBatch, CeilDiv, Batch, AskedReplies, FirstDecisive;
    var d := FirstDecisive(replies, 0);
    SentInSomeBatch(replies, RoundsAsked(replies), code);
    if code in AskedReplies(replies, RoundsAsked(replies)) {
      var j :| 0 <= j < RoundsAsked(replies) && code in Batch(replies, j);
      assert Decisive(replies, j);
    }
  }

  /** "Healthy, no CR found" is returned exactly when some asked peer said Healthy; asking stops at
      the first batch that says so. */
  lemma HealthyVerdict(cfg: Config, m: Monitor, round: PeerRound)
    requires round.Valid() && Queries(cfg, m, round)
    ensures AskWorkers(cfg, m, round).1.reason == HealthyBecauseCRNotFound
       <==> HEALTHY in AskedReplies(round.replies, RoundsAsked(round.replies))
    ensures AskWorkers(cfg, m, round).1.reason == HealthyBecauseCRNotFound ==> AskWorkers(cfg, m, round).0.errorCount == 0
  {
    hide Asked, NrOfBatches, LaterBatch, CeilDiv, Batch, AskedReplies, LastAnswer;
    DecidedBy(round.replies, HEALTHY);
  }

  /** "Unhealthy by peers" is returned exactly when some asked peer said Unhealthy and none of the
      asked ones, in that or an earlier batch, said Healthy. */
  lemma UnhealthyVerdict(cfg: Config, m: Monitor, round: PeerRound)
    requires round.Valid() && Queries(cfg, m, round)
    ensures var asked := AskedReplies(round.replies, RoundsAsked(round.replies));
            (AskWorkers(cfg, m, round).1.reason == UnHealthyBecausePeersResponse
             <==> UNHEALTHY in asked && HEALTHY !in asked)
  {
    hide Asked, NrOfBatches, LaterBatch, CeilDiv, Batch, AskedReplies, LastAnswer;
    HealthyVerdict(cfg, m, round);
    DecidedBy(round.replies, UNHEALTHY);
  }

  /** "Most peers can't access the API" is returned exactly when a strict majority of all peers, not
      only of the asked ones, said ApiError and no asked peer said Healthy or Unhealthy. */
  lemma MajorityVerdict(cfg: Config, m: Monitor, round: PeerRound)
    requires round.Valid() && Queries(cfg, m, round)
    ensures var asked := AskedReplies(round.replies, RoundsAsked(round.replies));
            (AskWorkers(cfg, m, round).1.reason == HealthyBecauseMostPeersCantAccessAPIServer
             <==> 2 * Count(asked, API_ERROR) > |round.replies| && UNHEALTHY !in asked && HEALTHY !in asked)
  {
    hide Asked, NrOfBatches, LaterBatch, CeilDiv, Batch, AskedReplies, LastAnswer;
    HealthyVerdict(cfg, m, round);
    UnhealthyVerdict(cfg, m, round);
    var d, n := FirstDecisive(round.replies, 0), |round.replies|;
    if d == NrOfBatches(n) {
      SomebodyToAsk(n);
      assert !Decisive(round.replies, d - 1);
    }
  }

  /** Without any of these three verdicts the timer decides. */
  lemma SilenceVerdict(cfg: Config, m: Monitor, round: PeerRound)
    requires round.Valid() && Queries(cfg, m, round)
    ensures var reason := AskWorkers(cfg, m, round).1.reason;
            reason in {HealthyBecauseCRNotFound, UnHealthyBecausePeersResponse, HealthyBecauseMostPeersCantAccessAPIServer} ||
            reason == if round.finish > LastAnswer(round, RoundsAsked(round.replies), m.lastPeerResponse) + cfg.maxTimeForNoPeersResponse
                      then UnHealthyBecauseNodeIsIsolated else HealthyBecauseNoPeersResponseNotReachedTimeout
  {
    hide Asked, NrOfBatches, LaterBatch, CeilDiv, Batch, AskedReplies, LastAnswer, FirstDecisive;
  }

  /** A verdict for lack of answers needs every single peer to have been asked. */
  lemma NoVerdictAsksEverybody(cfg: Config, m: Monitor, round: PeerRound)
    requires round.Valid() && Queries(cfg, m, round)
    requires AskWorkers(cfg, m, round).1.reason in
             {UnHealthyBecauseNodeIsIsolated, HealthyBecauseNoPeersResponseNotReachedTimeout}
    ensures RoundsAsked(round.replies) == NrOfBatches(|round.replies|)
    ensures AskedReplies(round.replies, RoundsAsked(round.replies)) == round.replies
  {
    RoundsNeeded(|round.replies|, NrOfBatches(|round.replies|));
  }

  /** The stored time covers every answer of the round, when time does not run backwards. */
  lemma {:induction false} LastAnswerCovers(round: PeerRound, k: nat, before: int, j: nat)
    requires round.Valid() && j < k <= NrOfBatches(|round.replies|)
    requires forall a, b :: 0 <= a < b < |round.times| ==> round.times[a] <= round.times[b]
    requires Answered(Batch(round.replies, j))
    ensures round.times[j] <= LastAnswer(round, k, before)
  {
    if j < k - 1 {
      if Answered(Batch(round.replies, k - 1)) {
      } else {
        LastAnswerCovers(round, k - 1, before, j);
      }
    }
  }

  lemma {:induction false} LastAnswerKeepsOrder(round: PeerRound, k: nat, before: int)
    requires round.Valid() && k <= NrOfBatches(|round.replies|)
    requires forall a :: 0 <= a < |round.times| ==> before <= round.times[a] <= round.finish
    ensures before <= LastAnswer(round, k, before)
    ensures before <= round.finish ==> LastAnswer(round, k, before) <= round.finish
  {
    if k > 0 { LastAnswerKeepsOrder(round, k - 1, before); }
  }

  /** Nothing is remembered of a round without answers. */
  lemma {:induction false} SilenceKeepsLastAnswer(round: PeerRound, k: nat, before: int)
    requires round.Valid() && k <= NrOfBatches(|round.replies|)
    requires forall j :: 0 <= j < k ==> !Answered(Batch(round.replies, j))
    ensures LastAnswer(round, k, before) == before
  {
    if k > 0 { SilenceKeepsLastAnswer(round, k - 1, before); }
  }

  lemma BatchMembers(replies: seq<int>, k: nat)
    requires k < NrOfBatches(|replies|)
    ensures forall code :: code in Batch(replies, k) ==> code in replies
    ensures forall code :: code !in replies ==> Count(AskedReplies(replies, k + 1), code) == 0
  {
    var batch, asked := Batch(replies, k), AskedReplies(replies, k + 1);
    forall code | code in batch ensures code in replies {
      var i :| 0 <= i < |batch| && batch[i] == code;
      assert replies[Asked(|replies|, k) + i] == code;
    }
    forall code | code in asked ensures code in replies {
      var i :| 0 <= i < |asked| && asked[i] == code;
      assert replies[i] == code;
    }
  }

  /** A round in which nobody answers runs through all batches and is settled by the timer. */
  lemma SilentRound(cfg: Config, m: Monitor, round: PeerRound)
    requires round.Valid() && Queries(cfg, m, round)
    requires forall code :: code in round.replies ==> code !in {HEALTHY, UNHEALTHY, API_ERROR}
    ensures RoundsAsked(round.replies) == NrOfBatches(|round.replies|)
    ensures AskWorkers(cfg, m, round) ==
            (m.(errorCount := m.errorCount + 1),
             if round.finish > m.lastPeerResponse + cfg.maxTimeForNoPeersResponse
             then Response(false, UnHealthyBecauseNodeIsIsolated)
             else Response(true, HealthyBecauseNoPeersResponseNotReachedTimeout))
  {
    hide Asked, NrOfBatches, LaterBatch, CeilDiv, Batch, AskedReplies;
    var n, d := |round.replies|, FirstDecisive(round.replies, 0);
    forall j | 0 <= j < NrOfBatches(n)
      ensures !Decisive(round.replies, j) && !Answered(Batch(round.replies, j))
    {
      BatchMembers(round.replies, j);
      assert HEALTHY !in round.replies && UNHEALTHY !in round.replies && API_ERROR !in round.replies;
    }
    SilenceKeepsLastAnswer(round, NrOfBatches(n), m.lastPeerResponse);
  }

  /** A verdict is unhealthy for exactly two reasons, and never before the threshold. */
  lemma HealthFollowsReason(cfg: Config, m: Monitor, round: PeerRound)
    requires round.Valid()
    ensures AskWorkers(cfg, m, round).1.isHealthy <==>
            AskWorkers(cfg, m, round).1.reason !in {UnHealthyBecausePeersResponse, UnHealthyBecauseNodeIsIsolated}
    ensures AskWorkers(cfg, m, round).1.isHealthy || cfg.maxErrorsThreshold <= m.errorCount + 1
  {
  }

  /** Takes the first `count` addresses off the list. An address without an IP leaves the zero
      address in its place, which is that same address. */
  method PopPeerIPs(peersIPs: seq<string>, count: nat) returns (selected: seq<string>, rest: seq<string>)
    ensures selected + rest == peersIPs
    ensures |selected| == if count <= |peersIPs| then count else |peersIPs|
  {
    var nrOfPeers := |peersIPs|;
    if nrOfPeers == 0 {
      return [], peersIPs;
    }
    var size := if count > nrOfPeers then nrOfPeers else count;
    var slots := new string[size](_ => "");
    for i := 0 to size
      invariant forall j :: 0 <= j < i ==> slots[j] == peersIPs[j]
      invariant forall j :: i <= j < size ==> slots[j] == ""
    {
      if peersIPs[i] != "" {
        slots[i] := peersIPs[i];
      }
    }
    selected, rest := slots[..], peersIPs[size..];
  }

  /** Tallies the answers in the order in which they come in. */
  method SumPeersResponses(arrived: seq<int>) returns (healthy: nat, unhealthy: nat, apiErrors: nat, none: nat)
    ensures healthy == Count(arrived, HEALTHY)
    ensures unhealthy == Count(arrived, UNHEALTHY)
    ensures apiErrors == Count(arrived, API_ERROR)
    ensures none == Count(arrived, REQUEST_FAILED)
  {
    healthy, unhealthy, apiErrors, none := 0, 0, 0, 0;
    for i := 0 to |arrived|
      invariant healthy == Count(arrived[..i], HEALTHY)
      invariant unhealthy == Count(arrived[..i], UNHEALTHY)
      invariant apiErrors == Count(arrived[..i], API_ERROR)
      invariant none == Count(arrived[..i], REQUEST_FAILED)
    {
      assert arrived[..i + 1] == arrived[..i] + [arrived[i]];
      var response := arrived[i];
      if response == UNHEALTHY {
        unhealthy := unhealthy + 1;
      } else if response == HEALTHY {
        healthy := healthy + 1;
      } else if response == API_ERROR {
        apiErrors := apiErrors + 1;
      } else if response == REQUEST_FAILED {
        none := none + 1;
      }
    }
    assert arrived[..|arrived|] == arrived;
  }

  /** Asks a batch in parallel: the answers arrive in any order. */
  method GetHealthStatusFromPeers(replies: seq<int>) returns (healthy: nat, unhealthy: nat, apiErrors: nat, none: nat)
    ensures healthy == Count(replies, HEALTHY)
    ensures unhealthy == Count(replies, UNHEALTHY)
    ensures apiErrors == Count(replies, API_ERROR)
    ensures none == Count(replies, REQUEST_FAILED)
  {
    assert multiset(replies) == multiset(replies);
    var arrived: seq<int> :| multiset(arrived) == multiset(replies);
    healthy, unhealthy, apiErrors, none := SumPeersResponses(arrived);
  }

  /** The time allowed for one peer request: the configured one, but never less than what the
      peer itself may need for its API call plus two seconds. */
  function EffectivePeerRequestTimeout(cfg: Config, minimumBuffer: int): (timeout: int)
    ensures timeout >= cfg.peerRequestTimeout
    ensures timeout >= cfg.apiServerTimeout + minimumBuffer
    ensures timeout == cfg.peerRequestTimeout || timeout == cfg.apiServerTimeout + minimumBuffer
  {
    var minimumSafeTimeout := cfg.apiServerTimeout + minimumBuffer;
    if cfg.peerRequestTimeout < minimumSafeTimeout then minimumSafeTimeout else cfg.peerRequestTimeout
  }
}

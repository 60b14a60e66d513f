/** The promise that ties the two sides together: a worker that is cut off from the API server and from
    its peers resets itself before the manager assumes that it did. */
module FencingDeadline {
  import opened Common
  import opened Batches
  import opened PeerQuery
  import opened Calculator
  import opened ApiCheck
  import Watchdog

  const MINIMUM_BUFFER := 2 * SECOND

  /** The agents' settings that the operator derives from the same configuration. */
  function AgentConfig(spec: ConfigSpec, minPeers: int): Config {
    Config(spec.apiCheckInterval, spec.maxApiErrorThreshold, spec.apiServerTimeout, spec.peerDialTimeout,
           spec.peerRequestTimeout, NoPeersWindow(spec), minPeers)
  }

  /** A failing check, with the time at which the API request is given up. */
  datatype Timed = Timed(readyzEnd: int, check: Check)

  ghost function Checks(timeline: seq<Timed>): (run: seq<Check>)
    ensures |run| == |timeline|
    ensures forall i :: 0 <= i < |run| ==> run[i] == timeline[i].check
  {
    seq(|timeline|, i requires 0 <= i < |timeline| => timeline[i].check)
  }

  /** The longest time one batch of peer requests can take. */
  function BatchTime(cfg: Config): int {
    cfg.peerDialTimeout + EffectivePeerRequestTimeout(cfg, MINIMUM_BUFFER)
  }

  /** A peer has the configured time to answer, but never less than two seconds more than its own request to the API
      server may take. */
  lemma BatchTimeExact(cfg: Config)
    ensures var own := cfg.apiServerTimeout + 2 * 1_000_000_000;
            && BatchTime(cfg) >= cfg.peerDialTimeout + cfg.peerRequestTimeout && BatchTime(cfg) >= cfg.peerDialTimeout + own
            && BatchTime(cfg) in {cfg.peerDialTimeout + cfg.peerRequestTimeout, cfg.peerDialTimeout + own}
  {
  }

  /** The longest time for asking `peers` peers. */
  function RoundTime(cfg: Config, peers: nat): int {
    NrOfBatches(peers) * BatchTime(cfg)
  }

  /** The longest time from the end of one check to the API verdict of the next. */
  function CheckTime(cfg: Config): int {
    cfg.checkInterval + cfg.apiServerTimeout
  }

  /** The time at which check `k` is over. */
  ghost function End(cfg: Config, start: Monitor, timeline: seq<Timed>, k: nat): int
    requires ValidRun(Checks(timeline)) && k < |timeline|
  {
    CheckEnd(cfg, MemoryAt(cfg, false, start, Checks(timeline), k), timeline[k])
  }

  /** A check that does not ask is over with the API verdict; one that asks, with the batch that settles
      the question, or else with the last one. */
  ghost function CheckEnd(cfg: Config, m: Monitor, t: Timed): int
    requires t.check.workers.Valid()
  {
    var round := t.check.workers;
    if !Queries(cfg, m, round) then t.readyzEnd
    else if FirstDecisive(round.replies, 0) < NrOfBatches(|round.replies|) then round.times[FirstDecisive(round.replies, 0)]
    else round.finish
  }

  /** The time at which batch `b` is sent. */
  ghost function Previous(readyzEnd: int, times: seq<int>, b: nat): int
    requires b < |times|
  {
    if b == 0 then readyzEnd else times[b - 1]
  }

  /** Each batch is complete within its time, and the last one is evaluated at once. */
  ghost predicate RoundInTime(cfg: Config, readyzEnd: int, round: PeerRound) {
    && round.Valid() && 0 < |round.replies|
    && (forall b :: 0 <= b < |round.times| ==>
          Previous(readyzEnd, round.times, b) <= round.times[b] <= Previous(readyzEnd, round.times, b) + BatchTime(cfg))
    && (RoundsNeeded(|round.replies|, 0); round.finish == round.times[|round.times| - 1])
  }

  /** No batch that completes after `cut` brings an answer. */
  ghost predicate SilentAfter(cut: int, round: PeerRound)
    requires round.Valid()
  {
    forall b :: 0 <= b < |round.times| && round.times[b] > cut ==> !Answered(Batch(round.replies, b))
  }

  /** A failing check of a worker with that many peers, silent after the cut. */
  ghost predicate CutOffCheckShape(cfg: Config, peers: nat, cut: int, t: Timed) {
    && !t.check.readyz && |t.check.workers.replies| == peers
    && RoundInTime(cfg, t.readyzEnd, t.check.workers)
    && SilentAfter(cut, t.check.workers)
  }

  /** The API verdict of the check comes within one interval and one timeout of the end of the check before. */
  ghost predicate Follows(cfg: Config, start: Monitor, cut: int, timeline: seq<Timed>, k: nat)
    requires ValidRun(Checks(timeline)) && k < |timeline|
  {
    if k == 0 then
      timeline[0].readyzEnd <= cut + CheckTime(cfg) && cut <= End(cfg, start, timeline, 0)
    else
      End(cfg, start, timeline, k - 1) + cfg.checkInterval <= timeline[k].readyzEnd
      <= End(cfg, start, timeline, k - 1) + CheckTime(cfg)
  }

  /** From time `cut` on, the worker reaches neither the API server nor a peer: every check fails, and no
      batch that completes later brings an answer. The timeline starts with the check under way at
      that time, or the next one; each further check starts one interval after the previous one. */
  ghost predicate CutOff(cfg: Config, start: Monitor, peers: nat, cut: int, timeline: seq<Timed>) {
    && start.errorCount >= 0 && start.lastPeerResponse <= cut
    && ValidRun(Checks(timeline))
    && (forall k :: 0 <= k < |timeline| ==> CutOffCheckShape(cfg, peers, cut, timeline[k]))
    && (forall k :: 0 <= k < |timeline| ==> Follows(cfg, start, cut, timeline, k))
  }

  /** Settings the web hook and the schema admit. */
  ghost predicate Sane(cfg: Config, peers: nat) {
    && cfg.checkInterval > 0 && cfg.apiServerTimeout >= 0 && cfg.peerDialTimeout >= 0 && cfg.peerRequestTimeout >= 0
    && cfg.maxErrorsThreshold >= 1 && cfg.maxTimeForNoPeersResponse >= 0
    && peers > 0 && peers >= cfg.minPeersForRemediation
  }

  /** How long after being cut off the agent may still be undecided. */
  function Undecided(cfg: Config): int {
    Max((cfg.maxErrorsThreshold - 1) * CheckTime(cfg), cfg.maxTimeForNoPeersResponse)
  }

  /** How long after being cut off the agent has decided at the latest. */
  function WorstVerdict(cfg: Config, peers: nat): int {
    Undecided(cfg) + CheckTime(cfg) + RoundTime(cfg, peers)
  }

  lemma {:induction false} BatchTimes(cfg: Config, readyzEnd: int, round: PeerRound, b: nat)
    requires RoundInTime(cfg, readyzEnd, round) && b < |round.times|
    ensures readyzEnd <= round.times[b] <= readyzEnd + (b + 1) * BatchTime(cfg)
    ensures round.times[b] <= round.finish
  {
    BatchTimesUp(cfg, readyzEnd, round, b);
    TimesToFinish(cfg, readyzEnd, round, b);
  }

  lemma {:induction false} BatchTimesUp(cfg: Config, readyzEnd: int, round: PeerRound, b: nat)
    requires RoundInTime(cfg, readyzEnd, round) && b < |round.times|
    ensures readyzEnd <= round.times[b] <= readyzEnd + (b + 1) * BatchTime(cfg)
  {
    assert Previous(readyzEnd, round.times, b) <= round.times[b];
    if b > 0 {
      BatchTimesUp(cfg, readyzEnd, round, b - 1);
      assert (b + 1) * BatchTime(cfg) == b * BatchTime(cfg) + BatchTime(cfg);
    }
  }

  lemma {:induction false} TimesToFinish(cfg: Config, readyzEnd: int, round: PeerRound, b: nat)
    requires RoundInTime(cfg, readyzEnd, round) && b < |round.times|
    ensures round.times[b] <= round.finish
    decreases |round.times| - b
  {
    hide BatchTime;
    if b + 1 < |round.times| {
      assert Previous(readyzEnd, round.times, b + 1) <= round.times[b + 1];
      TimesToFinish(cfg, readyzEnd, round, b + 1);
    }
  }

  /** A full round is over within its time. */
  lemma RoundEnds(cfg: Config, readyzEnd: int, round: PeerRound)
    requires RoundInTime(cfg, readyzEnd, round)
    ensures readyzEnd <= round.finish <= readyzEnd + RoundTime(cfg, |round.replies|)
  {
    RoundsNeeded(|round.replies|, 0);
    BatchTimes(cfg, readyzEnd, round, |round.times| - 1);
  }

  /** One check of a cut-off worker: its memory of answers stays before the cut, and either it decides, or
      it ends early enough for the next one to be in time. */
  lemma CutOffCheck(cfg: Config, m: Monitor, cut: int, t: Timed)
    requires CutOffCheckShape(cfg, |t.check.workers.replies|, cut, t)
    requires m.errorCount >= 0 && m.lastPeerResponse <= cut
    requires |t.check.workers.replies| >= cfg.minPeersForRemediation
    ensures var (m', reboots) := RunCheck(cfg, false, m, t.check);
            var end := CheckEnd(cfg, m, t);
            && m'.errorCount >= 0
            && m'.lastPeerResponse <= cut
            && (reboots ==> end <= cut || end == t.check.workers.finish)
            && (!reboots ==> || (end <= cut)
                             || (end == t.readyzEnd && m.errorCount + 1 < cfg.maxErrorsThreshold && m'.errorCount == m.errorCount + 1)
                             || (end <= cut + cfg.maxTimeForNoPeersResponse && m'.errorCount >= cfg.maxErrorsThreshold))
  {
    hide Asked, NrOfBatches, LaterBatch, CeilDiv;
    var round := t.check.workers;
    if Queries(cfg, m, round) {
      LastAnswerBeforeCut(round, RoundsAsked(round.replies), m.lastPeerResponse, cut);
      var d := FirstDecisive(round.replies, 0);
      if d < NrOfBatches(|round.replies|) {
        FirstDecisiveIsAnswered(round.replies);
      }
    }
  }

  /** What settles the question is an answer. */
  lemma FirstDecisiveIsAnswered(replies: seq<int>)
    requires FirstDecisive(replies, 0) < NrOfBatches(|replies|)
    ensures Answered(Batch(replies, FirstDecisive(replies, 0)))
  {
    hide Asked, NrOfBatches, LaterBatch, CeilDiv;
    var d := FirstDecisive(replies, 0);
    PrefixIsBatches(replies, d, API_ERROR);
    if d > 0 {
      assert !Decisive(replies, d - 1);
    } else {
      NothingAsked(replies);
    }
  }

  lemma NothingAsked(replies: seq<int>)
    ensures AskedReplies(replies, 0) == []
  {
  }

  lemma {:induction false} LastAnswerBeforeCut(round: PeerRound, k: nat, before: int, cut: int)
    requires round.Valid() && k <= NrOfBatches(|round.replies|) && before <= cut
    requires forall b :: 0 <= b < |round.times| && round.times[b] > cut ==> !Answered(Batch(round.replies, b))
    ensures LastAnswer(round, k, before) <= cut
  {
    if k > 0 { LastAnswerBeforeCut(round, k - 1, before, cut); }
  }

  ghost predicate NoRebootBefore(cfg: Config, start: Monitor, timeline: seq<Timed>, k: nat)
    requires ValidRun(Checks(timeline)) && k <= |timeline|
  {
    forall j :: 0 <= j < k ==> !Reboots(cfg, false, start, Checks(timeline), j)
  }

  /** An undecided agent whose last check ended at `end` is not late. */
  ghost predicate OnSchedule(cfg: Config, cut: int, m: Monitor, end: int) {
    && m.errorCount >= 0 && m.lastPeerResponse <= cut
    && end <= cut + Undecided(cfg)
    && (m.errorCount < cfg.maxErrorsThreshold ==> end <= cut + m.errorCount * CheckTime(cfg))
  }

  lemma StaysOnSchedule(cfg: Config, peers: nat, cut: int, m: Monitor, end: int, t: Timed)
    requires Sane(cfg, peers) && OnSchedule(cfg, cut, m, end)
    requires CutOffCheckShape(cfg, peers, cut, t)
    requires t.readyzEnd <= end + CheckTime(cfg)
    requires !RunCheck(cfg, false, m, t.check).1
    ensures OnSchedule(cfg, cut, RunCheck(cfg, false, m, t.check).0, CheckEnd(cfg, m, t))
  {
    hide RunCheck, CheckEnd, SilentAfter;
    CutOffCheck(cfg, m, cut, t);
    var m' := RunCheck(cfg, false, m, t.check).0;
    assert (m.errorCount + 1) * CheckTime(cfg) == m.errorCount * CheckTime(cfg) + CheckTime(cfg);
    MulLeq(0, m'.errorCount, CheckTime(cfg));
    if m.errorCount + 1 < cfg.maxErrorsThreshold {
      MulLeq(m.errorCount + 1, cfg.maxErrorsThreshold - 1, CheckTime(cfg));
    }
  }

  /** While the agent is undecided, it keeps to its schedule. */
  lemma {:induction false} KeepsSchedule(cfg: Config, start: Monitor, peers: nat, cut: int, timeline: seq<Timed>, k: nat)
    requires Sane(cfg, peers) && CutOff(cfg, start, peers, cut, timeline) && k <= |timeline|
    requires NoRebootBefore(cfg, start, timeline, k)
    ensures OnSchedule(cfg, cut, MemoryAt(cfg, false, start, Checks(timeline), k),
                       if k == 0 then cut else End(cfg, start, timeline, k - 1))
  {
    hide RunCheck, CheckEnd, CutOffCheckShape;
    if k == 0 {
      MulLeq(0, start.errorCount, CheckTime(cfg));
    } else {
      KeepsSchedule(cfg, start, peers, cut, timeline, k - 1);
      assert !Reboots(cfg, false, start, Checks(timeline), k - 1);
      assert Follows(cfg, start, cut, timeline, k - 1);
      StaysOnSchedule(cfg, peers, cut, MemoryAt(cfg, false, start, Checks(timeline), k - 1),
                      if k == 1 then cut else End(cfg, start, timeline, k - 2), timeline[k - 1]);
    }
  }

  /** A cut-off worker decides in time: the first check that calls Reboot is over within the worst time. */
  lemma VerdictInTime(cfg: Config, start: Monitor, peers: nat, cut: int, timeline: seq<Timed>, k: nat)
    requires Sane(cfg, peers) && CutOff(cfg, start, peers, cut, timeline) && k < |timeline|
    requires NoRebootBefore(cfg, start, timeline, k) && Reboots(cfg, false, start, Checks(timeline), k)
    ensures End(cfg, start, timeline, k) <= cut + WorstVerdict(cfg, peers)
  {
    hide RunCheck, CheckEnd;
    KeepsSchedule(cfg, start, peers, cut, timeline, k);
    assert Follows(cfg, start, cut, timeline, k);
    var m := MemoryAt(cfg, false, start, Checks(timeline), k);
    CutOffCheck(cfg, m, cut, timeline[k]);
    RoundEnds(cfg, timeline[k].readyzEnd, timeline[k].check.workers);
    assert RoundTime(cfg, peers) >= 0 && CheckTime(cfg) > 0 by { MulLeq(0, NrOfBatches(peers), BatchTime(cfg)); }
    assert Undecided(cfg) >= 0;
  }

  /** And it does decide: no timeline goes on undecided for longer. */
  lemma VerdictComes(cfg: Config, start: Monitor, peers: nat, cut: int, timeline: seq<Timed>)
    requires Sane(cfg, peers) && CutOff(cfg, start, peers, cut, timeline) && timeline != []
    requires End(cfg, start, timeline, |timeline| - 1) > cut + Undecided(cfg)
    ensures exists k :: 0 <= k < |timeline| && Reboots(cfg, false, start, Checks(timeline), k)
  {
    if NoRebootBefore(cfg, start, timeline, |timeline|) {
      KeepsSchedule(cfg, start, peers, cut, timeline, |timeline|);
    }
  }

  /** The agent calls Reboot for the first time in check `k`, which is over at time `end`. */
  ghost predicate DecidesAt(cfg: Config, start: Monitor, peers: nat, cut: int, timeline: seq<Timed>, k: nat, end: int) {
    && CutOff(cfg, start, peers, cut, timeline) && k < |timeline|
    && NoRebootBefore(cfg, start, timeline, k)
    && Reboots(cfg, false, start, Checks(timeline), k)
    && End(cfg, start, timeline, k) == end
  }

  ghost predicate DecidesBy(cfg: Config, start: Monitor, peers: nat, cut: int, timeline: seq<Timed>, latest: int) {
    exists k: nat, end: int :: DecidesAt(cfg, start, peers, cut, timeline, k, end) && end <= latest
  }

  /** The check loop of the cut-off worker goes on until time `until`, or until it calls Reboot: from then on the node may
      be reset at any time. */
  ghost predicate GoesOn(cfg: Config, start: Monitor, peers: nat, cut: int, timeline: seq<Timed>, until: int) {
    && CutOff(cfg, start, peers, cut, timeline) && timeline != []
    && (|| End(cfg, start, timeline, |timeline| - 1) >= until
        || exists k :: 0 <= k < |timeline| && Reboots(cfg, false, start, Checks(timeline), k))
  }

  /** Some check is the first one. */
  lemma {:induction false} FirstVerdict(cfg: Config, start: Monitor, timeline: seq<Timed>, k: nat) returns (first: nat)
    requires ValidRun(Checks(timeline)) && k < |timeline| && Reboots(cfg, false, start, Checks(timeline), k)
    ensures first <= k && NoRebootBefore(cfg, start, timeline, first) && Reboots(cfg, false, start, Checks(timeline), first)
    decreases k
  {
    hide Reboots;
    if j :| 0 <= j < k && Reboots(cfg, false, start, Checks(timeline), j) {
      first := FirstVerdict(cfg, start, timeline, j);
    } else {
      first := k;
    }
  }

  /** Both halves together: a loop that goes on long enough has its first verdict, and in time. */
  lemma CutOffWorkerDecides(cfg: Config, start: Monitor, peers: nat, cut: int, timeline: seq<Timed>, until: int)
    requires Sane(cfg, peers) && GoesOn(cfg, start, peers, cut, timeline, until)
    requires until >= cut + WorstVerdict(cfg, peers)
    ensures DecidesBy(cfg, start, peers, cut, timeline, cut + WorstVerdict(cfg, peers))
  {
    hide CutOff, End, Reboots, RoundTime, ValidRun, NoRebootBefore;
    RoundTimeNonNegative(cfg, peers);
    assert ValidRun(Checks(timeline)) by { CutOffIsValid(cfg, start, peers, cut, timeline); }
    if End(cfg, start, timeline, |timeline| - 1) >= until { VerdictComes(cfg, start, peers, cut, timeline); }
    var k :| 0 <= k < |timeline| && Reboots(cfg, false, start, Checks(timeline), k);
    var first := FirstVerdict(cfg, start, timeline, k);
    VerdictInTime(cfg, start, peers, cut, timeline, first);
    assert DecidesAt(cfg, start, peers, cut, timeline, first, End(cfg, start, timeline, first));
  }

  lemma CutOffIsValid(cfg: Config, start: Monitor, peers: nat, cut: int, timeline: seq<Timed>)
    requires CutOff(cfg, start, peers, cut, timeline)
    ensures ValidRun(Checks(timeline))
  {
  }

  /** There is only one first verdict. */
  lemma OneFirstVerdict(cfg: Config, start: Monitor, peers: nat, cut: int, timeline: seq<Timed>, k: nat, end: int, k': nat, end': int)
    requires DecidesAt(cfg, start, peers, cut, timeline, k, end) && DecidesAt(cfg, start, peers, cut, timeline, k', end')
    ensures k == k' && end == end'
  {
    hide CutOff, End, Reboots;
  }

  // The bound is attained.

  /** A check in which nobody answers and everything takes as long as it can. */
  function SlowCheck(cfg: Config, peers: nat, readyzEnd: int): (t: Timed)
    ensures t.check.workers.Valid()
  {
    Timed(readyzEnd,
          Check(false,
                PeerRound(seq(peers, _ => REQUEST_FAILED),
                          seq(NrOfBatches(peers), b => readyzEnd + (b + 1) * BatchTime(cfg)),
                          readyzEnd + RoundTime(cfg, peers)),
                CpDial([], None), false, CpDial([], None), false))
  }

  lemma SlowCheckIsInTime(cfg: Config, peers: nat, readyzEnd: int)
    requires Sane(cfg, peers)
    ensures RoundInTime(cfg, readyzEnd, SlowCheck(cfg, peers, readyzEnd).check.workers)
    ensures forall b :: 0 <= b < NrOfBatches(peers) ==> !Answered(Batch(SlowCheck(cfg, peers, readyzEnd).check.workers.replies, b))
  {
    hide NrOfBatches, Batch;
    var round := SlowCheck(cfg, peers, readyzEnd).check.workers;
    RoundsNeeded(peers, 0);
    forall b | 0 <= b < |round.times|
      ensures Previous(readyzEnd, round.times, b) <= round.times[b] <= Previous(readyzEnd, round.times, b) + BatchTime(cfg)
    {
      assert (b + 1) * BatchTime(cfg) == b * BatchTime(cfg) + BatchTime(cfg);
    }
    forall b | 0 <= b < NrOfBatches(peers) ensures !Answered(Batch(round.replies, b)) {
      BatchMembers(round.replies, b);
    }
  }

  /** What a slow check does to an agent that was cut off with memory `m`. */
  lemma SlowCheckRuns(cfg: Config, peers: nat, m: Monitor, readyzEnd: int)
    requires Sane(cfg, peers)
    ensures var t := SlowCheck(cfg, peers, readyzEnd);
            var asks := m.errorCount + 1 >= cfg.maxErrorsThreshold;
            var end := if asks then readyzEnd + RoundTime(cfg, peers) else readyzEnd;
            && CheckEnd(cfg, m, t) == end
            && RunCheck(cfg, false, m, t.check) ==
               (m.(errorCount := m.errorCount + 1), asks && end > m.lastPeerResponse + cfg.maxTimeForNoPeersResponse)
  {
    hide Asked, NrOfBatches, LaterBatch, CeilDiv, Batch;
    var t := SlowCheck(cfg, peers, readyzEnd);
    if m.errorCount + 1 >= cfg.maxErrorsThreshold {
      SilentRound(cfg, m, t.check.workers);
      FirstIsLast(t.check.workers.replies);
    }
  }

  lemma FirstIsLast(replies: seq<int>)
    requires RoundsAsked(replies) == NrOfBatches(|replies|)
    requires forall code :: code in replies ==> code !in {HEALTHY, UNHEALTHY, API_ERROR}
    ensures FirstDecisive(replies, 0) == NrOfBatches(|replies|)
  {
    hide Asked, NrOfBatches, LaterBatch, CeilDiv;
    if FirstDecisive(replies, 0) < NrOfBatches(|replies|) {
      FirstDecisiveIsAnswered(replies);
      var d := FirstDecisive(replies, 0);
      assert forall code :: code in Batch(replies, d) ==> code in replies;
    }
  }

  /** Slow checks whose API verdicts come at the given times. */
  ghost function SlowTimeline(cfg: Config, peers: nat, ends: seq<int>): (timeline: seq<Timed>)
    ensures |timeline| == |ends|
    ensures forall k :: 0 <= k < |ends| ==> timeline[k] == SlowCheck(cfg, peers, ends[k])
    ensures ValidRun(Checks(timeline))
  {
    seq(|ends|, k requires 0 <= k < |ends| => SlowCheck(cfg, peers, ends[k]))
  }

  lemma {:induction false} SlowMemory(cfg: Config, peers: nat, start: Monitor, ends: seq<int>, k: nat)
    requires Sane(cfg, peers) && k <= |ends|
    ensures MemoryAt(cfg, false, start, Checks(SlowTimeline(cfg, peers, ends)), k) == start.(errorCount := start.errorCount + k)
  {
    hide RunCheck, SlowCheck, CheckEnd;
    if k > 0 {
      SlowMemory(cfg, peers, start, ends, k - 1);
      SlowCheckRuns(cfg, peers, start.(errorCount := start.errorCount + k - 1), ends[k - 1]);
    }
  }

  /** When slow check `k` is over. */
  ghost function SlowEnd(cfg: Config, peers: nat, start: Monitor, ends: seq<int>, k: nat): int
    requires k < |ends|
  {
    if start.errorCount + k + 1 >= cfg.maxErrorsThreshold then ends[k] + RoundTime(cfg, peers) else ends[k]
  }

  lemma SlowEnds(cfg: Config, peers: nat, start: Monitor, ends: seq<int>, k: nat)
    requires Sane(cfg, peers) && k < |ends|
    ensures var timeline := SlowTimeline(cfg, peers, ends);
            && End(cfg, start, timeline, k) == SlowEnd(cfg, peers, start, ends, k)
            && (Reboots(cfg, false, start, Checks(timeline), k) <==>
                && start.errorCount + k + 1 >= cfg.maxErrorsThreshold
                && SlowEnd(cfg, peers, start, ends, k) > start.lastPeerResponse + cfg.maxTimeForNoPeersResponse)
  {
    hide RunCheck, SlowCheck, CheckEnd, RoundTime;
    SlowMemory(cfg, peers, start, ends, k);
    SlowCheckRuns(cfg, peers, start.(errorCount := start.errorCount + k), ends[k]);
  }

  lemma SlowTimelineIsCutOff(cfg: Config, peers: nat, start: Monitor, cut: int, ends: seq<int>)
    requires Sane(cfg, peers) && start.errorCount >= 0 && start.lastPeerResponse <= cut
    requires ends != [] && ends[0] <= cut + CheckTime(cfg) && cut <= SlowEnd(cfg, peers, start, ends, 0)
    requires forall i, j :: 0 <= i < j < |ends| && j == i + 1 ==> ends[j] == SlowEnd(cfg, peers, start, ends, i) + CheckTime(cfg)
    ensures CutOff(cfg, start, peers, cut, SlowTimeline(cfg, peers, ends))
  {
    hide RunCheck, CheckEnd, RoundInTime, SlowEnd, End;
    var timeline := SlowTimeline(cfg, peers, ends);
    forall k | 0 <= k < |timeline|
      ensures CutOffCheckShape(cfg, peers, cut, timeline[k]) && Follows(cfg, start, cut, timeline, k)
    {
      SlowCheckIsInTime(cfg, peers, ends[k]);
      SlowEnds(cfg, peers, start, ends, if k == 0 then 0 else k - 1);
    }
  }

  /** When a timeline of slow checks is decided, in terms of the times alone. */
  lemma SlowTimelineDecides(cfg: Config, peers: nat, start: Monitor, cut: int, ends: seq<int>, k: nat)
    requires Sane(cfg, peers) && start.errorCount >= 0 && start.lastPeerResponse <= cut
    requires ends != [] && ends[0] <= cut + CheckTime(cfg) && cut <= SlowEnd(cfg, peers, start, ends, 0)
    requires forall i, j :: 0 <= i < j < |ends| && j == i + 1 ==> ends[j] == SlowEnd(cfg, peers, start, ends, i) + CheckTime(cfg)
    requires k < |ends| && start.errorCount + k + 1 >= cfg.maxErrorsThreshold
    requires SlowEnd(cfg, peers, start, ends, k) > start.lastPeerResponse + cfg.maxTimeForNoPeersResponse
    requires forall j :: 0 <= j < k ==>
               || start.errorCount + j + 1 < cfg.maxErrorsThreshold
               || SlowEnd(cfg, peers, start, ends, j) <= start.lastPeerResponse + cfg.maxTimeForNoPeersResponse
    ensures DecidesAt(cfg, start, peers, cut, SlowTimeline(cfg, peers, ends), k, SlowEnd(cfg, peers, start, ends, k))
  {
    hide CutOff, End, SlowEnd, Reboots;
    SlowTimelineIsCutOff(cfg, peers, start, cut, ends);
    var timeline := SlowTimeline(cfg, peers, ends);
    forall j | 0 <= j < k ensures !Reboots(cfg, false, start, Checks(timeline), j) {
      SlowEnds(cfg, peers, start, ends, j);
    }
    SlowEnds(cfg, peers, start, ends, k);
  }

  lemma RoundTimeNonNegative(cfg: Config, peers: nat)
    requires Sane(cfg, peers)
    ensures RoundTime(cfg, peers) >= 0
  {
    MulLeq(0, NrOfBatches(peers), BatchTime(cfg));
  }

  /** How long counting the API errors from zero and one round of questions can take. */
  function DetectionTime(cfg: Config, peers: nat): int {
    (cfg.maxErrorsThreshold - 1) * CheckTime(cfg) + CheckTime(cfg) + RoundTime(cfg, peers)
  }

  /** The API errors are counted from zero, and the first round of questions settles the matter. */
  lemma SlowDetection(cfg: Config, peers: nat, cut: int) returns (start: Monitor, timeline: seq<Timed>, k: nat)
    requires Sane(cfg, peers) && DetectionTime(cfg, peers) > cfg.maxTimeForNoPeersResponse
    ensures DecidesAt(cfg, start, peers, cut, timeline, k, cut + DetectionTime(cfg, peers)) && k == |timeline| - 1
    ensures start == Monitor(0, cut) && timeline[0].readyzEnd == cut + CheckTime(cfg)
    ensures forall i :: 0 <= i < |timeline| ==> timeline[i].readyzEnd > cut
  {
    hide DecidesAt, RoundTime;
    RoundTimeNonNegative(cfg, peers);
    var T := cfg.maxErrorsThreshold;
    var ends := DetectionTimes(cut, CheckTime(cfg), T);
    start, timeline, k := Monitor(0, cut), SlowTimeline(cfg, peers, ends), T - 1;
    SlowTimelineDecides(cfg, peers, start, cut, ends, k);
  }

  /** Times that lie `step` apart, the first one `step` after the origin. */
  lemma DetectionTimes(origin: int, step: int, count: int) returns (times: seq<int>)
    requires count > 0 && step > 0
    ensures forall i :: 0 <= i < |times| ==> times[i] > origin
    ensures |times| == count
    ensures times[0] == origin + step
    ensures forall i, j :: 0 <= i < j < |times| && j == i + 1 ==> times[j] == times[i] + step
    ensures times[count - 1] == origin + (count - 1) * step + step
  {
    times := seq(count, i => origin + (i + 1) * step);
    forall i, j | 0 <= i < j < |times| && j == i + 1 ensures times[j] == times[i] + step {
      assert (j + 1) * step == (i + 1) * step + step;
    }
    forall i | 0 <= i < |times| ensures times[i] > origin { MulLeq(1, i + 1, step); }
    assert count * step == (count - 1) * step + step;
  }

  /** The errors were counted before the cut, and round after round ends within the window for peer
      answers, the last one exactly with it. */
  lemma SlowConfirmation(cfg: Config, peers: nat, cut: int) returns (start: Monitor, timeline: seq<Timed>, k: nat)
    requires Sane(cfg, peers)
    requires (cfg.maxErrorsThreshold - 1) * CheckTime(cfg) < cfg.maxTimeForNoPeersResponse
    ensures DecidesAt(cfg, start, peers, cut, timeline, k, cut + WorstVerdict(cfg, peers)) && k == |timeline| - 1
  {
    hide DecidesAt, RoundTime;
    RoundTimeNonNegative(cfg, peers);
    var window, round := cfg.maxTimeForNoPeersResponse, RoundTime(cfg, peers);
    var ends := ConfirmationTimes(cut - round, window, CheckTime(cfg) + round);
    start, timeline, k := Monitor(cfg.maxErrorsThreshold - 1, cut), SlowTimeline(cfg, peers, ends), |ends| - 1;
    assert forall j :: 0 <= j < |ends| ==> SlowEnd(cfg, peers, start, ends, j) == ends[j] + round;
    SlowTimelineDecides(cfg, peers, start, cut, ends, k);
  }

  /** Times that lie `gap` apart, the first one within `gap` of the origin, the last but one exactly
      `window` after it. */
  lemma ConfirmationTimes(origin: int, window: int, gap: int) returns (times: seq<int>)
    requires window >= 0 && gap > 0
    ensures |times| >= 2
    ensures origin <= times[0] <= origin + gap
    ensures forall i, j :: 0 <= i < j < |times| && j == i + 1 ==> times[j] == times[i] + gap
    ensures forall j :: 0 <= j < |times| - 1 ==> times[j] <= origin + window
    ensures times[|times| - 1] == origin + window + gap
  {
    var full, rest := window / gap, window % gap;
    assert full >= 0 by { QuotientNonNegative(window, gap); }
    times := seq(full + 2, i => origin + rest + i * gap);
    forall i, j | 0 <= i < j < |times| && j == i + 1 ensures times[j] == times[i] + gap {
      assert j * gap == i * gap + gap;
    }
    forall j | 0 <= j < |times| - 1 ensures times[j] <= origin + window {
      MulLeq(j, full, gap);
    }
    assert (full + 1) * gap == full * gap + gap;
  }

  lemma QuotientNonNegative(a: int, b: int)
    requires a >= 0 && b > 0
    ensures a / b >= 0
  {
    if a / b < 0 { MulLeq(a / b, -1, b); }
  }

  /** The worst time is no overestimate: for every configuration and every moment of the cut there is a
      timeline in which the agent decides exactly then, and not before. */
  lemma WorstVerdictAttained(cfg: Config, peers: nat, cut: int) returns (start: Monitor, timeline: seq<Timed>, k: nat)
    requires Sane(cfg, peers)
    ensures DecidesAt(cfg, start, peers, cut, timeline, k, cut + WorstVerdict(cfg, peers)) && k == |timeline| - 1
  {
    hide DecidesAt, RoundTime;
    RoundTimeNonNegative(cfg, peers);
    if (cfg.maxErrorsThreshold - 1) * CheckTime(cfg) >= cfg.maxTimeForNoPeersResponse {
      start, timeline, k := SlowDetection(cfg, peers, cut);
    } else {
      start, timeline, k := SlowConfirmation(cfg, peers, cut);
    }
  }

  // The deadline.

  /** Every cut-off worker calls Reboot, and early enough for its watchdog, which resets the node at most
      `watchdogTimeout` later, to fire thirty seconds before `duration` has passed. */
  ghost predicate DeadlineMet(cfg: Config, peers: nat, watchdogTimeout: int, duration: int) {
    forall start: Monitor, cut: int, timeline: seq<Timed>, latest: int ::
      GoesOn(cfg, start, peers, cut, timeline, latest) && latest == cut + duration - watchdogTimeout - REBOOT_BUFFER ==>
        DecidesBy(cfg, start, peers, cut, timeline, latest)
  }

  /** The exact condition, for any duration. */
  lemma DeadlineExact(cfg: Config, peers: nat, watchdogTimeout: int, duration: int)
    requires Sane(cfg, peers)
    ensures DeadlineMet(cfg, peers, watchdogTimeout, duration) <==>
            WorstVerdict(cfg, peers) + watchdogTimeout + REBOOT_BUFFER <= duration
  {
    hide WorstVerdict, GoesOn, DecidesAt;
    var allowed := duration - watchdogTimeout - REBOOT_BUFFER;
    if WorstVerdict(cfg, peers) <= allowed {
      forall start: Monitor, cut: int, timeline: seq<Timed>, latest: int |
        GoesOn(cfg, start, peers, cut, timeline, latest) && latest == cut + allowed
        ensures DecidesBy(cfg, start, peers, cut, timeline, latest)
      {
        CutOffWorkerDecides(cfg, start, peers, cut, timeline, latest);
      }
    } else {
      var start, timeline, k := WorstVerdictAttained(cfg, peers, 0);
      DecidedGoesOn(cfg, start, peers, 0, timeline, k, WorstVerdict(cfg, peers), allowed);
      if DecidesBy(cfg, start, peers, 0, timeline, allowed) {
        var k': nat, end' :| DecidesAt(cfg, start, peers, 0, timeline, k', end') && end' <= allowed;
        OneFirstVerdict(cfg, start, peers, 0, timeline, k, WorstVerdict(cfg, peers), k', end');
      }
    }
  }

  lemma DecidedGoesOn(cfg: Config, start: Monitor, peers: nat, cut: int, timeline: seq<Timed>, k: nat, end: int, until: int)
    requires DecidesAt(cfg, start, peers, cut, timeline, k, end)
    ensures GoesOn(cfg, start, peers, cut, timeline, until)
  {
    hide CutOff, End, Reboots;
  }

  /** What the calculator's minimum has to satisfy, in terms of the configuration and the two counts: the
      peers an agent asks and the workers the manager lists. */
  predicate CalculatorSuffices(spec: ConfigSpec, cfg: Config, workers: nat, peers: nat) {
    var allowed := Max(NrOfBatches(workers) * (spec.peerDialTimeout + spec.peerRequestTimeout), NoPeersWindow(spec));
    && RoundTime(cfg, peers) <= allowed
    && NoPeersWindow(spec) + RoundTime(cfg, peers) <= (spec.maxApiErrorThreshold - 1) * CheckTime(cfg) + allowed
  }

  /** With the calculated minimum, the deadline is met for every timeline if and only if that condition
      holds. It does not depend on the watchdog. */
  lemma MinimumDurationExact(spec: ConfigSpec, minPeers: int, workers: nat, peers: nat, watchdogTimeout: int)
    requires Sane(AgentConfig(spec, minPeers), peers)
    ensures DeadlineMet(AgentConfig(spec, minPeers), peers, watchdogTimeout, MinimumRebootDuration(spec, workers, watchdogTimeout))
       <==> CalculatorSuffices(spec, AgentConfig(spec, minPeers), workers, peers)
  {
    hide DeadlineMet, RoundTime, NoPeersWindow, NrOfBatches;
    var cfg := AgentConfig(spec, minPeers);
    DeadlineExact(cfg, peers, watchdogTimeout, MinimumRebootDuration(spec, workers, watchdogTimeout));
    var T, step := spec.maxApiErrorThreshold, CheckTime(cfg);
    LastTimes(T, step);
    var counted := NrOfBatches(workers) * (spec.peerDialTimeout + spec.peerRequestTimeout);
    assert MinimumRebootDuration(spec, workers, watchdogTimeout) ==
           (T - 1) * step + step + Max(counted, NoPeersWindow(spec)) + watchdogTimeout + REBOOT_BUFFER;
  }

  lemma LastTimes(count: int, step: int)
    ensures step * count == (count - 1) * step + step
  {
  }

  /** The condition holds, in particular, if the peer timeout leaves the two seconds, the agent needs no more
      batches than the manager counts, and either the window for peer answers or the round of
      questions fits into the API error detection. */
  lemma DeadlineHolds(spec: ConfigSpec, minPeers: int, workers: nat, peers: nat, watchdogTimeout: int, duration: int)
    requires Sane(AgentConfig(spec, minPeers), peers)
    requires spec.peerRequestTimeout >= spec.apiServerTimeout + MINIMUM_BUFFER
    requires NrOfBatches(peers) <= NrOfBatches(workers)
    requires var slack := (spec.maxApiErrorThreshold - 1) * (spec.apiCheckInterval + spec.apiServerTimeout);
             NoPeersWindow(spec) <= slack || RoundTime(AgentConfig(spec, minPeers), peers) <= slack
    requires duration >= MinimumRebootDuration(spec, workers, watchdogTimeout)
    ensures DeadlineMet(AgentConfig(spec, minPeers), peers, watchdogTimeout, duration)
  {
    hide DeadlineMet;
    var cfg := AgentConfig(spec, minPeers);
    MulLeq(NrOfBatches(peers), NrOfBatches(workers), BatchTime(cfg));
    MinimumDurationExact(spec, minPeers, workers, peers, watchdogTimeout);
    DeadlineExact(cfg, peers, watchdogTimeout, duration);
    DeadlineExact(cfg, peers, watchdogTimeout, MinimumRebootDuration(spec, workers, watchdogTimeout));
  }

  const DEFAULT_SPEC := ConfigSpec(15 * SECOND, 5 * SECOND, 3, 5 * SECOND, 7 * SECOND, Some(30 * SECOND), None)

  /** The promise fails for the default configuration in a cluster of 43 workers: the manager counts 11
      batches, the agent asks its 42 peers in 14. Its watchdog can fire 36 seconds later than the
      calculation allows, which is after the manager assumes the reboot. */
  lemma DeadlineMissed(minPeers: int, watchdogTimeout: int) returns (start: Monitor, timeline: seq<Timed>, k: nat, end: int)
    requires minPeers <= 42
    ensures DecidesAt(AgentConfig(DEFAULT_SPEC, minPeers), start, 42, 0, timeline, k, end)
    ensures end + watchdogTimeout == MinimumRebootDuration(DEFAULT_SPEC, 43, watchdogTimeout) + 6 * SECOND
    ensures !CalculatorSuffices(DEFAULT_SPEC, AgentConfig(DEFAULT_SPEC, minPeers), 43, 42)
  {
    hide DecidesAt, NrOfBatches;
    var cfg := AgentConfig(DEFAULT_SPEC, minPeers);
    NeighbourBatchesAttained();
    start, timeline, k := WorstVerdictAttained(cfg, 42, 0);
    end := WorstVerdict(cfg, 42);
  }

  /** A cut-off worker whose watchdog is armed, or triggered already, when the first verdict of its check loop stops the
      feeding: the hardware resets the node at least thirty seconds before the time the manager computed at the
      moment of the cut, whatever happens to the watchdog afterwards. The persisted form of that time is cut to whole
      seconds. That there is a verdict is part of the result. */
  lemma NodeResetBeforeDeadline(cfg: Config, start: Monitor, peers: nat, cut: int, timeline: seq<Timed>,
                                states: seq<Watchdog.State>, steps: seq<Watchdog.Step>, i: nat, j: nat, duration: int)
    requires StopsAtVerdict(cfg, start, peers, cut, timeline, states, steps, i) && i < j < |states|
    requires DeadlineMet(cfg, peers, states[i].timeout, duration)
    requires GoesOn(cfg, start, peers, cut, timeline, cut + duration - states[i].timeout - REBOOT_BUFFER)
    ensures DecidesBy(cfg, start, peers, cut, timeline, cut + duration - states[i].timeout - REBOOT_BUFFER)
    ensures states[j].status == Watchdog.Triggered && states[j].hardware.Some?
    ensures states[j].hardware.value <= cut + duration - REBOOT_BUFFER
    ensures states[j].hardware.value < WholeSeconds(cut + duration) - (REBOOT_BUFFER - SECOND)
  {
    hide DecidesAt, GoesOn;
    var latest := cut + duration - states[i].timeout - REBOOT_BUFFER;
    var k: nat, end :| DecidesAt(cfg, start, peers, cut, timeline, k, end) && end <= latest;
    Watchdog.RunIsSound(states, steps, i);
    assert states[i + 1] == Watchdog.Next(states[i], steps[i]);
    Watchdog.TriggerIsFinal(states, steps, i + 1, j);
  }

  /** Step `i` of the watchdog is the Stop that the first verdict of the timeline causes, whenever that comes. */
  ghost predicate StopsAtVerdict(cfg: Config, start: Monitor, peers: nat, cut: int, timeline: seq<Timed>,
                                 states: seq<Watchdog.State>, steps: seq<Watchdog.Step>, i: nat)
  {
    && Watchdog.IsRun(states, steps) && i < |steps|
    && states[i].status in {Watchdog.Armed, Watchdog.Triggered} && steps[i].Stop?
    && (forall k: nat, end: int :: DecidesAt(cfg, start, peers, cut, timeline, k, end) ==> steps[i].now == end)
  }
}

/** The other reading of being cut off: answers may still be on their way. A batch that was sent before the cut may bring
    them, and they are noted when the batch is complete. */
module LateAnswers {
  import opened Common
  import opened Batches
  import opened PeerQuery
  import opened Calculator
  import opened ApiCheck
  import opened FencingDeadline

  /** No batch that is sent after `cut` brings an answer. */
  ghost predicate SilentSince(cut: int, readyzEnd: int, round: PeerRound)
    requires round.Valid()
  {
    forall b :: 0 <= b < |round.times| && Previous(readyzEnd, round.times, b) > cut ==> !Answered(Batch(round.replies, b))
  }

  ghost predicate LateCheckShape(cfg: Config, peers: nat, cut: int, t: Timed) {
    && !t.check.readyz && |t.check.workers.replies| == peers
    && RoundInTime(cfg, t.readyzEnd, t.check.workers)
    && SilentSince(cut, t.readyzEnd, t.check.workers)
  }

  /** Cut off in this sense. */
  ghost predicate CutOffLate(cfg: Config, start: Monitor, peers: nat, cut: int, timeline: seq<Timed>) {
    && start.errorCount >= 0 && start.lastPeerResponse <= cut
    && ValidRun(Checks(timeline))
    && (forall k :: 0 <= k < |timeline| ==> LateCheckShape(cfg, peers, cut, timeline[k]))
    && (forall k :: 0 <= k < |timeline| ==> Follows(cfg, start, cut, timeline, k))
  }

  /** It is the weaker assumption. */
  lemma CutOffIsLate(cfg: Config, start: Monitor, peers: nat, cut: int, timeline: seq<Timed>)
    requires CutOff(cfg, start, peers, cut, timeline)
    ensures CutOffLate(cfg, start, peers, cut, timeline)
  {
    hide Batch, Answered, NrOfBatches, BatchTime, Follows, ValidRun;
    forall k | 0 <= k < |timeline| ensures LateCheckShape(cfg, peers, cut, timeline[k]) {
      assert CutOffCheckShape(cfg, peers, cut, timeline[k]);
    }
  }

  // How long the agent may stay undecided.

  function Min(a: int, b: int): (m: int)
    ensures m <= a && m <= b && m in {a, b}
  {
    if a < b then a else b
  }

  /** The longest time from the end of one check to the end of the next. */
  function Pace(cfg: Config, peers: nat): int {
    CheckTime(cfg) + RoundTime(cfg, peers)
  }

  /** The longest time the batches after the first one can take. */
  function Tail(cfg: Config, peers: nat): int {
    (NrOfBatches(peers) - 1) * BatchTime(cfg)
  }

  /** The latest end of an undecided check after an answer that leaves the error count alone: within the window for peer
      answers, and no more checks than fit into it, however slow. */
  function Stretch(cfg: Config, peers: nat): int
    requires cfg.checkInterval > 0
  {
    var window := cfg.maxTimeForNoPeersResponse;
    Min(window, Tail(cfg, peers) + (window / cfg.checkInterval) * Pace(cfg, peers))
  }

  /** How long after the cut the agent may still be undecided: for want of an answer after the cut, or by the time of one
      batch later with one. */
  function LateUndecided(cfg: Config, peers: nat): int
    requires cfg.checkInterval > 0
  {
    Max(cfg.maxTimeForNoPeersResponse,
        BatchTime(cfg) + Max(Stretch(cfg, peers), (cfg.maxErrorsThreshold - 1) * CheckTime(cfg)))
  }

  function LateWorst(cfg: Config, peers: nat): int
    requires cfg.checkInterval > 0
  {
    LateUndecided(cfg, peers) + Pace(cfg, peers)
  }

  /** It is at most one batch more than in the stricter sense. */
  lemma LateByAtMostABatch(cfg: Config, peers: nat)
    requires Sane(cfg, peers)
    ensures LateWorst(cfg, peers) <= BatchTime(cfg) + WorstVerdict(cfg, peers)
  {
    hide RoundTime, Tail;
  }

  // The first check, which may still hear answers.

  /** The state of an undecided agent after check `k`, which ended at `end`. */
  ghost predicate LateSchedule(cfg: Config, peers: nat, cut: int, k: nat, m: Monitor, end: int) {
    && m.errorCount >= 0 && m.lastPeerResponse <= cut + BatchTime(cfg) && cut <= end
    && if m.lastPeerResponse <= cut then OnSchedule(cfg, cut, m, end)
       else
         && m.lastPeerResponse + k * cfg.checkInterval <= end <= m.lastPeerResponse + Tail(cfg, peers) + k * Pace(cfg, peers)
         && (m.errorCount < cfg.maxErrorsThreshold ==> end <= m.lastPeerResponse + m.errorCount * CheckTime(cfg))
         && (m.errorCount >= cfg.maxErrorsThreshold ==> end <= m.lastPeerResponse + cfg.maxTimeForNoPeersResponse)
  }

  /** The remembered answer is the one from before, or one of this round. */
  lemma {:induction false} LastAnswerSource(round: PeerRound, k: nat, before: int) returns (b: nat)
    requires round.Valid() && k <= NrOfBatches(|round.replies|)
    ensures LastAnswer(round, k, before) == before || (b < k && Answered(Batch(round.replies, b)) && LastAnswer(round, k, before) == round.times[b])
  {
    hide NrOfBatches, Batch;
    if k == 0 {
      b := 0;
    } else if Answered(Batch(round.replies, k - 1)) {
      b := k - 1;
    } else {
      b := LastAnswerSource(round, k - 1, before);
    }
  }

  /** What remains of a round after batch `b`. */
  lemma {:induction false} FinishWithin(cfg: Config, readyzEnd: int, round: PeerRound, b: nat)
    requires RoundInTime(cfg, readyzEnd, round) && b < |round.times|
    ensures round.times[b] <= round.finish <= round.times[b] + (|round.times| - 1 - b) * BatchTime(cfg)
    decreases |round.times| - b
  {
    hide BatchTime, NrOfBatches;
    if b + 1 < |round.times| {
      assert Previous(readyzEnd, round.times, b + 1) <= round.times[b + 1] <= Previous(readyzEnd, round.times, b + 1) + BatchTime(cfg);
      FinishWithin(cfg, readyzEnd, round, b + 1);
      assert (|round.times| - 1 - b) * BatchTime(cfg) == (|round.times| - 2 - b) * BatchTime(cfg) + BatchTime(cfg);
    }
  }

  lemma SentBeforeCut(cfg: Config, peers: nat, cut: int, t: Timed, b: nat)
    requires LateCheckShape(cfg, peers, cut, t) && b < |t.check.workers.times| && Answered(Batch(t.check.workers.replies, b))
    ensures t.check.workers.times[b] <= cut + BatchTime(cfg)
  {
    hide Batch, Answered, NrOfBatches, BatchTime;
  }

  /** An undecided query that does not end with a decisive batch. */
  lemma OpenQuery(cfg: Config, peers: nat, cut: int, m: Monitor, t: Timed)
    requires Sane(cfg, peers) && LateCheckShape(cfg, peers, cut, t) && m.errorCount >= 0 && m.lastPeerResponse <= cut
    requires Queries(cfg, m, t.check.workers) && t.check.workers.finish >= cut
    requires t.check.workers.finish <= LastAnswer(t.check.workers, |t.check.workers.times|, m.lastPeerResponse) + cfg.maxTimeForNoPeersResponse
    ensures var last := LastAnswer(t.check.workers, |t.check.workers.times|, m.lastPeerResponse);
            LateSchedule(cfg, peers, cut, 0, Monitor(m.errorCount + 1, last), t.check.workers.finish)
  {
    hide Batch, Answered, NrOfBatches, BatchTime, LastAnswer, Pace, CheckTime;
    var round := t.check.workers;
    var last := LastAnswer(round, |round.times|, m.lastPeerResponse);
    BatchTimePositive(cfg, peers);
    var b := LastAnswerSource(round, |round.times|, m.lastPeerResponse);
    if last > cut {
      SentBeforeCut(cfg, peers, cut, t, b);
      FinishWithin(cfg, t.readyzEnd, round, b);
      MulLeq(|round.times| - 1 - b, |round.times| - 1, BatchTime(cfg));
    }
  }

  lemma BatchTimePositive(cfg: Config, peers: nat)
    requires Sane(cfg, peers)
    ensures BatchTime(cfg) >= 0
  {
  }

  /** After the first check an undecided agent is on schedule. */
  lemma FirstCheck(cfg: Config, peers: nat, cut: int, m: Monitor, t: Timed)
    requires Sane(cfg, peers) && LateCheckShape(cfg, peers, cut, t) && m.errorCount >= 0 && m.lastPeerResponse <= cut
    requires t.readyzEnd <= cut + CheckTime(cfg) && cut <= CheckEnd(cfg, m, t) && !RunCheck(cfg, false, m, t.check).1
    ensures LateSchedule(cfg, peers, cut, 0, RunCheck(cfg, false, m, t.check).0, CheckEnd(cfg, m, t))
  {
    hide Asked, NrOfBatches, LaterBatch, CeilDiv, Batch, LateSchedule, AskWorkers, LastAnswer, BatchTime, RoundInTime;
    var round := t.check.workers;
    assert round.Valid() by { ShapeIsValid(cfg, peers, cut, t); }
    if Queries(cfg, m, round) {
      var d := FirstDecisive(round.replies, 0);
      Settled(cfg, m, round, d);
      if d < NrOfBatches(|round.replies|) {
        FirstDecisiveIsAnswered(round.replies);
        SentBeforeCut(cfg, peers, cut, t, d);
        NotesItself(round, d, m.lastPeerResponse);
        SettledSchedule(cfg, peers, cut, RunCheck(cfg, false, m, t.check).0, round.times[d]);
      } else {
        OpenQuery(cfg, peers, cut, m, t);
      }
    } else {
      EarlyExit(cfg, m, round);
      CountingSchedule(cfg, peers, cut, m, t.readyzEnd);
    }
  }

  lemma ShapeIsValid(cfg: Config, peers: nat, cut: int, t: Timed)
    requires LateCheckShape(cfg, peers, cut, t)
    ensures t.check.workers.Valid() && |t.check.workers.replies| == peers
  {
  }

  lemma NotesItself(round: PeerRound, d: nat, before: int)
    requires round.Valid() && d < NrOfBatches(|round.replies|) && Answered(Batch(round.replies, d))
    ensures LastAnswer(round, d + 1, before) == round.times[d]
  {
    hide NrOfBatches, Batch;
  }

  /** A check that ends with an answer. */
  lemma SettledSchedule(cfg: Config, peers: nat, cut: int, m: Monitor, end: int)
    requires Sane(cfg, peers) && cut <= end == m.lastPeerResponse <= cut + BatchTime(cfg)
    requires m.errorCount == 0 || m.errorCount >= cfg.maxErrorsThreshold
    ensures LateSchedule(cfg, peers, cut, 0, m, end)
  {
    hide NrOfBatches, BatchTime;
    assert Undecided(cfg) >= 0 by { MulLeq(0, cfg.maxErrorsThreshold - 1, CheckTime(cfg)); }
    TailNonNegative(cfg, peers);
  }

  lemma TailNonNegative(cfg: Config, peers: nat)
    requires Sane(cfg, peers)
    ensures Tail(cfg, peers) >= 0
  {
    hide NrOfBatches;
    SomebodyToAsk(peers);
    MulLeq(0, NrOfBatches(peers) - 1, BatchTime(cfg));
  }

  /** A check that only counts. */
  lemma CountingSchedule(cfg: Config, peers: nat, cut: int, m: Monitor, readyzEnd: int)
    requires Sane(cfg, peers) && m.errorCount >= 0 && m.lastPeerResponse <= cut
    requires m.errorCount + 1 < cfg.maxErrorsThreshold && cut <= readyzEnd <= cut + CheckTime(cfg)
    ensures LateSchedule(cfg, peers, cut, 0, m.(errorCount := m.errorCount + 1), readyzEnd)
  {
    hide Tail, Pace, BatchTime;
    BatchTimePositive(cfg, peers);
    MulLeq(1, m.errorCount + 1, CheckTime(cfg));
    MulLeq(m.errorCount + 1, cfg.maxErrorsThreshold - 1, CheckTime(cfg));
  }

  // All later checks hear nothing.

  /** No batch of the round brings an answer. */
  ghost predicate Unanswered(round: PeerRound)
    requires round.Valid()
  {
    forall b :: 0 <= b < |round.times| ==> !Answered(Batch(round.replies, b))
  }

  lemma SentTooLate(cfg: Config, peers: nat, cut: int, t: Timed)
    requires LateCheckShape(cfg, peers, cut, t) && t.readyzEnd > cut
    ensures Unanswered(t.check.workers)
  {
    hide Batch, Answered, NrOfBatches, BatchTime;
    var round := t.check.workers;
    forall b | 0 <= b < |round.times| ensures !Answered(Batch(round.replies, b)) {
      if b > 0 { BatchTimesUp(cfg, t.readyzEnd, round, b - 1); }
    }
  }

  lemma NobodyAnswers(round: PeerRound)
    requires round.Valid() && Unanswered(round)
    ensures forall code :: code in round.replies ==> code !in {HEALTHY, UNHEALTHY, API_ERROR}
  {
    hide Batch, NrOfBatches, Asked;
    var n := NrOfBatches(|round.replies|);
    assert AskedReplies(round.replies, n) == round.replies by { AllAsked(round.replies); }
    forall code | code in {HEALTHY, UNHEALTHY, API_ERROR} ensures code !in round.replies {
      SentInSomeBatch(round.replies, n, code);
      assert forall b :: 0 <= b < n ==> code !in Batch(round.replies, b);
    }
  }

  lemma AllAsked(replies: seq<int>)
    ensures AskedReplies(replies, NrOfBatches(|replies|)) == replies
  {
    hide NrOfBatches, LaterBatch, CeilDiv;
    RoundsNeeded(|replies|, NrOfBatches(|replies|));
  }

  /** What a check without answers does. */
  lemma SilentCheckRuns(cfg: Config, peers: nat, m: Monitor, t: Timed)
    requires Sane(cfg, peers) && !t.check.readyz && |t.check.workers.replies| == peers
    requires t.check.workers.Valid() && Unanswered(t.check.workers)
    ensures var asks := m.errorCount + 1 >= cfg.maxErrorsThreshold;
            var end := if asks then t.check.workers.finish else t.readyzEnd;
            && CheckEnd(cfg, m, t) == end
            && RunCheck(cfg, false, m, t.check) ==
               (m.(errorCount := m.errorCount + 1), asks && end > m.lastPeerResponse + cfg.maxTimeForNoPeersResponse)
  {
    hide Asked, NrOfBatches, LaterBatch, CeilDiv, Batch, Unanswered;
    var round := t.check.workers;
    if m.errorCount + 1 >= cfg.maxErrorsThreshold {
      NobodyAnswers(round);
      SilentRound(cfg, m, round);
      FirstIsLast(round.replies);
    }
  }

  /** One more check keeps an undecided agent on schedule. */
  lemma NextCheck(cfg: Config, peers: nat, cut: int, k: nat, m: Monitor, end: int, t: Timed)
    requires Sane(cfg, peers) && LateSchedule(cfg, peers, cut, k, m, end) && LateCheckShape(cfg, peers, cut, t)
    requires end + cfg.checkInterval <= t.readyzEnd <= end + CheckTime(cfg) && !RunCheck(cfg, false, m, t.check).1
    ensures LateSchedule(cfg, peers, cut, k + 1, RunCheck(cfg, false, m, t.check).0, CheckEnd(cfg, m, t))
  {
    hide RunCheck, CheckEnd, Batch, NrOfBatches, BatchTime, Tail, Unanswered, RoundTime;
    SentTooLate(cfg, peers, cut, t);
    SilentCheckRuns(cfg, peers, m, t);
    RoundEnds(cfg, t.readyzEnd, t.check.workers);
    ScheduleGoesOn(cfg, peers, cut, k, m, end, CheckEnd(cfg, m, t));
  }

  lemma ScheduleGoesOn(cfg: Config, peers: nat, cut: int, k: nat, m: Monitor, end: int, next: int)
    requires Sane(cfg, peers) && LateSchedule(cfg, peers, cut, k, m, end) && end + cfg.checkInterval <= next <= end + Pace(cfg, peers)
    requires m.errorCount + 1 < cfg.maxErrorsThreshold ==> next <= end + CheckTime(cfg)
    requires m.errorCount + 1 >= cfg.maxErrorsThreshold ==> next <= m.lastPeerResponse + cfg.maxTimeForNoPeersResponse
    ensures LateSchedule(cfg, peers, cut, k + 1, m.(errorCount := m.errorCount + 1), next)
  {
    hide BatchTime, Tail, Pace, CheckTime;
    assert (k + 1) * cfg.checkInterval == k * cfg.checkInterval + cfg.checkInterval;
    assert (k + 1) * Pace(cfg, peers) == k * Pace(cfg, peers) + Pace(cfg, peers);
    assert (m.errorCount + 1) * CheckTime(cfg) == m.errorCount * CheckTime(cfg) + CheckTime(cfg);
    if m.errorCount + 1 < cfg.maxErrorsThreshold {
      assert CheckTime(cfg) > 0 by { CheckTimePositive(cfg, peers); }
      MulLeq(m.errorCount + 1, cfg.maxErrorsThreshold - 1, CheckTime(cfg));
    }
  }

  lemma CheckTimePositive(cfg: Config, peers: nat)
    requires Sane(cfg, peers)
    ensures CheckTime(cfg) >= cfg.checkInterval > 0
  {
  }

  /** On schedule means not later than the undecided time. */
  lemma ScheduleBound(cfg: Config, peers: nat, cut: int, k: nat, m: Monitor, end: int)
    requires Sane(cfg, peers) && LateSchedule(cfg, peers, cut, k, m, end)
    ensures end <= cut + LateUndecided(cfg, peers)
  {
    hide BatchTime, Tail, RoundTime;
    BatchTimePositive(cfg, peers);
    RoundTimeNonNegative(cfg, peers);
    if m.lastPeerResponse > cut {
      if m.errorCount < cfg.maxErrorsThreshold {
        MulLeq(m.errorCount, cfg.maxErrorsThreshold - 1, CheckTime(cfg));
      } else {
        var window := cfg.maxTimeForNoPeersResponse;
        FitsInto(k, cfg.checkInterval, window);
        MulLeq(k, window / cfg.checkInterval, Pace(cfg, peers));
      }
    }
  }

  lemma FitsInto(k: nat, step: int, window: int)
    requires step > 0 && k * step <= window
    ensures k <= window / step
  {
    var q := window / step;
    assert window < (q + 1) * step by { assert window == q * step + window % step; }
    if k > q { MulLeq(q + 1, k, step); }
  }

  // The verdict.

  /** The first call of Reboot in the timeline. */
  ghost predicate FirstRebootAt(cfg: Config, start: Monitor, timeline: seq<Timed>, k: nat, end: int) {
    && ValidRun(Checks(timeline)) && k < |timeline|
    && NoRebootBefore(cfg, start, timeline, k)
    && Reboots(cfg, false, start, Checks(timeline), k)
    && End(cfg, start, timeline, k) == end
  }

  ghost predicate RebootsBy(cfg: Config, start: Monitor, timeline: seq<Timed>, latest: int) {
    exists k: nat, end: int :: FirstRebootAt(cfg, start, timeline, k, end) && end <= latest
  }

  ghost predicate GoesOnLate(cfg: Config, start: Monitor, peers: nat, cut: int, timeline: seq<Timed>, until: int) {
    && CutOffLate(cfg, start, peers, cut, timeline) && timeline != []
    && (|| End(cfg, start, timeline, |timeline| - 1) >= until
        || exists k :: 0 <= k < |timeline| && Reboots(cfg, false, start, Checks(timeline), k))
  }

  lemma LateIsValid(cfg: Config, start: Monitor, peers: nat, cut: int, timeline: seq<Timed>)
    requires CutOffLate(cfg, start, peers, cut, timeline)
    ensures ValidRun(Checks(timeline))
  {
  }

  /** While the agent is undecided, it keeps to its schedule. */
  lemma {:induction false} KeepsLateSchedule(cfg: Config, start: Monitor, peers: nat, cut: int, timeline: seq<Timed>, k: nat)
    requires Sane(cfg, peers) && CutOffLate(cfg, start, peers, cut, timeline) && k < |timeline|
    requires NoRebootBefore(cfg, start, timeline, k + 1)
    ensures LateSchedule(cfg, peers, cut, k, MemoryAt(cfg, false, start, Checks(timeline), k + 1), End(cfg, start, timeline, k))
  {
    hide RunCheck, CheckEnd, LateCheckShape, LateSchedule, CheckTime;
    assert !Reboots(cfg, false, start, Checks(timeline), k) && Follows(cfg, start, cut, timeline, k);
    if k == 0 {
      assert MemoryAt(cfg, false, start, Checks(timeline), 0) == start;
      FirstCheck(cfg, peers, cut, start, timeline[0]);
    } else {
      KeepsLateSchedule(cfg, start, peers, cut, timeline, k - 1);
      NextCheck(cfg, peers, cut, k - 1, MemoryAt(cfg, false, start, Checks(timeline), k), End(cfg, start, timeline, k - 1), timeline[k]);
    }
  }

  lemma LateVerdictComes(cfg: Config, start: Monitor, peers: nat, cut: int, timeline: seq<Timed>) returns (k: nat)
    requires Sane(cfg, peers) && CutOffLate(cfg, start, peers, cut, timeline) && timeline != []
    requires End(cfg, start, timeline, |timeline| - 1) > cut + LateUndecided(cfg, peers)
    ensures k < |timeline| && Reboots(cfg, false, start, Checks(timeline), k)
  {
    hide End, Reboots, CutOffLate, LateSchedule, LateUndecided, MemoryAt;
    assert ValidRun(Checks(timeline)) by { LateIsValid(cfg, start, peers, cut, timeline); }
    if NoRebootBefore(cfg, start, timeline, |timeline|) {
      KeepsLateSchedule(cfg, start, peers, cut, timeline, |timeline| - 1);
      ScheduleBound(cfg, peers, cut, |timeline| - 1, MemoryAt(cfg, false, start, Checks(timeline), |timeline|), End(cfg, start, timeline, |timeline| - 1));
    }
    k :| 0 <= k < |timeline| && Reboots(cfg, false, start, Checks(timeline), k);
  }

  /** A check is over one round after its API verdict at the latest. */
  lemma CheckEndWithin(cfg: Config, peers: nat, cut: int, m: Monitor, t: Timed)
    requires Sane(cfg, peers) && LateCheckShape(cfg, peers, cut, t)
    ensures CheckEnd(cfg, m, t) <= t.readyzEnd + RoundTime(cfg, peers)
  {
    hide NrOfBatches, Batch, BatchTime, FirstDecisive;
    RoundEnds(cfg, t.readyzEnd, t.check.workers);
    var d := FirstDecisive(t.check.workers.replies, 0);
    if d < NrOfBatches(peers) { TimesToFinish(cfg, t.readyzEnd, t.check.workers, d); }
  }

  lemma LateVerdictInTime(cfg: Config, start: Monitor, peers: nat, cut: int, timeline: seq<Timed>, k: nat)
    requires Sane(cfg, peers) && CutOffLate(cfg, start, peers, cut, timeline) && k < |timeline|
    requires NoRebootBefore(cfg, start, timeline, k)
    ensures End(cfg, start, timeline, k) <= cut + LateWorst(cfg, peers)
  {
    hide RunCheck, CheckEnd, LateCheckShape, LateSchedule, LateUndecided, MemoryAt, RoundTime, CheckTime;
    assert Follows(cfg, start, cut, timeline, k) && LateCheckShape(cfg, peers, cut, timeline[k]);
    CheckEndWithin(cfg, peers, cut, MemoryAt(cfg, false, start, Checks(timeline), k), timeline[k]);
    assert LateUndecided(cfg, peers) >= 0 by { LateNonNegative(cfg, peers); }
    if k > 0 {
      KeepsLateSchedule(cfg, start, peers, cut, timeline, k - 1);
      ScheduleBound(cfg, peers, cut, k - 1, MemoryAt(cfg, false, start, Checks(timeline), k), End(cfg, start, timeline, k - 1));
    }
  }

  lemma LateNonNegative(cfg: Config, peers: nat)
    requires Sane(cfg, peers)
    ensures LateUndecided(cfg, peers) >= 0
  {
    hide Stretch, BatchTime;
  }

  /** A worker for which answers are still on their way decides as well, within the worst time. */
  lemma LateWorkerDecides(cfg: Config, start: Monitor, peers: nat, cut: int, timeline: seq<Timed>, until: int)
    requires Sane(cfg, peers) && GoesOnLate(cfg, start, peers, cut, timeline, until)
    requires until >= cut + LateWorst(cfg, peers)
    ensures RebootsBy(cfg, start, timeline, cut + LateWorst(cfg, peers))
  {
    hide End, Reboots, CutOffLate, LateUndecided, NoRebootBefore, RoundTime;
    assert ValidRun(Checks(timeline)) by { LateIsValid(cfg, start, peers, cut, timeline); }
    RoundTimeNonNegative(cfg, peers);
    var k: nat;
    if End(cfg, start, timeline, |timeline| - 1) >= until {
      k := LateVerdictComes(cfg, start, peers, cut, timeline);
    } else {
      k :| 0 <= k < |timeline| && Reboots(cfg, false, start, Checks(timeline), k);
    }
    var first := FirstVerdict(cfg, start, timeline, k);
    LateVerdictInTime(cfg, start, peers, cut, timeline, first);
    assert FirstRebootAt(cfg, start, timeline, first, End(cfg, start, timeline, first));
  }

  /** So a duration that meets the deadline in the stricter sense meets it up to one batch in this sense. */
  lemma LateByABatch(cfg: Config, start: Monitor, peers: nat, cut: int, timeline: seq<Timed>, watchdogTimeout: int, duration: int)
    requires Sane(cfg, peers) && DeadlineMet(cfg, peers, watchdogTimeout, duration)
    requires GoesOnLate(cfg, start, peers, cut, timeline, cut + duration - watchdogTimeout - REBOOT_BUFFER + BatchTime(cfg))
    ensures RebootsBy(cfg, start, timeline, cut + duration - watchdogTimeout - REBOOT_BUFFER + BatchTime(cfg))
  {
    hide FirstRebootAt, GoesOnLate, WorstVerdict, LateWorst, DeadlineMet, BatchTime;
    DeadlineExact(cfg, peers, watchdogTimeout, duration);
    LateByAtMostABatch(cfg, peers);
    var latest := cut + duration - watchdogTimeout - REBOOT_BUFFER + BatchTime(cfg);
    LateWorkerDecides(cfg, start, peers, cut, timeline, latest);
  }

  // The worst time is no overestimate.

  // First: one peer says Healthy, and the errors are counted from zero.

  /** The check that the cut interrupts: its first batch is sent at that moment, one peer in it gives `answer`, and the
      batches after it take `tail` together. */
  function Interrupted(cfg: Config, peers: nat, cut: int, answer: int, tail: int): (t: Timed)
    requires peers > 0
    ensures t.check.workers.Valid() && |t.check.workers.replies| == peers && t.readyzEnd == cut && !t.check.readyz
  {
    Timed(cut,
          Check(false,
                PeerRound([answer] + seq(peers - 1, _ => REQUEST_FAILED),
                          seq(NrOfBatches(peers), b => cut + BatchTime(cfg) + Min(tail, b * BatchTime(cfg))),
                          cut + BatchTime(cfg) + tail),
                CpDial([], None), false, CpDial([], None), false))
  }

  lemma InterruptedShape(cfg: Config, peers: nat, cut: int, answer: int, tail: int)
    requires Sane(cfg, peers) && 0 <= tail <= Tail(cfg, peers)
    ensures LateCheckShape(cfg, peers, cut, Interrupted(cfg, peers, cut, answer, tail))
  {
    hide NrOfBatches, Batch, BatchTime;
    var round := Interrupted(cfg, peers, cut, answer, tail).check.workers;
    SomebodyToAsk(peers);
    BatchTimePositive(cfg, peers);
    forall b | 0 <= b < |round.times|
      ensures Previous(cut, round.times, b) <= round.times[b] <= Previous(cut, round.times, b) + BatchTime(cfg)
    {
      if b > 0 { assert b * BatchTime(cfg) == (b - 1) * BatchTime(cfg) + BatchTime(cfg); }
    }
    forall b | 0 <= b < |round.times| && Previous(cut, round.times, b) > cut ensures !Answered(Batch(round.replies, b)) {
      LaterBatches(round.replies, b);
    }
  }

  lemma LaterBatches(replies: seq<int>, b: nat)
    requires 0 < b < NrOfBatches(|replies|)
    requires forall i :: 0 < i < |replies| ==> replies[i] == REQUEST_FAILED
    ensures !Answered(Batch(replies, b))
  {
    hide NrOfBatches, LaterBatch, CeilDiv;
    RoundsNeeded(|replies|, 0);
    RoundsNeeded(|replies|, b);
    NextRound(|replies|, b);
    SomeAsked(|replies|, b);
    assert forall i :: 0 <= i < |Batch(replies, b)| ==> Batch(replies, b)[i] == REQUEST_FAILED;
  }

  lemma SomeAsked(total: nat, b: nat)
    requires 0 < b < NrOfBatches(total)
    ensures Asked(total, b) >= 1
  {
    hide NrOfBatches, LaterBatch, CeilDiv;
    RoundsNeeded(total, b - 1);
    NextRound(total, b - 1);
  }

  lemma FirstIsAsked(replies: seq<int>)
    requires 0 < NrOfBatches(|replies|) && replies != []
    ensures replies[0] in Batch(replies, 0)
  {
    hide NrOfBatches, LaterBatch, CeilDiv;
    RoundsNeeded(|replies|, 0);
    NextRound(|replies|, 0);
    assert Asked(|replies|, 0) == 0;
    assert Batch(replies, 0)[0] == replies[0];
  }

  /** A Healthy answer clears the count and is noted one batch after the cut. */
  lemma HealthyRuns(cfg: Config, peers: nat, cut: int)
    requires Sane(cfg, peers)
    ensures var t, m := Interrupted(cfg, peers, cut, HEALTHY, 0), Monitor(cfg.maxErrorsThreshold - 1, cut);
            && CheckEnd(cfg, m, t) == cut + BatchTime(cfg)
            && RunCheck(cfg, false, m, t.check) == (Monitor(0, cut + BatchTime(cfg)), false)
  {
    hide NrOfBatches, LaterBatch, CeilDiv, Asked;
    var t, m := Interrupted(cfg, peers, cut, HEALTHY, 0), Monitor(cfg.maxErrorsThreshold - 1, cut);
    var round := t.check.workers;
    SomebodyToAsk(peers);
    BatchTimePositive(cfg, peers);
    assert HEALTHY in Batch(round.replies, 0) by { FirstIsAsked(round.replies); }
    assert Decisive(round.replies, 0);
    assert FirstDecisive(round.replies, 0) == 0;
    assert LastAnswer(round, 1, cut) == round.times[0];
    Settled(cfg, m, round, 0);
  }

  /** A first check and the rest of a timeline. */
  lemma {:induction false} MemoryOfRest(cfg: Config, start: Monitor, timeline: seq<Timed>, j: nat, k: nat)
    requires ValidRun(Checks(timeline)) && j + k <= |timeline|
    ensures ValidRun(Checks(timeline[j..]))
    ensures MemoryAt(cfg, false, MemoryAt(cfg, false, start, Checks(timeline), j), Checks(timeline[j..]), k)
         == MemoryAt(cfg, false, start, Checks(timeline), j + k)
  {
    hide RunCheck;
    if k > 0 { MemoryOfRest(cfg, start, timeline, j, k - 1); }
  }

  lemma RestIsSame(cfg: Config, start: Monitor, timeline: seq<Timed>, j: nat, k: nat)
    requires ValidRun(Checks(timeline)) && j + k < |timeline|
    ensures ValidRun(Checks(timeline[j..]))
    ensures var start' := MemoryAt(cfg, false, start, Checks(timeline), j);
            && End(cfg, start', timeline[j..], k) == End(cfg, start, timeline, j + k)
            && Reboots(cfg, false, start', Checks(timeline[j..]), k) == Reboots(cfg, false, start, Checks(timeline), j + k)
  {
    hide RunCheck, CheckEnd;
    MemoryOfRest(cfg, start, timeline, j, k);
  }

  /** The first check starts from the start. */
  lemma FirstOfAll(cfg: Config, start: Monitor, timeline: seq<Timed>)
    requires timeline != [] && ValidRun(Checks(timeline))
    ensures MemoryAt(cfg, false, start, Checks(timeline), 1) == RunCheck(cfg, false, start, timeline[0].check).0
    ensures Reboots(cfg, false, start, Checks(timeline), 0) == RunCheck(cfg, false, start, timeline[0].check).1
    ensures End(cfg, start, timeline, 0) == CheckEnd(cfg, start, timeline[0])
  {
    hide RunCheck, CheckEnd;
    assert MemoryAt(cfg, false, start, Checks(timeline), 0) == start;
  }

  /** The times of a first check and of the rest fit together. */
  lemma FollowsTogether(cfg: Config, start: Monitor, start': Monitor, cut: int, cut': int, timeline: seq<Timed>, j: nat)
    requires j < |timeline| && 1 < |timeline| && ValidRun(Checks(timeline)) && ValidRun(Checks(timeline[1..]))
    requires cfg.checkInterval >= 0 && cfg.apiServerTimeout >= 0 && cut <= cut'
    requires timeline[0].readyzEnd == cut && End(cfg, start, timeline, 0) == cut' && timeline[1].readyzEnd == cut' + CheckTime(cfg)
    requires MemoryAt(cfg, false, start, Checks(timeline), 1) == start'
    requires j > 1 ==> Follows(cfg, start', cut', timeline[1..], j - 1)
    ensures Follows(cfg, start, cut, timeline, j)
  {
    hide End, MemoryAt;
    if j > 1 { RestIsSame(cfg, start, timeline, 1, j - 2); }
  }

  lemma ValidTogether(first: Timed, rest: seq<Timed>)
    requires first.check.workers.Valid() && ValidRun(Checks(rest))
    ensures ValidRun(Checks([first] + rest))
  {
    var all := [first] + rest;
    forall i | 0 <= i < |all| ensures Checks(all)[i].workers.Valid() {
      if i > 0 { assert all[i] == rest[i - 1] && Checks(rest)[i - 1] == rest[i - 1].check; }
    }
  }

  lemma SlowIsSilent(cfg: Config, peers: nat, cut: int, t: Timed)
    requires CutOffCheckShape(cfg, peers, cut + BatchTime(cfg), t) && t.readyzEnd > cut + BatchTime(cfg)
    ensures LateCheckShape(cfg, peers, cut, t)
  {
    hide Batch, Answered, NrOfBatches, BatchTime;
    var round := t.check.workers;
    forall b | 0 <= b < |round.times| ensures round.times[b] > cut + BatchTime(cfg) { BatchTimes(cfg, t.readyzEnd, round, b); }
  }

  lemma HealthyTimeline(cfg: Config, peers: nat, cut: int, rest: seq<Timed>, i: nat, end: int)
    requires Sane(cfg, peers)
    requires DecidesAt(cfg, Monitor(0, cut + BatchTime(cfg)), peers, cut + BatchTime(cfg), rest, i, end)
    requires rest[0].readyzEnd == cut + BatchTime(cfg) + CheckTime(cfg)
    requires forall j :: 0 <= j < |rest| ==> rest[j].readyzEnd > cut + BatchTime(cfg)
    ensures var start, timeline := Monitor(cfg.maxErrorsThreshold - 1, cut), [Interrupted(cfg, peers, cut, HEALTHY, 0)] + rest;
            CutOffLate(cfg, start, peers, cut, timeline) && FirstRebootAt(cfg, start, timeline, i + 1, end)
  {
    hide BatchTime, RunCheck, CheckEnd, Interrupted, LateCheckShape, CutOffCheckShape, Follows, End, Reboots, Tail;
    var start, first := Monitor(cfg.maxErrorsThreshold - 1, cut), Interrupted(cfg, peers, cut, HEALTHY, 0);
    var timeline, start' := [first] + rest, Monitor(0, cut + BatchTime(cfg));
    assert timeline[1..] == rest;
    ValidTogether(first, rest);
    TailNonNegative(cfg, peers);
    InterruptedShape(cfg, peers, cut, HEALTHY, 0);
    HealthyRuns(cfg, peers, cut);
    FirstOfAll(cfg, start, timeline);
    BatchTimePositive(cfg, peers);
    forall j | 0 <= j < |timeline| ensures LateCheckShape(cfg, peers, cut, timeline[j]) && Follows(cfg, start, cut, timeline, j) {
      if j > 0 {
        assert CutOffCheckShape(cfg, peers, cut + BatchTime(cfg), rest[j - 1]) && Follows(cfg, start', cut + BatchTime(cfg), rest, j - 1);
        SlowIsSilent(cfg, peers, cut, rest[j - 1]);
      }
      FollowsTogether(cfg, start, start', cut, cut + BatchTime(cfg), timeline, j);
    }
    forall j | 0 <= j < i + 1 ensures !Reboots(cfg, false, start, Checks(timeline), j) {
      if j > 0 { RestIsSame(cfg, start, timeline, 1, j - 1); }
    }
    RestIsSame(cfg, start, timeline, 1, i);
  }

  // Second: one peer cannot reach the API server either, and check after check ends within the window.

  /** How much of the `slack` the first `b` batches use up. */
  function Spread(slack: int, b: int, step: int): int {
    Min(slack, b * step)
  }

  lemma SpreadGrows(slack: int, b: int, step: int)
    requires slack >= 0 && step >= 0
    ensures Spread(slack, 0, step) == 0
    ensures Spread(slack, b, step) <= Spread(slack, b + 1, step) <= Spread(slack, b, step) + step
  {
    assert (b + 1) * step == b * step + step;
  }

  /** A check without answers that ends `gap` after the previous one, which ended at `from`. */
  function Paced(cfg: Config, peers: nat, from: int, gap: int): (t: Timed)
    ensures t.check.workers.Valid() && |t.check.workers.replies| == peers && !t.check.readyz
    ensures t.readyzEnd == from + Min(gap, CheckTime(cfg)) && t.check.workers.finish == from + gap
  {
    var readyzEnd := from + Min(gap, CheckTime(cfg));
    Timed(readyzEnd,
          Check(false,
                PeerRound(seq(peers, _ => REQUEST_FAILED),
                          seq(NrOfBatches(peers), b => readyzEnd + Spread(from + gap - readyzEnd, b + 1, BatchTime(cfg))),
                          from + gap),
                CpDial([], None), false, CpDial([], None), false))
  }

  lemma PacedInTime(cfg: Config, peers: nat, from: int, gap: int)
    requires Sane(cfg, peers) && 0 <= gap <= Pace(cfg, peers)
    ensures RoundInTime(cfg, Paced(cfg, peers, from, gap).readyzEnd, Paced(cfg, peers, from, gap).check.workers)
  {
    hide NrOfBatches, BatchTime, CheckTime, Spread, RoundTime;
    var t := Paced(cfg, peers, from, gap);
    var round, slack, step := t.check.workers, from + gap - t.readyzEnd, BatchTime(cfg);
    SomebodyToAsk(peers);
    BatchTimePositive(cfg, peers);
    CheckTimePositive(cfg, peers);
    RoundTimeNonNegative(cfg, peers);
    forall b | 0 <= b < |round.times|
      ensures Previous(t.readyzEnd, round.times, b) <= round.times[b] <= Previous(t.readyzEnd, round.times, b) + step
    {
      SpreadGrows(slack, b, step);
    }
    assert Spread(slack, NrOfBatches(peers), step) == slack by { SpreadAll(cfg, peers, slack); }
  }

  lemma SpreadAll(cfg: Config, peers: nat, slack: int)
    requires 0 <= slack <= RoundTime(cfg, peers)
    ensures Spread(slack, NrOfBatches(peers), BatchTime(cfg)) == slack
  {
    hide NrOfBatches, BatchTime;
  }

  lemma PacedIsSilent(cfg: Config, peers: nat, from: int, gap: int)
    ensures Unanswered(Paced(cfg, peers, from, gap).check.workers)
  {
    hide NrOfBatches, Batch, BatchTime, CheckTime;
    var round := Paced(cfg, peers, from, gap).check.workers;
    assert forall code :: code in round.replies ==> code == REQUEST_FAILED;
    forall b | 0 <= b < |round.times| ensures !Answered(Batch(round.replies, b)) { BatchMembers(round.replies, b); }
  }

  lemma PacedShape(cfg: Config, peers: nat, cut: int, from: int, gap: int)
    requires Sane(cfg, peers) && 0 <= gap <= Pace(cfg, peers)
    ensures LateCheckShape(cfg, peers, cut, Paced(cfg, peers, from, gap)) && Unanswered(Paced(cfg, peers, from, gap).check.workers)
  {
    hide NrOfBatches, Batch, BatchTime, CheckTime, RoundInTime, Paced, Answered;
    PacedInTime(cfg, peers, from, gap);
    PacedIsSilent(cfg, peers, from, gap);
  }

  /** An ApiError answer is noted, and leaves the agent undecided if the rest of the round ends within the window. */
  lemma {:induction false} OnlyFirstAnswered(round: PeerRound, k: nat, before: int)
    requires round.Valid() && 0 < k <= NrOfBatches(|round.replies|) && Answered(Batch(round.replies, 0))
    requires forall b :: 0 < b < k ==> !Answered(Batch(round.replies, b))
    ensures LastAnswer(round, k, before) == round.times[0]
  {
    hide NrOfBatches, Batch;
    if k > 1 { OnlyFirstAnswered(round, k - 1, before); }
  }

  lemma OneApiError(replies: seq<int>)
    requires replies != [] && replies[0] == API_ERROR && forall i :: 0 < i < |replies| ==> replies[i] == REQUEST_FAILED
    ensures HEALTHY !in replies && UNHEALTHY !in replies && Count(replies, API_ERROR) == 1
  {
    assert replies == [API_ERROR] + replies[1..];
    assert multiset(replies) == multiset{API_ERROR} + multiset(replies[1..]);
    assert API_ERROR !in multiset(replies[1..]);
  }

  /** With more than one peer a single ApiError settles nothing. */
  lemma NeverDecisive(replies: seq<int>, k: nat)
    requires k < NrOfBatches(|replies|) && |replies| > 1
    requires replies[0] == API_ERROR && forall i :: 0 < i < |replies| ==> replies[i] == REQUEST_FAILED
    ensures !Decisive(replies, k)
  {
    hide NrOfBatches, LaterBatch, CeilDiv, Batch, Count;
    OneApiError(replies);
    BatchMembers(replies, k);
    RoundsNeeded(|replies|, k);
    NextRound(|replies|, k);
    PrefixCount(replies, Asked(|replies|, k + 1));
  }

  lemma PrefixCount(replies: seq<int>, n: nat)
    requires n <= |replies|
    ensures Count(replies[..n], API_ERROR) <= Count(replies, API_ERROR)
  {
    assert replies == replies[..n] + replies[n..];
  }

  lemma ApiErrorRuns(cfg: Config, peers: nat, cut: int, tail: int)
    requires Sane(cfg, peers) && 0 <= tail <= Tail(cfg, peers) && tail <= cfg.maxTimeForNoPeersResponse
    ensures var t, m := Interrupted(cfg, peers, cut, API_ERROR, tail), Monitor(cfg.maxErrorsThreshold - 1, cut);
            && CheckEnd(cfg, m, t) == cut + BatchTime(cfg) + tail
            && RunCheck(cfg, false, m, t.check) == (Monitor(cfg.maxErrorsThreshold, cut + BatchTime(cfg)), false)
  {
    hide NrOfBatches, LaterBatch, CeilDiv, Asked, Batch, AskWorkers, RoundsAsked, BatchTime;
    var t, m := Interrupted(cfg, peers, cut, API_ERROR, tail), Monitor(cfg.maxErrorsThreshold - 1, cut);
    var round, n := t.check.workers, NrOfBatches(peers);
    SomebodyToAsk(peers);
    BatchTimePositive(cfg, peers);
    FirstIsAsked(round.replies);
    assert Answered(Batch(round.replies, 0));
    forall b | 0 < b < n ensures !Answered(Batch(round.replies, b)) { LaterBatches(round.replies, b); }
    if peers == 1 {
      OneBatch();
      assert Decisive(round.replies, 0) by { LonePeer(round.replies); }
      OnlyFirstAnswered(round, 1, cut);
      NobodySure(round.replies);
      Settled(cfg, m, round, 0);
    } else {
      forall k | 0 <= k < n ensures !Decisive(round.replies, k) { NeverDecisive(round.replies, k); }
      OnlyFirstAnswered(round, n, cut);
      Settled(cfg, m, round, n);
    }
  }

  lemma OneBatch()
    ensures NrOfBatches(1) == 1
  {
  }

  lemma LonePeer(replies: seq<int>)
    requires replies == [API_ERROR] && NrOfBatches(1) == 1
    ensures Decisive(replies, 0)
  {
    hide NrOfBatches;
    AllAsked(replies);
    assert AskedReplies(replies, 1) == replies;
    OneApiError(replies);
  }

  lemma NobodySure(replies: seq<int>)
    requires NrOfBatches(|replies|) > 0 && replies != [] && replies[0] == API_ERROR && forall i :: 0 < i < |replies| ==> replies[i] == REQUEST_FAILED
    ensures HEALTHY !in Batch(replies, 0) && UNHEALTHY !in Batch(replies, 0)
  {
    hide NrOfBatches, Batch, Count;
    OneApiError(replies);
    BatchMembers(replies, 0);
  }

  /** Offsets of ends of checks from the noted answer: steps between one interval and the slowest pace. */
  ghost predicate Offsets(cfg: Config, peers: nat, ends: seq<int>) {
    && ends != [] && 0 <= ends[0] <= Tail(cfg, peers)
    && (forall i, j :: 0 <= i < j < |ends| && j == i + 1 ==> ends[i] + cfg.checkInterval <= ends[j] <= ends[i] + Pace(cfg, peers))
  }

  function PacedAt(cfg: Config, peers: nat, cut: int, ends: seq<int>, k: nat): (t: Timed)
    requires peers > 0 && k < |ends|
    ensures t.check.workers.Valid()
  {
    if k == 0 then Interrupted(cfg, peers, cut, API_ERROR, ends[0])
    else Paced(cfg, peers, cut + BatchTime(cfg) + ends[k - 1], ends[k] - ends[k - 1])
  }

  ghost function PacedTimeline(cfg: Config, peers: nat, cut: int, ends: seq<int>): (timeline: seq<Timed>)
    requires peers > 0
    ensures |timeline| == |ends| && ValidRun(Checks(timeline))
    ensures forall k :: 0 <= k < |ends| ==> timeline[k] == PacedAt(cfg, peers, cut, ends, k)
  {
    seq(|ends|, k requires 0 <= k < |ends| => PacedAt(cfg, peers, cut, ends, k))
  }

  lemma PacedGap(cfg: Config, peers: nat, ends: seq<int>, k: nat)
    requires Sane(cfg, peers) && Offsets(cfg, peers, ends) && 0 < k < |ends|
    ensures cfg.checkInterval <= ends[k] - ends[k - 1] <= Pace(cfg, peers)
  {
    hide Pace, Tail;
    assert ends[k - 1] + cfg.checkInterval <= ends[k] <= ends[k - 1] + Pace(cfg, peers);
  }

  lemma {:induction false} PacedMemory(cfg: Config, peers: nat, cut: int, ends: seq<int>, k: nat)
    requires Sane(cfg, peers) && Offsets(cfg, peers, ends) && ends[0] <= cfg.maxTimeForNoPeersResponse && 0 < k <= |ends|
    ensures MemoryAt(cfg, false, Monitor(cfg.maxErrorsThreshold - 1, cut), Checks(PacedTimeline(cfg, peers, cut, ends)), k)
         == Monitor(cfg.maxErrorsThreshold - 1 + k, cut + BatchTime(cfg))
  {
    hide RunCheck, CheckEnd, BatchTime, Pace, Tail, Interrupted, Paced, LateCheckShape, Unanswered;
    var start, timeline := Monitor(cfg.maxErrorsThreshold - 1, cut), PacedTimeline(cfg, peers, cut, ends);
    if k == 1 {
      FirstOfAll(cfg, start, timeline);
      ApiErrorRuns(cfg, peers, cut, ends[0]);
    } else {
      PacedMemory(cfg, peers, cut, ends, k - 1);
      PacedGap(cfg, peers, ends, k - 1);
      var m := Monitor(cfg.maxErrorsThreshold - 1 + k - 1, cut + BatchTime(cfg));
      PacedShape(cfg, peers, cut, cut + BatchTime(cfg) + ends[k - 2], ends[k - 1] - ends[k - 2]);
      SilentCheckRuns(cfg, peers, m, timeline[k - 1]);
    }
  }

  /** Check `k` ends at its offset, and calls Reboot exactly if that is outside the window. */
  lemma PacedEnds(cfg: Config, peers: nat, cut: int, ends: seq<int>, k: nat)
    requires Sane(cfg, peers) && Offsets(cfg, peers, ends) && ends[0] <= cfg.maxTimeForNoPeersResponse && k < |ends|
    ensures var start, timeline := Monitor(cfg.maxErrorsThreshold - 1, cut), PacedTimeline(cfg, peers, cut, ends);
            && End(cfg, start, timeline, k) == cut + BatchTime(cfg) + ends[k]
            && (Reboots(cfg, false, start, Checks(timeline), k) <==> ends[k] > cfg.maxTimeForNoPeersResponse)
  {
    hide RunCheck, CheckEnd, BatchTime, Pace, Tail, Interrupted, Paced, LateCheckShape, Unanswered, MemoryAt;
    var start, timeline := Monitor(cfg.maxErrorsThreshold - 1, cut), PacedTimeline(cfg, peers, cut, ends);
    if k == 0 {
      FirstOfAll(cfg, start, timeline);
      ApiErrorRuns(cfg, peers, cut, ends[0]);
    } else {
      PacedMemory(cfg, peers, cut, ends, k);
      PacedGap(cfg, peers, ends, k);
      PacedShape(cfg, peers, cut, cut + BatchTime(cfg) + ends[k - 1], ends[k] - ends[k - 1]);
      SilentCheckRuns(cfg, peers, Monitor(cfg.maxErrorsThreshold - 1 + k, cut + BatchTime(cfg)), timeline[k]);
    }
  }

  lemma PacedIsCutOff(cfg: Config, peers: nat, cut: int, ends: seq<int>)
    requires Sane(cfg, peers) && Offsets(cfg, peers, ends) && ends[0] <= cfg.maxTimeForNoPeersResponse
    ensures CutOffLate(cfg, Monitor(cfg.maxErrorsThreshold - 1, cut), peers, cut, PacedTimeline(cfg, peers, cut, ends))
  {
    hide RunCheck, CheckEnd, BatchTime, Pace, Tail, Interrupted, Paced, LateCheckShape, Unanswered, MemoryAt, End;
    var start, timeline := Monitor(cfg.maxErrorsThreshold - 1, cut), PacedTimeline(cfg, peers, cut, ends);
    BatchTimePositive(cfg, peers);
    CheckTimePositive(cfg, peers);
    forall k | 0 <= k < |timeline| ensures LateCheckShape(cfg, peers, cut, timeline[k]) && Follows(cfg, start, cut, timeline, k) {
      if k == 0 {
        InterruptedShape(cfg, peers, cut, API_ERROR, ends[0]);
        PacedEnds(cfg, peers, cut, ends, 0);
      } else {
        PacedGap(cfg, peers, ends, k);
        PacedShape(cfg, peers, cut, cut + BatchTime(cfg) + ends[k - 1], ends[k] - ends[k - 1]);
        PacedEnds(cfg, peers, cut, ends, k - 1);
      }
    }
  }

  /** The timeline decides with its first offset outside the window. */
  lemma PacedDecides(cfg: Config, peers: nat, cut: int, ends: seq<int>)
    requires Sane(cfg, peers) && Offsets(cfg, peers, ends) && |ends| > 1
    requires forall k :: 0 <= k < |ends| - 1 ==> ends[k] <= cfg.maxTimeForNoPeersResponse
    requires ends[|ends| - 1] > cfg.maxTimeForNoPeersResponse
    ensures FirstRebootAt(cfg, Monitor(cfg.maxErrorsThreshold - 1, cut), PacedTimeline(cfg, peers, cut, ends), |ends| - 1,
                          cut + BatchTime(cfg) + ends[|ends| - 1])
  {
    hide End, Reboots, BatchTime, Pace, Tail;
    var start, timeline := Monitor(cfg.maxErrorsThreshold - 1, cut), PacedTimeline(cfg, peers, cut, ends);
    forall k | 0 <= k < |ends| - 1 ensures !Reboots(cfg, false, start, Checks(timeline), k) { PacedEnds(cfg, peers, cut, ends, k); }
    PacedEnds(cfg, peers, cut, ends, |ends| - 1);
  }

  function OffsetAt(tail: int, pace: int, interval: int, stretch: int, n: int, k: int): int {
    if k == n + 1 then stretch + pace else Min(tail + k * pace, stretch - (n - k) * interval)
  }

  lemma OffsetStep(tail: int, pace: int, interval: int, stretch: int, n: int, k: int)
    requires pace >= interval > 0 && 0 <= k <= n && stretch <= tail + n * pace
    ensures var here, next := OffsetAt(tail, pace, interval, stretch, n, k), OffsetAt(tail, pace, interval, stretch, n, k + 1);
            here + interval <= next <= here + pace && here <= stretch
  {
    assert (k + 1) * pace == k * pace + pace;
    assert (n - k) * interval == (n - (k + 1)) * interval + interval;
    MulLeq(0, n - k, interval);
  }

  /** Offsets that reach the stretch in as many checks as fit into the window, as slowly as needed. */
  lemma StretchOffsets(tail: int, pace: int, interval: int, window: int) returns (ends: seq<int>)
    requires tail >= 0 && pace >= interval > 0 && window >= 0
    ensures var stretch := Min(window, tail + (window / interval) * pace);
            && |ends| > 1 && 0 <= ends[0] <= tail
            && (forall i, j :: 0 <= i < j < |ends| && j == i + 1 ==> ends[i] + interval <= ends[j] <= ends[i] + pace)
            && (forall k :: 0 <= k < |ends| - 1 ==> ends[k] <= window)
            && ends[|ends| - 1] == stretch + pace > window
  {
    var n := window / interval;
    QuotientNonNegative(window, interval);
    WindowFits(window, interval, pace);
    var stretch := Min(window, tail + n * pace);
    ends := seq(n + 2, k => OffsetAt(tail, pace, interval, stretch, n, k));
    assert ends[0] == Min(tail, stretch - n * interval);
    forall i, j | 0 <= i < j < |ends| && j == i + 1 ensures ends[i] + interval <= ends[j] <= ends[i] + pace {
      OffsetStep(tail, pace, interval, stretch, n, i);
    }
    forall k | 0 <= k < |ends| - 1 ensures ends[k] <= window { OffsetStep(tail, pace, interval, stretch, n, k); }
  }

  /** As many intervals as fit do fit, and one more slow check does not. */
  lemma WindowFits(window: int, interval: int, pace: int)
    requires pace >= interval > 0 && window >= 0
    ensures var n := window / interval; n * interval <= window < n * pace + pace && n * interval <= n * pace
  {
    var n := window / interval;
    QuotientNonNegative(window, interval);
    assert window == n * interval + window % interval;
    MulMonotone(n, interval, pace);
  }

  lemma MulMonotone(n: int, a: int, b: int)
    requires n >= 0 && a <= b
    ensures n * a <= n * b
  {
    MulLeq(a, b, n);
    assert a * n == n * a && b * n == n * b;
  }

  /** The worst time is attained, for every configuration and every moment of the cut. */
  lemma LateWorstAttained(cfg: Config, peers: nat, cut: int) returns (start: Monitor, timeline: seq<Timed>, k: nat)
    requires Sane(cfg, peers)
    ensures CutOffLate(cfg, start, peers, cut, timeline)
    ensures FirstRebootAt(cfg, start, timeline, k, cut + LateWorst(cfg, peers))
  {
    hide DecidesAt, BatchTime, FirstRebootAt, CutOffLate, RoundTime, CheckTime, Stretch;
    var window, counting := cfg.maxTimeForNoPeersResponse, (cfg.maxErrorsThreshold - 1) * CheckTime(cfg);
    if LateUndecided(cfg, peers) == window {
      BatchTimePositive(cfg, peers);
      start, timeline, k := WorstVerdictAttained(cfg, peers, cut);
      DecidedIsLate(cfg, start, peers, cut, timeline, k, cut + WorstVerdict(cfg, peers));
    } else if LateUndecided(cfg, peers) == BatchTime(cfg) + counting {
      start, timeline, k := HealthyAttained(cfg, peers, cut);
    } else {
      start, timeline, k := StretchAttained(cfg, peers, cut);
    }
  }

  lemma HealthyAttained(cfg: Config, peers: nat, cut: int) returns (start: Monitor, timeline: seq<Timed>, k: nat)
    requires Sane(cfg, peers)
    requires cfg.maxTimeForNoPeersResponse <= BatchTime(cfg) + (cfg.maxErrorsThreshold - 1) * CheckTime(cfg)
    ensures CutOffLate(cfg, start, peers, cut, timeline)
    ensures FirstRebootAt(cfg, start, timeline, k, cut + BatchTime(cfg) + DetectionTime(cfg, peers))
  {
    hide DecidesAt, BatchTime, FirstRebootAt, CutOffLate, RoundTime, CheckTime, Interrupted;
    RoundIsABatch(cfg, peers);
    CheckTimePositive(cfg, peers);
    var start', rest, i := SlowDetection(cfg, peers, cut + BatchTime(cfg));
    start, timeline, k := Monitor(cfg.maxErrorsThreshold - 1, cut), [Interrupted(cfg, peers, cut, HEALTHY, 0)] + rest, i + 1;
    HealthyTimeline(cfg, peers, cut, rest, i, cut + BatchTime(cfg) + DetectionTime(cfg, peers));
  }

  lemma StretchAttained(cfg: Config, peers: nat, cut: int) returns (start: Monitor, timeline: seq<Timed>, k: nat)
    requires Sane(cfg, peers)
    ensures CutOffLate(cfg, start, peers, cut, timeline)
    ensures FirstRebootAt(cfg, start, timeline, k, cut + BatchTime(cfg) + Stretch(cfg, peers) + Pace(cfg, peers))
  {
    hide BatchTime, FirstRebootAt, CutOffLate, RoundTime, Tail, CheckTime;
    RoundTimeNonNegative(cfg, peers);
    TailNonNegative(cfg, peers);
    CheckTimePositive(cfg, peers);
    var ends := StretchOffsets(Tail(cfg, peers), Pace(cfg, peers), cfg.checkInterval, cfg.maxTimeForNoPeersResponse);
    start, timeline, k := Monitor(cfg.maxErrorsThreshold - 1, cut), PacedTimeline(cfg, peers, cut, ends), |ends| - 1;
    PacedIsCutOff(cfg, peers, cut, ends);
    PacedDecides(cfg, peers, cut, ends);
  }

  lemma DecidedIsLate(cfg: Config, start: Monitor, peers: nat, cut: int, timeline: seq<Timed>, k: nat, end: int)
    requires DecidesAt(cfg, start, peers, cut, timeline, k, end)
    ensures CutOffLate(cfg, start, peers, cut, timeline) && FirstRebootAt(cfg, start, timeline, k, end)
  {
    hide CutOffLate, End, Reboots;
    CutOffIsLate(cfg, start, peers, cut, timeline);
  }

  lemma RoundIsABatch(cfg: Config, peers: nat)
    requires Sane(cfg, peers)
    ensures RoundTime(cfg, peers) >= BatchTime(cfg)
  {
    hide NrOfBatches;
    SomebodyToAsk(peers);
    MulLeq(1, NrOfBatches(peers), BatchTime(cfg));
  }

  // The deadline.

  ghost predicate LateDeadlineMet(cfg: Config, peers: nat, watchdogTimeout: int, duration: int) {
    forall start: Monitor, cut: int, timeline: seq<Timed>, latest: int ::
      GoesOnLate(cfg, start, peers, cut, timeline, latest) && latest == cut + duration - watchdogTimeout - REBOOT_BUFFER ==>
        RebootsBy(cfg, start, timeline, latest)
  }

  /** The exact condition, for any duration. */
  lemma LateDeadlineExact(cfg: Config, peers: nat, watchdogTimeout: int, duration: int)
    requires Sane(cfg, peers)
    ensures LateDeadlineMet(cfg, peers, watchdogTimeout, duration) <==>
            LateWorst(cfg, peers) + watchdogTimeout + REBOOT_BUFFER <= duration
  {
    hide LateWorst, GoesOnLate, FirstRebootAt;
    var allowed, worst := duration - watchdogTimeout - REBOOT_BUFFER, LateWorst(cfg, peers);
    if worst <= allowed {
      forall start: Monitor, cut: int, timeline: seq<Timed>, latest: int |
        GoesOnLate(cfg, start, peers, cut, timeline, latest) && latest == cut + allowed
        ensures RebootsBy(cfg, start, timeline, latest)
      {
        LateWorkerDecides(cfg, start, peers, cut, timeline, latest);
      }
    } else {
      var start, timeline, k := LateWorstAttained(cfg, peers, 0);
      DecidedGoesOnLate(cfg, start, peers, 0, timeline, k, worst, allowed);
      if RebootsBy(cfg, start, timeline, allowed) {
        var k': nat, end' :| FirstRebootAt(cfg, start, timeline, k', end') && end' <= allowed;
        OneFirstReboot(cfg, start, timeline, k, worst, k', end');
      }
    }
  }

  lemma DecidedGoesOnLate(cfg: Config, start: Monitor, peers: nat, cut: int, timeline: seq<Timed>, k: nat, end: int, until: int)
    requires CutOffLate(cfg, start, peers, cut, timeline) && FirstRebootAt(cfg, start, timeline, k, end)
    ensures GoesOnLate(cfg, start, peers, cut, timeline, until)
  {
    hide CutOffLate, End, Reboots;
  }

  lemma OneFirstReboot(cfg: Config, start: Monitor, timeline: seq<Timed>, k: nat, end: int, k': nat, end': int)
    requires FirstRebootAt(cfg, start, timeline, k, end) && FirstRebootAt(cfg, start, timeline, k', end')
    ensures k == k' && end == end'
  {
    hide End, Reboots;
  }

  /** With default settings and 42 workers the calculated minimum meets the deadline in the stricter sense, with nothing to
      spare, and therefore not for late answers, which cost up to 12 of the 30 seconds. */
  lemma LateDeadlineMissed(minPeers: int, watchdogTimeout: int)
    requires minPeers <= 41
    ensures var cfg, minimum := AgentConfig(DEFAULT_SPEC, minPeers), MinimumRebootDuration(DEFAULT_SPEC, 42, watchdogTimeout);
            && LateWorst(cfg, 41) == WorstVerdict(cfg, 41) + 12 * SECOND
            && DeadlineMet(cfg, 41, watchdogTimeout, minimum)
            && !LateDeadlineMet(cfg, 41, watchdogTimeout, minimum)
  {
    hide DeadlineMet, LateDeadlineMet, NrOfBatches;
    var cfg, minimum := AgentConfig(DEFAULT_SPEC, minPeers), MinimumRebootDuration(DEFAULT_SPEC, 42, watchdogTimeout);
    FourteenBatches();
    DeadlineExact(cfg, 41, watchdogTimeout, minimum);
    LateDeadlineExact(cfg, 41, watchdogTimeout, minimum);
  }

  lemma FourteenBatches()
    ensures NrOfBatches(41) == 14 && NrOfBatches(42) == 14
  {
  }
}

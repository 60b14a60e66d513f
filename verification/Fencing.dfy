/** The two sides together: no workload is moved before the node that ran it has been reset. */
module Fencing {
  import opened Common
  import opened PeerQuery
  import opened Calculator
  import opened FencingDeadline
  import opened LateAnswers
  import opened Taints
  import opened Store
  import opened NoOrphan
  import opened ManagerRuns
  import opened Eviction
  import Watchdog

  /** What a worker does that is cut off from the API server and from its peers: its check loop goes on until it calls
      Reboot, at the latest until the time `until`; the first verdict stops the feeding of its watchdog; and the
      annotations of its node are those its agent wrote about that watchdog. */
  ghost predicate CutOffWorker(cfg: Config, annotations: map<string, string>, peers: nat, cut: int, until: int,
                               start: Monitor, timeline: seq<Timed>, states: seq<Watchdog.State>, steps: seq<Watchdog.Step>, i: nat)
  {
    && StopsAtVerdict(cfg, start, peers, cut, timeline, states, steps, i)
    && GoesOn(cfg, start, peers, cut, timeline, until)
    && (exists before, software :: annotations == Annotated(before, true, software, states[i].timeout))
  }

  /** In every run of the manager, for every worker that was cut off by the time its deadline was computed, every timeline
      of its check loop and every run of its watchdog: when pods are deleted, or the out-of-service taint is added on
      record, the worker has called Reboot, and the hardware has reset the node more than 29 seconds ago. The one
      condition is that the calculated minimum suffices for the number of peers the worker asks, which is exactly when
      it can be relied on. */
  lemma WorkloadsMovedAfterReset(
      worlds: seq<World>, managerSteps: seq<ManagerRuns.Step>, m: nat, e: Effect, d: Deadline, minPeers: int,
      peers: nat, cut: int, start: Monitor, timeline: seq<Timed>, states: seq<Watchdog.State>, steps: seq<Watchdog.Step>, i: nat, j: nat)
    requires ManagerRuns.IsRun(worlds, managerSteps) && m < |worlds| && e in worlds[m].effects
    requires e.deadline == Some(d) && cut <= d.computedAt
    requires Sane(AgentConfig(d.basis.spec, minPeers), peers)
    requires CalculatorSuffices(d.basis.spec, AgentConfig(d.basis.spec, minPeers), d.basis.workers, peers)
    requires i < j < |states| && CutOffWorker(AgentConfig(d.basis.spec, minPeers), d.basis.annotations, peers, cut,
               cut + RebootDuration(d.basis) - states[i].timeout - REBOOT_BUFFER, start, timeline, states, steps, i)
    ensures DecidesBy(AgentConfig(d.basis.spec, minPeers), start, peers, cut, timeline,
                      cut + RebootDuration(d.basis) - states[i].timeout - REBOOT_BUFFER)
    ensures states[j].status == Watchdog.Triggered && states[j].hardware.Some?
    ensures states[j].hardware.value + 29 * SECOND < e.at
  {
    hide DecidesAt, Sane, GoesOn, CalculatorSuffices, ManagerRuns.IsRun, Watchdog.IsRun, MinimumRebootDuration, Annotated;
    WorkloadsAfterDeadline(worlds, managerSteps, m, e);
    var cfg, timeout := AgentConfig(d.basis.spec, minPeers), states[i].timeout;
    AnnotatedDeadline(d.basis, minPeers, peers, timeout);
    NodeResetBeforeDeadline(cfg, start, peers, cut, timeline, states, steps, i, j, RebootDuration(d.basis));
  }

  /** The worker was cut off by the time this deadline was computed, and the calculated minimum suffices for it. */
  ghost predicate CutOffFor(d: Deadline, minPeers: int, peers: nat, cut: int, start: Monitor, timeline: seq<Timed>,
                            states: seq<Watchdog.State>, steps: seq<Watchdog.Step>, i: nat)
    requires i < |states|
  {
    var cfg := AgentConfig(d.basis.spec, minPeers);
    && cut <= d.computedAt && Sane(cfg, peers) && CalculatorSuffices(d.basis.spec, cfg, d.basis.workers, peers)
    && CutOffWorker(cfg, d.basis.annotations, peers, cut, cut + RebootDuration(d.basis) - states[i].timeout - REBOOT_BUFFER,
                    start, timeline, states, steps, i)
  }

  /** The same of the taint itself, however it got on the node: if the node did not have it in state `k`, no cached node was
      written back since, and the worker was cut off for every deadline behind an addition since, then the node was
      reset more than 29 seconds ago. What happened before state `k`, earlier remediations of the node included, does
      not matter. */
  lemma NodeTaintedAfterReset(
      worlds: seq<World>, managerSteps: seq<ManagerRuns.Step>, k: nat, m: nat, node: string, minPeers: int,
      peers: nat, cut: int, start: Monitor, timeline: seq<Timed>, states: seq<Watchdog.State>, steps: seq<Watchdog.Step>, i: nat, j: nat)
    requires ManagerRuns.IsRun(worlds, managerSteps) && k <= m < |worlds|
    requires !Tainted(worlds[k], node, OUT_OF_SERVICE) && Tainted(worlds[m], node, OUT_OF_SERVICE)
    requires forall x :: k <= x < m ==> !StepWritesBack(worlds[x], managerSteps[x])
    requires i < j < |states|
    requires forall x: nat :: AdditionSince(worlds[k], worlds[m], node, x) && worlds[m].effects[x].deadline.Some? ==>
               CutOffFor(worlds[m].effects[x].deadline.value, minPeers, peers, cut, start, timeline, states, steps, i)
    ensures states[j].status == Watchdog.Triggered && states[j].hardware.Some?
    ensures states[j].hardware.value + 29 * SECOND < worlds[m].clock
  {
    hide Sane, CalculatorSuffices, ManagerRuns.IsRun, CutOffWorker, StepWritesBack, TaintExists, MinimumRebootDuration;
    var x := TaintAfterDeadline(worlds, managerSteps, k, m, node);
    var e := worlds[m].effects[x];
    assert CutOffFor(e.deadline.value, minPeers, peers, cut, start, timeline, states, steps, i);
    WorkloadsMovedAfterReset(worlds, managerSteps, m, e, e.deadline.value, minPeers, peers, cut, start, timeline, states, steps, i, j);
  }

  // Answers on their way.

  /** A worker that is cut off while answers may still be on their way. */
  ghost predicate LateWorker(cfg: Config, annotations: map<string, string>, peers: nat, cut: int, until: int,
                             start: Monitor, timeline: seq<Timed>, states: seq<Watchdog.State>, steps: seq<Watchdog.Step>, i: nat)
  {
    && Watchdog.IsRun(states, steps) && i < |steps|
    && states[i].status in {Watchdog.Armed, Watchdog.Triggered} && steps[i].Stop?
    && (forall k: nat, end: int :: FirstRebootAt(cfg, start, timeline, k, end) ==> steps[i].now == end)
    && GoesOnLate(cfg, start, peers, cut, timeline, until)
    && (exists before, software :: annotations == Annotated(before, true, software, states[i].timeout))
  }

  /** For such a worker the margin is smaller by the time of one batch. */
  lemma WorkloadsMovedAfterLateReset(
      worlds: seq<World>, managerSteps: seq<ManagerRuns.Step>, m: nat, e: Effect, d: Deadline, minPeers: int,
      peers: nat, cut: int, start: Monitor, timeline: seq<Timed>, states: seq<Watchdog.State>, steps: seq<Watchdog.Step>, i: nat, j: nat)
    requires ManagerRuns.IsRun(worlds, managerSteps) && m < |worlds| && e in worlds[m].effects
    requires e.deadline == Some(d) && cut <= d.computedAt
    requires Sane(AgentConfig(d.basis.spec, minPeers), peers)
    requires CalculatorSuffices(d.basis.spec, AgentConfig(d.basis.spec, minPeers), d.basis.workers, peers)
    requires i < j < |states| && LateWorker(AgentConfig(d.basis.spec, minPeers), d.basis.annotations, peers, cut,
               cut + RebootDuration(d.basis) - states[i].timeout - REBOOT_BUFFER + BatchTime(AgentConfig(d.basis.spec, minPeers)),
               start, timeline, states, steps, i)
    ensures states[j].status == Watchdog.Triggered && states[j].hardware.Some?
    ensures states[j].hardware.value + 29 * SECOND < e.at + BatchTime(AgentConfig(d.basis.spec, minPeers))
  {
    hide FirstRebootAt, Sane, GoesOnLate, CalculatorSuffices, ManagerRuns.IsRun, MinimumRebootDuration, Annotated, BatchTime, DeadlineMet;
    WorkloadsAfterDeadline(worlds, managerSteps, m, e);
    var cfg, timeout := AgentConfig(d.basis.spec, minPeers), states[i].timeout;
    AnnotatedDeadline(d.basis, minPeers, peers, timeout);
    LateByABatch(cfg, start, peers, cut, timeline, timeout, RebootDuration(d.basis));
    var latest := cut + RebootDuration(d.basis) - timeout - REBOOT_BUFFER + BatchTime(cfg);
    var k: nat, end :| FirstRebootAt(cfg, start, timeline, k, end) && end <= latest;
    Watchdog.RunIsSound(states, steps, i);
    assert states[i + 1] == Watchdog.Next(states[i], steps[i]);
    Watchdog.TriggerIsFinal(states, steps, i + 1, j);
  }

  /** With the annotations of the agent, the calculated duration meets the deadline for the real timeout. */
  lemma AnnotatedDeadline(basis: Basis, minPeers: int, peers: nat, timeout: int)
    requires Sane(AgentConfig(basis.spec, minPeers), peers)
    requires CalculatorSuffices(basis.spec, AgentConfig(basis.spec, minPeers), basis.workers, peers)
    requires exists before, software :: basis.annotations == Annotated(before, true, software, timeout)
    ensures DeadlineMet(AgentConfig(basis.spec, minPeers), peers, timeout, RebootDuration(basis))
  {
    hide Sane, CalculatorSuffices, MinimumRebootDuration, Annotated, DeadlineMet;
    var before, software :| basis.annotations == Annotated(before, true, software, timeout);
    var read := EffectiveWatchdogTimeout(basis.annotations);
    AnnotatedBasis(basis.spec, before, true, software, timeout, basis.workers);
    MinimumDurationExact(basis.spec, minPeers, basis.workers, peers, read);
    LongerIsSafe(AgentConfig(basis.spec, minPeers), peers, read, MinimumOf(basis), timeout, RebootDuration(basis));
  }

  /** Without a readable annotation the calculated duration meets the deadline for real timeouts of up to a minute. */
  lemma UnannotatedDeadline(basis: Basis, minPeers: int, peers: nat, timeout: int)
    requires Sane(AgentConfig(basis.spec, minPeers), peers)
    requires CalculatorSuffices(basis.spec, AgentConfig(basis.spec, minPeers), basis.workers, peers)
    requires TimeoutUnreadable(basis.annotations) && timeout <= 60 * SECOND
    ensures DeadlineMet(AgentConfig(basis.spec, minPeers), peers, timeout, RebootDuration(basis))
  {
    hide Sane, CalculatorSuffices, MinimumRebootDuration, DeadlineMet, Atoi;
    FallbackTimeout(basis.annotations);
    MinimumDurationExact(basis.spec, minPeers, basis.workers, peers, 60 * SECOND);
    LongerIsSafe(AgentConfig(basis.spec, minPeers), peers, 60 * SECOND, MinimumOf(basis), timeout, RebootDuration(basis));
  }

  /** A longer duration or a shorter watchdog timeout does no harm. */
  lemma LongerIsSafe(cfg: Config, peers: nat, watchdogTimeout: int, duration: int, shorter: int, longer: int)
    requires DeadlineMet(cfg, peers, watchdogTimeout, duration) && shorter <= watchdogTimeout && duration <= longer
    ensures DeadlineMet(cfg, peers, shorter, longer)
  {
    hide DecidesAt, GoesOn;
    var less := watchdogTimeout - shorter + longer - duration;
    forall start: Monitor, cut: int, timeline: seq<Timed>, latest: int |
      GoesOn(cfg, start, peers, cut, timeline, latest) && latest == cut + longer - shorter - REBOOT_BUFFER
      ensures DecidesBy(cfg, start, peers, cut, timeline, latest)
    {
      GoesOnLess(cfg, start, peers, cut, timeline, latest, latest - less);
      assert DecidesBy(cfg, start, peers, cut, timeline, latest - less);
    }
  }

  lemma GoesOnLess(cfg: Config, start: Monitor, peers: nat, cut: int, timeline: seq<Timed>, until: int, sooner: int)
    requires GoesOn(cfg, start, peers, cut, timeline, until) && sooner <= until
    ensures GoesOn(cfg, start, peers, cut, timeline, sooner)
  {
  }
}

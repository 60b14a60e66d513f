# Self Node Remediation: model and proofs

Self Node Remediation fences an unhealthy node. A manager deletes the workloads of the node, but only when the node
must have rebooted; an agent on the node finds out by itself that it is unhealthy, with the help of its peers, and
stops feeding its watchdog. The two sides may be unable to talk to each other. What holds the protocol together is
time, the order of writes to the API server, and the persisted phase of the remediation resource (SNR).

Main results:

- `Fencing.WorkloadsMovedAfterReset`: in every run of the manager, a worker that was cut off by the time its deadline
  was computed calls Reboot, and has been reset by its watchdog more than 29 seconds before a pod is deleted or the
  out-of-service taint is added on record. It joins the run invariants of the manager, the timing of the agent's check
  loop, the calculator, the watchdog annotation and the watchdog. Its one condition on the cluster is that the
  calculated minimum suffices. `Fencing.NodeTaintedAfterReset` says the same of a node
  that has the taint, whatever became of it in earlier remediations.
- `Eviction.NotedExactly`: a taint write replaces all taints of a node by those of the copy in memory, so a reconcile that
  is shown a cached node can bring an old out-of-service taint back, off the record and before any deadline
  (`Eviction.StaleNodeCopy` is such a run). The lemma gives the exact condition, which can be checked before the
  reconcile; `Eviction.TaintAfterDeadline` holds for all runs in which it never occurs.
- `FencingDeadline.MinimumDurationExact`: the calculated minimum meets the fencing deadline **if and only if** a condition
  on the configuration and on two batch counts holds. It does not hold for every cluster: with default settings and 43
  workers the manager counts 11 batches while each agent needs 14, and `FencingDeadline.DeadlineMissed` gives a timeline
  on which the watchdog fires six seconds after the time the manager assumes.
- `ManagerRuns`: phase order, write-once deadline, no effect on workloads before the deadline, no orphan taint, no effect
  after NHC stopped the remediation; over all runs, with arbitrary interleavings of other writers, lost answers,
  conflicts, refused requests and crashes, and (where stated) arbitrarily stale reads.
- `Completion.RemediationCompletes`: a remediation that is left alone ends, with the node schedulable and the finalizer
  released; `Completion.StoppedCompletes` says the same of one that NHC stopped.
- `LateAnswers.LateDeadlineExact`, `Progress.FencedInFiveReconciles`, `OutOfServiceExit.FinishingStep`, `Agent.AtMostOneReboot`,
  `ApiCheck.WorkerRebootNeedsStreak`, `ApiCheck.IsolatedMeansSilence`, `Watchdog.TriggerIsFinal`,
  `Rebooter.EscalationIsExact`, `PeerHealth.InformedStretchReboots`, `Agreement.NeverCleared`, `PeersCache.NewerReadsWin`.

## How the model is built

Time is an integer number of nanoseconds, `SECOND` and `MINUTE` are constants of `Common`.

| module | models |
|---|---|
| `Common`, `Sorting` | units, options, lexical sorting |
| `Batches` | batch sizes and their number |
| `PeerQuery`, `ApiCheck` | the batched query of the peers, the check loop, whole runs of it |
| `PeerHealth`, `Agreement` | the answer of a peer, what it means for the asker, and lists taken from the store during a run |
| `Watchdog`, `Rebooter` | the synchronized watchdog with its hardware timer; concurrent callers of Reboot |
| `Calculator` | watchdog annotation and reboot duration |
| `FencingDeadline`, `LateAnswers`, `Fencing` | the timing of both sides together, also for answers that are on their way at the cut |
| `Taints`, `Store` | taints; the API server with versions, other writers and the fates of requests |
| `Remediation` | one reconcile of the manager, as functions on the session (server, SNR in memory, turns to come) |
| `Manager` | the same reconcile as it runs, changing SNR and node in memory step by step; each method equals its function |
| `Safety`, `NoOrphan`, `Growth`, `ManagerRuns`, `Eviction`, `OutOfServiceExit` | what runs of the manager guarantee |
| `Progress`, `Completion` | that a remediation gets to its end, and what one undisturbed reconcile does at each station |
| `Agent` | the agent's reconcile, and runs of both reconcilers |
| `PeersCache` | the cached peer addresses and their refreshes |
| `Egress` | the network-policy exception and the cached address resolution |

Modelling decisions:

- A request of the manager has one of three fates: served, refused, or served with its answer lost. Before each request
  any sequence of other writers' actions may happen. A crash is a request after which all further ones are refused.
- Timestamps in a stored resource have whole seconds, so the persisted deadline is truncated (`WholeSeconds`). The
  deadline in the model also records when it was computed and from which configuration, annotations and workers; the
  program stores only the resulting time.
- The client decodes the answer of a write into the object in memory: what the answer contains replaces the memory,
  optional parts that it leaves out stay. The patch of the last error is not protected by the resource version.
- The list of an SNR's earlier versions (`history`) and the list of effects are records kept for the proofs. An effect is
  a deletion of pods, or an out-of-service taint added on purpose; `Eviction` ties the taint itself to them.
- What the program reads from elsewhere (answers of peers, the clock, node and pod lists, DNS, uptime) is a parameter.
- Where documentation and code differ the model follows the code: `ARCHITECTURE.md` lines 38 and 54 say that
  the ResourceDeletion strategy waits for VolumeAttachments, the code does not
  (`OutOfServiceExit.ResourceDeletionDoesNotWait`); only the out-of-service strategy does.

## Model

| member | source | states |
|---|---|---|
| Fencing.WorkloadsMovedAfterReset | internal/controller/selfnoderemediation_controller.go:452-535 | for every manager run, every check timeline of a cut-off worker and every watchdog run: the worker has its verdict, and an effect on workloads (pods deleted, taint added on purpose) comes only once the hardware reset of its node lies more than 29 s back, if the calculator's minimum suffices; duration and annotation are the calculator's and the agent's own |
| Fencing.NodeTaintedAfterReset | internal/controller/selfnoderemediation_controller.go:418-448 | the same of a node that got the out-of-service taint since some state of the run, if no cached node was written back since and the worker was cut off for the deadlines behind the additions since; earlier remediations of the node do not matter |
| Fencing.WorkloadsMovedAfterLateReset | internal/apicheck/check.go:219-233 | if answers were on their way at the cut, the margin is smaller by at most one batch |
| Fencing.UnannotatedDeadline | internal/reboot/calculator.go:70-75 | without a readable timeout annotation the calculated duration meets the deadline for every real timeout of up to sixty seconds, if the minimum suffices |
| FencingDeadline.DeadlineExact | internal/apicheck/check.go:75-278 | every cut-off worker whose loop goes on has a verdict, early enough for its watchdog to fire 30 s before the duration is over, if and only if the duration covers the worst verdict, the watchdog timeout and 30 s |
| FencingDeadline.MinimumDurationExact | internal/reboot/calculator.go:101-143 | with the calculated minimum that deadline, verdict included, is met if and only if `CalculatorSuffices`: two inequalities between configuration and the batch counts of workers and peers |
| FencingDeadline.DeadlineHolds | internal/reboot/calculator.go:61-143 | the deadline is met for request timeouts with the 2 s buffer, no more batches than counted, and either window or round within the error detection |
| FencingDeadline.DeadlineMissed | internal/reboot/calculator.go:145-160 | with default settings, 43 workers and 42 peers there is a timeline whose watchdog fires 6 s after the assumed reboot |
| FencingDeadline.VerdictInTime | internal/apicheck/check.go:179-278 | the first check that calls Reboot is over within the worst verdict time after the cut |
| FencingDeadline.VerdictComes | internal/apicheck/check.go:75-156 | every timeline of a cut-off worker whose last check ends later than the undecided time contains a call of Reboot |
| FencingDeadline.BatchTimeExact | internal/apicheck/check.go:362-378 | a batch takes the dial time and the longer of the configured request time and two seconds more than the API server is given |
| FencingDeadline.CutOffWorkerDecides | internal/apicheck/check.go:75-278 | a cut-off worker whose loop goes on has a first verdict, within the worst time |
| FencingDeadline.WorstVerdictAttained | internal/apicheck/check.go:179-278 | the worst time is no overestimate: for every configuration and cut a timeline attains it |
| FencingDeadline.NodeResetBeforeDeadline | internal/watchdog/synchronized.go:115-145 | there is a verdict, and the Stop it causes resets the node 30 s before the computed, 29 s before the persisted deadline, whatever happens to the watchdog afterwards |
| LateAnswers.LateWorkerDecides | internal/apicheck/check.go:213-278 | a worker for which only batches sent after the cut are silent has its first verdict within `LateWorst` |
| LateAnswers.LateByAtMostABatch | internal/apicheck/check.go:219-233 | late answers cost at most the time of one batch |
| LateAnswers.LateWorstAttained | internal/apicheck/check.go:219-278 | that time is no overestimate: for every configuration and cut a timeline attains it |
| LateAnswers.LateDeadlineExact | internal/reboot/calculator.go:101-143 | the deadline is met for late answers as well if and only if the duration covers `LateWorst`, the watchdog timeout and 30 s, for every configuration |
| LateAnswers.LateDeadlineMissed | internal/reboot/calculator.go:101-143 | with default settings and 42 workers the minimum meets the stricter deadline and not the one for late answers, by 12 of the 30 s |
| Batches.NextBatchSize | internal/utils/peers.go:9-31 | never more than remain, at least one while somebody remains, at least three while three remain |
| Batches.GetNrOfBatches | internal/utils/peers.go:34-43 | the counting loop computes 1 + ceil((n-3)/max(3,(n-3)/10)) for n > 3 |
| Batches.RoundsNeeded | internal/utils/peers.go:9-43 | fewer rounds than that leave somebody unasked, that many ask everybody |
| Batches.NextRound | internal/utils/peers.go:9-31 | each round extends the asked prefix by exactly the next batch size |
| Batches.TightBatchBound | internal/utils/peers.go:34-43 | never more than 14 batches, never more than 12 from 93 nodes on |
| Batches.BatchBoundAttained | internal/utils/peers.go:34-43 | both bounds occur |
| Batches.NeighbourBatches | internal/reboot/calculator.go:145-160 | one node less can cost up to three more batches and saves at most one |
| Batches.NeighbourBatchesAttained | internal/utils/peers.go:34-43 | 43 nodes need 11 batches, 42 need 14 |
| Calculator.AnnotationRoundTrip | internal/utils/annotations.go:59-112 | the timeout the manager reads back is never less than the real one and less than a second more, for every timeout |
| Calculator.AtoiItoa | internal/utils/annotations.go:87-112 | parsing undoes formatting for every integer |
| Calculator.RebootDuration | internal/reboot/calculator.go:61-99 | never less than the calculated minimum |
| Calculator.AnnotatedBasis | internal/utils/annotations.go:59-112 | a node counts as capable exactly if its agent can reboot it, and the calculation never uses a shorter timeout than the real one |
| Calculator.FallbackTimeout | internal/reboot/calculator.go:70-75 | the timeout in the calculation is sixty seconds exactly for a missing or unreadable annotation, and otherwise what it says |
| Calculator.UsualDuration | internal/reboot/calculator.go:61-143 | 180 s for three workers, usual settings and no annotation |
| Calculator.RebootCalculator.SetConfig | internal/reboot/calculator.go:55-59 | the stored configuration is the one given |
| Calculator.RebootCalculator.GetRebootDuration | internal/reboot/calculator.go:61-99 | fails exactly without configuration or workers; otherwise the duration the runs of the manager use, the least one below neither the minimum nor the user's choice |
| Calculator.RebootCalculator.CalculateMinimumRebootDuration | internal/reboot/calculator.go:101-143 | detection, plus the longer of asking and waiting, plus watchdog and buffer |
| PeerQuery.PopPeerIPs | internal/apicheck/check.go:323-348 | splits the list into its first addresses and the rest |
| PeerQuery.SumPeersResponses | internal/apicheck/check.go:434-461 | tallies each code, in whatever order the answers arrive; other codes are ignored |
| PeerQuery.GetHealthStatusFromPeers | internal/apicheck/check.go:350-359 | the tally depends only on the multiset of answers |
| PeerQuery.EffectivePeerRequestTimeout | internal/apicheck/check.go:363-378 | never below the API timeout plus the buffer, and the configured value if that is enough |
| PeerQuery.HealthyVerdict | internal/apicheck/check.go:227-233 | "CR not found" exactly if some asked peer said Healthy; then the error count is zero |
| PeerQuery.UnhealthyVerdict | internal/apicheck/check.go:235-240 | "unhealthy by peers" exactly if some asked peer said Unhealthy and none of the asked ones Healthy |
| PeerQuery.MajorityVerdict | internal/apicheck/check.go:242-257 | "most peers can't access the API" exactly if more than half of all peers said ApiError and no asked one Healthy or Unhealthy |
| PeerQuery.SilenceVerdict | internal/apicheck/check.go:259-278 | otherwise the time since the last answer decides |
| PeerQuery.NoVerdictAsksEverybody | internal/apicheck/check.go:213-278 | a verdict for lack of answers comes only after every peer was asked |
| PeerQuery.SilentRound | internal/apicheck/check.go:213-278 | a round without answers runs through all batches and leaves the last response time alone |
| PeerQuery.HealthFollowsReason | internal/apicheck/check.go:179-278 | unhealthy for exactly two reasons, and never before the threshold |
| ApiCheck.ApiConnectivityCheck.constructor | internal/apicheck/check.go:66-73 | starts with no errors and the present as last response time |
| ApiCheck.ApiConnectivityCheck.AskNextBatch | internal/apicheck/check.go:213-226 | asks exactly the next slice of the list and notes the time if anybody answers |
| ApiCheck.ApiConnectivityCheck.GetWorkerPeersResponse | internal/apicheck/check.go:179-278 | the loop yields the verdict and memory of the specification; its batches are consecutive non-empty slices, nobody is asked twice, and a run without early exit takes exactly the counted number of rounds |
| ApiCheck.ApiConnectivityCheck.GetControlPlanePeersStatus | internal/apicheck/check.go:282-300 | the refreshed list counts exactly if the cached one reached nobody and the refresh succeeded |
| ApiCheck.ApiConnectivityCheck.DialControlPlanePeers | internal/apicheck/check.go:305-321 | reached means any answer, unhealthy means some Unhealthy answer, an empty list is neither |
| ApiCheck.ApiConnectivityCheck.IsConsideredHealthy | internal/apicheck/check.go:165-177 | the verdict of the specification, on workers and control-plane nodes; `ControlPlaneVerdict` and `WorkerVerdict` say what it is |
| ApiCheck.ApiConnectivityCheck.CheckOnce | internal/apicheck/check.go:89-153 | one iteration changes memory and calls Reboot as the specification of runs says; `PassingReadyz` and the two verdicts say when |
| ApiCheck.ControlPlaneVerdict | internal/controlplane/manager.go:96-135 | for every counted failure, when a control-plane node reboots in terms of the answers, counts, diagnostics and silence alone, both directions: below the threshold, with too few peers, with an empty list that is admitted, and after asking |
| ApiCheck.WorkerVerdict | internal/apicheck/check.go:165-278 | the same for a worker: never below the threshold or with too few peers, always with an admitted empty list, otherwise by the answers and the silence |
| ApiCheck.PassingReadyz | internal/apicheck/check.go:113-151 | what a passing readyz is worth: on a control-plane node a denouncing peer causes a reboot at once, and unreachable peers make it a failure; otherwise it clears the count |
| ApiCheck.CountAfterCheck | internal/apicheck/check.go:89-153 | every check clears the error count, leaves it, or adds one, and exactly when |
| ApiCheck.ErrorCountIsStreak | internal/apicheck/check.go:83-153 | in every run the error count is the number of failures since the streak was last cleared |
| ApiCheck.RebootNeedsStreak | internal/apicheck/check.go:83-153 | on every node, Reboot is called only if a control-plane peer said Unhealthy in that check or an unbroken streak reached the threshold |
| ApiCheck.WorkerRebootNeedsStreak | internal/apicheck/check.go:165-233 | on a worker the last checks, as many as the threshold or more, all failed, with no Healthy answer between them |
| ApiCheck.LastResponseCoversRun | internal/apicheck/check.go:219-226 | the remembered time bounds every answer heard in the run |
| ApiCheck.IsolatedMeansSilence | internal/apicheck/check.go:259-278 | "isolated" with peers: all were asked and no worker peer answered within the window, in this or any earlier check |
| PeerHealth.Owner | internal/controller/owner_and_name.go:57-74 | finds an owner of the kind exactly if there is one |
| PeerHealth.IsHealthy | internal/peerhealth/server.go:102-133 | the scan that skips unresolvable resources computes the answer of the specification |
| PeerHealth.AccusedForAReason | internal/controller/owner_and_name.go:20-96 | all four answers exactly: failed without a name, ApiError without a list, Unhealthy for a listed resource that is about the node (by annotation before name, or by Machine), Healthy if the list holds none |
| PeerHealth.InformedPeer | internal/peerhealth/server.go:102-133 | with a directly named SNR on its list a peer says Unhealthy, without a list ApiError, whatever other resources fail to resolve |
| PeerHealth.InformedQuery | internal/apicheck/check.go:227-240 | a query answered only by such peers never ends with "CR not found" and always counts the error |
| PeerHealth.StreakNeverReset | internal/apicheck/check.go:83-153 | over a stretch of such checks the error count grows by one each |
| PeerHealth.InformedStretchReboots | internal/apicheck/check.go:165-240 | once the stretch is as long as the threshold, a query in which an asked peer says Unhealthy calls Reboot |
| Agreement.ListedAfterCreation | internal/peerhealth/server.go:102-133 | in every run a list taken after the SNR was created, while it is stored, is one that accuses its node |
| Agreement.NeverCleared | internal/apicheck/check.go:227-240 | in every run, once the SNR exists, a query answered from such lists never ends with "CR not found" and always counts the error |
| Watchdog.SynchronizedWatchdog.constructor | internal/watchdog/synchronized.go:43-50 | disarmed and never started |
| Watchdog.SynchronizedWatchdog.InitDevice | internal/watchdog/synchronized.go:52-113 | arms, malfunctions or fails, once; an error exactly on a second start or without alternative |
| Watchdog.SynchronizedWatchdog.StartFeeding | internal/watchdog/synchronized.go:115-132 | publishes the cancel function only if armed |
| Watchdog.SynchronizedWatchdog.Tick | internal/watchdog/synchronized.go:119-131 | feeds, notes the time and moves the hardware deadline only while armed; `LastFoodIsLastFeed` and `ResetAfterLastRestart` say what that makes of the two times |
| Watchdog.SynchronizedWatchdog.StopFeeding | internal/watchdog/synchronized.go:138-145 | triggers exactly an armed watchdog; panics exactly if the cancel function is not published yet, and then changes nothing |
| Watchdog.SynchronizedWatchdog.ShutDown | internal/watchdog/synchronized.go:68-79 | disarms only an armed watchdog |
| Watchdog.RunIsSound | internal/watchdog/synchronized.go:52-145 | over all interleavings an armed or triggered watchdog has hardware that resets the node at most one timeout from now, and is triggered only once the cancel function is set |
| Watchdog.TriggerIsFinal | internal/watchdog/synchronized.go:115-145 | Triggered is absorbing: no feeding, disarming or restart afterwards, and the last feeding time is frozen |
| Watchdog.StopResetsNode | internal/watchdog/synchronized.go:138-145 | after Stop on an armed watchdog the hardware deadline is fixed, at most one timeout later |
| Watchdog.NeverRearmed | internal/watchdog/synchronized.go:52-113 | after the first Start a watchdog that is not armed never becomes so |
| Watchdog.LastFoodIsLastFeed | internal/watchdog/synchronized.go:119-131 | in every run the last feeding time is that of the last successful feeding of an armed watchdog, and absent exactly if there was none |
| Watchdog.ResetAfterLastRestart | internal/watchdog/synchronized.go:52-145 | the hardware of an armed or triggered watchdog resets the node exactly one timeout after it was last opened, fed or left open by a failed disarm |
| Watchdog.ArmedUntilEnded | internal/watchdog/synchronized.go:52-145 | once its device was opened the watchdog is armed, with the timeout of the device, until it is stopped or disarmed |
| Watchdog.StatusByEvents | internal/watchdog/synchronized.go:52-145 | after a failed start Malfunction or Disarmed, as the setting says; after the first stop Triggered, after a disarm before it Disarmed, for good |
| Rebooter.WatchdogRebooter.Reboot | internal/reboot/rebooter.go:54-85 | stops an armed watchdog; reboots by software exactly without one, on malfunction, when disarmed, or when triggered and last fed more than 30 s ago or never; panics exactly when Stop does |
| Rebooter.WatchdogRebooter.IsWatchdogRebootStuck | internal/reboot/rebooter.go:110-119 | more than 30 s since the last feeding |
| Rebooter.ProjectsToWatchdogRun | internal/reboot/rebooter.go:54-119 | whatever concurrent callers do is a run of the watchdog |
| Rebooter.TriggeredForGood | internal/reboot/rebooter.go:54-85 | once triggered, no event of any caller or goroutine feeds, disarms or re-arms |
| Rebooter.RebootTriggers | internal/reboot/rebooter.go:54-85 | without shutdown, a call that saw the watchdog armed leaves it triggered, with the reset at most one timeout after the call |
| Rebooter.EscalationIsExact | internal/reboot/rebooter.go:54-119 | over all interleavings a call ends with a software reboot exactly if it first read a malfunction, then a disarmed watchdog, or read the trigger and more than 30 s passed since every feeding event |
| Rebooter.LastFoodByEvents | internal/reboot/rebooter.go:110-119 | the remembered feeding time is stuck exactly if every feeding event of the run is more than 30 s old |
| Rebooter.NoFeedingAfterTrigger | internal/watchdog/synchronized.go:119-145 | no event feeds a watchdog that was triggered |
| Rebooter.UndisturbedCall | internal/reboot/rebooter.go:54-85 | a caller that nobody disturbs does what the method does |
| Taints.HasTaint | internal/utils/taints.go:37-44 | finds a matching taint exactly if there is one |
| Taints.DeleteTaint | internal/utils/taints.go:47-58 | yields the taints without the matching ones, and whether there were any |
| Taints.WithoutIsExact | internal/utils/taints.go:47-58 | removes every matching taint and no other |
| Taints.OthersStay | internal/utils/taints.go:47-58 | deleting one taint neither adds nor removes one that does not match |
| Manager.Reconciler.Update | internal/controller/selfnoderemediation_controller.go:631-676 | a versioned write: refused, not found, conflict, stored, or stored with the answer lost; nodes and workloads stay as the others left them |
| Manager.Reconciler.Patch | internal/controller/selfnoderemediation_controller.go:744-784 | an answered write leaves exactly these taints on the server and in the copy; no other node changes, and an unanswered one leaves the copy |
| Manager.Reconciler.Add | internal/controller/selfnoderemediation_controller.go:744-761 | adds a missing taint at the end, with the present time; without error the copy has it |
| Manager.Reconciler.Remove | internal/controller/selfnoderemediation_controller.go:763-784 | removes a present taint; without error the copy does not have it, and other taints stay |
| Manager.Reconciler.AddOutOfService | internal/controller/selfnoderemediation_controller.go:794-811 | the taint counts as an effect when it reaches the server |
| Manager.Reconciler.DeletePodsOfNode | internal/controller/selfnoderemediation_controller.go:410-412 | exactly one effect more on record, even if it fails half way |
| Manager.Reconciler.DropFinalizer | internal/controller/selfnoderemediation_controller.go:631-644 | an answered removal leaves no SNR of that name with the finalizer; one turned down changes nothing |
| Manager.Reconciler.PutFinalizer | internal/controller/selfnoderemediation_controller.go:646-666 | nothing for an SNR under deletion; otherwise the current version gets it and the reconcile asks to come back at once, an outdated one changes nothing and comes back after a second; no taint is touched |
| Manager.Reconciler.GetNodeFromSnr | internal/controller/selfnoderemediation_controller.go:698-713 | the node, not found, or unreadable; a failed Machine lookup is one of the latter two |
| Manager.Reconciler.UpdateStatusLastError | internal/controller/selfnoderemediation_controller.go:715-742 | no request for an unchanged error; a success leaves no error in memory; no effect on workloads |
| Manager.Reconciler.Recover | internal/controller/selfnoderemediation_controller.go:548-564 | done only with the taint off and, if the SNR had it, the finalizer gone; while the taint stays the SNR is as it was, so the finalizer goes after the taint |
| Manager.Reconciler.ScheduleReboot | internal/controller/selfnoderemediation_controller.go:678-695 | a present deadline is unchanged; a new one lies the calculated minimum or more after now, to the second |
| Manager.Reconciler.HandleFencingStarted | internal/controller/selfnoderemediation_controller.go:473-500 | no taint without the finalizer; the phase is only set with finalizer, taint and deadline in place, and otherwise stays |
| Manager.Reconciler.HandlePreRebootCompleted | internal/controller/selfnoderemediation_controller.go:502-519 | advances exactly at or after the deadline; otherwise the requested wait ends exactly a second after it |
| Manager.Reconciler.IsResourceDeletionCompleted | internal/controller/selfnoderemediation_controller.go:835-860 | true exactly if both lists could be read and hold no terminating pod of and no attachment to the node |
| Manager.Reconciler.EvictWithTaint | internal/controller/selfnoderemediation_controller.go:418-448 | done only with the taint off the node again and nothing left on it, or an SNR under deletion a minute past its deadline; waits five seconds, with the taint on, only while something is left and that minute is not over |
| Manager.Reconciler.HandleRebootCompletedPhase | internal/controller/selfnoderemediation_controller.go:521-535 | done means last phase, Succeeded, and the out-of-service taint off, or the pods deleted, by strategy; not done means the SNR is unchanged |
| Manager.Reconciler.SetConditions | internal/controller/selfnoderemediation_controller.go:338-379 | the table of conditions by reason, and nothing else changes |
| Manager.Reconciler.RemediateWithResourceRemoval | internal/controller/selfnoderemediation_controller.go:452-471 | effects on workloads only in the phase after the reboot, and only for this SNR |
| Manager.Reconciler.CleanUpStopped | internal/controller/selfnoderemediation_controller.go:239-264 | no effect on workloads; the finalizer goes only once both taints are off the node, and is gone when an SNR under deletion is done |
| Manager.Reconciler.RemediateTarget | internal/controller/selfnoderemediation_controller.go:266-313 | no effect on workloads of a node that is missing, unreadable or excluded |
| Manager.Reconciler.RunBody | internal/controller/selfnoderemediation_controller.go:225-313 | without the configuration no effect and no change of phase |
| Manager.Reconciler.ReconcileManager | internal/controller/selfnoderemediation_controller.go:194-314 | equals the function that all run theorems and `Completion` are about; from any stored version it is a step of the runs below, keeps their invariant, has effects for its own SNR only, none for one that NHC stopped; and unless it writes a cached node back, every out-of-service taint it sets is on record |
| Safety.ReconcileKeepsGood | internal/controller/selfnoderemediation_controller.go:194-314 | a reconcile from any stored version, however stale, with any node read and any fates, keeps the run invariant |
| ManagerRuns.RunIsGood | internal/controller/selfnoderemediation_controller.go:194-314 | every state of every run satisfies it |
| ManagerRuns.RunOnlyGrows | internal/controller/selfnoderemediation_controller.go:668-676 | time, stored versions and effects only grow along a run |
| ManagerRuns.PhasesInOrder | internal/controller/selfnoderemediation_controller.go:452-535 | the persisted phase moves one step at a time and never back, and every phase comes with a deadline |
| ManagerRuns.DeadlineWrittenOnce | internal/controller/selfnoderemediation_controller.go:678-695 | no later version of an SNR has another deadline |
| ManagerRuns.WorkloadsAfterDeadline | internal/controller/selfnoderemediation_controller.go:506-535 | every effect (pods deleted, out-of-service taint added on purpose) comes at or after the persisted deadline, which lies, to the second, the calculated duration and at least the calculated minimum after it was set |
| ManagerRuns.ConditionsFollowPhase | internal/controller/selfnoderemediation_controller.go:338-379 | Succeeded implies the last phase, which implies that Processing is over |
| ManagerRuns.NeverWithoutDeadline | internal/controller/selfnoderemediation_controller.go:584-592 | no version with a phase lacks the deadline or has an unknown phase, so no reconcile dereferences nil |
| ManagerRuns.NoOrphanTaint | internal/controller/selfnoderemediation_controller.go:477-500 | with current reads, a tainted node is the target of an SNR with the finalizer, at every point including crashes |
| ManagerRuns.FinalizerRemovalMeansClean | internal/controller/selfnoderemediation_controller.go:548-564 | without such an SNR both taints are gone |
| ManagerRuns.StoppedForGood | internal/controller/selfnoderemediation_controller.go:239-264 | once NHC stopped a remediation, no later step that reads the current SNR has an effect for it, whatever node it is shown |
| Growth.ReconcileTouches | internal/controller/selfnoderemediation_controller.go:194-314 | a reconcile puts effects on record for its own SNR only, and for none it read as stopped |
| Eviction.ReconcileNoted | internal/controller/selfnoderemediation_controller.go:744-833 | a reconcile of any version that does not write a cached node back gives no node the out-of-service taint off the record, for all interleavings and fates |
| Eviction.NotedExactly | internal/controller/selfnoderemediation_controller.go:744-784 | every taint is on record for all interleavings if and only if the reconcile does not write back, a condition on SNR, cached node and server before it |
| Eviction.StoppedSetsNoTaint | internal/controller/selfnoderemediation_controller.go:239-264 | a reconcile of a stopped SNR gives no node the taint, whatever node it is shown |
| Eviction.TaintAfterDeadline | internal/controller/selfnoderemediation_controller.go:506-535 | in every run, a node that got the taint since some state, with nothing written back since, has an addition on record since, at or after a persisted deadline that lies at least the calculated minimum after it was set; also in a second remediation |
| Eviction.TaintedWhileEvicting | internal/controller/selfnoderemediation_controller.go:418-448 | with current reads a tainted node is the target of an SNR with finalizer, reboot completed, and a deadline that has passed |
| Eviction.CurrentReadsWriteNothingBack | internal/controller/selfnoderemediation_controller.go:698-713 | a step that reads the current node writes nothing back |
| Eviction.StaleNodeCopy | internal/controller/selfnoderemediation_controller.go:744-761 | a run in which a cached node brings the taint back before the SNR has a phase, with no effect on record |
| OutOfServiceExit.FinishingStep | internal/controller/selfnoderemediation_controller.go:418-448 | in every run, a step on any stored version of the SNR, with its node as it is or as it was, that stores the last phase had no terminating pod and no attachment left on the node, or an SNR under deletion a minute past its deadline; and the taint is off the node, whatever other SNRs there are |
| OutOfServiceExit.ResourceDeletionDoesNotWait | internal/controller/selfnoderemediation_controller.go:403-412 | the other strategy finishes exactly if the pods could be deleted |
| Progress.RoundMakesProgress | internal/controller/selfnoderemediation_controller.go:477-535 | every reconcile lowers a rank, or clears a stale error without losing any, whatever others do before the next one, if the SNR survives it |
| Progress.FencedInFiveReconciles | internal/controller/selfnoderemediation_controller.go:477-535 | a new SNR reaches the last phase in at most five reconciles if the requested wait is honoured and others leave the remediation under way, in six with an error left over |
| Completion.RecoveryCompletes | internal/controller/selfnoderemediation_controller.go:537-564 | one undisturbed reconcile of a fenced SNR under deletion: NoSchedule taint off the node, finalizer released, and the SNR gone if nobody else holds it |
| Completion.StoppedCompletes | internal/controller/selfnoderemediation_controller.go:239-264 | the same of an SNR under deletion that NHC stopped, in any phase: both taints off, or the node missing; finalizer released either way |
| Completion.RemediationCompletes | internal/controller/selfnoderemediation_controller.go:452-564 | from a new SNR to the end: fenced after five reconciles whatever others do in between, and one reconcile after its deletion the node is schedulable and the finalizer released |
| Completion.WorkloadsByStrategy | internal/controller/selfnoderemediation_controller.go:876-891 | what a reconcile does to the workloads of a rebooted node, by strategy and support of the cluster: pods deleted, or the out-of-service taint added; and exactly when that taint is off again |
| Completion.FinalizerFirst | internal/controller/selfnoderemediation_controller.go:484-486 | a new remediation first gets its finalizer, before its node is touched, and asks to be called again at once |
| Completion.RefusalReported | internal/controller/selfnoderemediation_controller.go:473-482 | a node without agent or not capable of rebooting itself, or an unknown phase: the error is returned and stored, nothing else changes |
| Completion.UnreadableReported | internal/controller/selfnoderemediation_controller.go:225-287 | an unreadable configuration changes nothing; an unreadable node changes nothing but the reported error, and nothing at all for a stopped SNR, which keeps its finalizer |
| Completion.StoppedReported | internal/controller/selfnoderemediation_controller.go:258-263 | stopped and not yet deleted: reported as failed, nothing else changes |
| Completion.DisabledReported | internal/controller/selfnoderemediation_controller.go:225-237 | without configuration: reported as disabled, nothing else changes |
| Completion.MissingNodeReported | internal/controller/selfnoderemediation_controller.go:275-287 | a missing node: the error is stored, and the remediation is reported as failed if and only if the same error was there before, nothing was reported yet, or it was already |
| Completion.LeftAlone | internal/controller/selfnoderemediation_controller.go:289-313 | an excluded node or an unsupported strategy: nothing but conditions and last error changes, without an error |
| Completion.RaceIsRetried | internal/controller/selfnoderemediation_controller.go:208-223 | a reconcile that loses the race for the final update writes nothing with it, and comes back within a second or with its own error |
| Agent.RebootTestExact | internal/controller/selfnoderemediation_controller.go:596-604 | what comparing uptime and age tells, both directions, for uptime rounded either way |
| Agent.RebootTestBounds | internal/utils/uptime.go:10-20 | a boot a second after the creation is always recognised, one a second before never counts |
| Agent.RoundedUpExact | internal/controller/selfnoderemediation_controller.go:596-604 | with uptime rounded up, a boot is recognised at all later times exactly if it lies a second or more after the stored creation time |
| Agent.RoundedDownExact | internal/controller/selfnoderemediation_controller.go:596-604 | with uptime rounded down, exactly if it lies after it |
| Agent.RebootTestInaccurate | internal/controller/selfnoderemediation_controller.go:594-604 | within that second the test errs in both directions |
| Agent.ReconcileAgent | internal/controller/selfnoderemediation_controller.go:154-192 | Reboot is called exactly for an SNR in phase Pre-Reboot that is not being deleted, names this node, and is no older than the readable uptime; an error exactly if the SNR, its node or the uptime cannot be had |
| Agent.RebootIfNeeded | internal/controller/selfnoderemediation_controller.go:567-580 | Reboot exactly if the uptime is readable and shows no boot since |
| Agent.RebootCallIsDue | internal/controller/selfnoderemediation_controller.go:154-192 | every such call, on however stale a version, has phase Pre-Reboot, finalizer and deadline and no deletion |
| Agent.DueIsRebooted | internal/controller/selfnoderemediation_controller.go:154-192 | in every run Reboot is called exactly for the versions with that phase, this node, no deletion and no uptime shorter than their age; in particular for all of them if the boot lies a second before the creation |
| Agent.AtMostOneReboot | internal/controller/selfnoderemediation_controller.go:567-604 | after a boot later than the stored creation time (a second later if uptime is rounded up) no reconcile of any version calls Reboot for that SNR |
| PeersCache.MapNodesToPrimaryPodIPs | internal/peers/peers.go:196-219 | the addresses in the order of the nodes, and an error exactly if some node has none |
| PeersCache.FindPrimaryIP | internal/peers/peers.go:200-216 | the first pod on the node decides, with or without an address |
| PeersCache.MappingIsComplete | internal/peers/peers.go:196-219 | no error exactly if every node contributed one non-empty address |
| PeersCache.PrimaryIsFirst | internal/peers/peers.go:196-219 | the address of a node is the first address of the first pod on it, unless that is empty |
| PeersCache.NoPodNoAddress | internal/peers/peers.go:196-219 | a node without a pod has none |
| PeersCache.Peers.constructor | internal/peers/peers.go:48-60 | empty caches, free token |
| PeersCache.Peers.ReadPeers | internal/peers/peers.go:157-194 | what is stored, and when an error is reported, for every outcome of the two lists |
| PeersCache.Peers.UpdateWorkerPeers | internal/peers/peers.go:106-110 | replaces the cache by what was found, or leaves it |
| PeersCache.Peers.UpdateControlPlanePeersWithSetter | internal/peers/peers.go:140-155 | blocked exactly while the token is taken and the context goes on; otherwise the token is back on every path, and the cache as the mode of refresh demands |
| PeersCache.Peers.RefreshControlPlanePeersForIsolationCheck | internal/peers/peers.go:127-138 | never turns a non-empty cache empty; without selector it fails and changes nothing; blocked as above |
| PeersCache.Peers.GetPeersAddresses | internal/peers/peers.go:221-237 | a fresh copy of the cache of the role |
| PeersCache.OneRefreshAtATime | internal/peers/peers.go:140-155 | over all interleavings at most one refresh is past waiting, and the token is free exactly if none is |
| PeersCache.NewerReadsWin | internal/peers/peers.go:140-194 | the cache never goes back to an older read |
| PeersCache.StoredExactly | internal/peers/peers.go:123-155 | a periodic refresh stores exactly what it found, be it nothing; one for the isolation check too, unless that would empty the cache |
| PeersCache.KnownPeersStay | internal/peers/peers.go:123-138 | only a periodic refresh can empty the cache |
| PeersCache.HolderMovesOn | internal/peers/peers.go:140-155 | whoever has the token can move, and returns it within five moves of its own |
| PeersCache.UndisturbedRefresh | internal/peers/peers.go:140-194 | a refresh that nobody disturbs does what the method does |
| Egress.EndpointCidrsFromEgress | internal/controlplane/manager.go:278-287 | the sorted addresses of the endpoint rules |
| Egress.ReplaceEndpointCidrRules | internal/controlplane/manager.go:289-302 | the other rules in their order, then one rule per address |
| Egress.SameCidrs | internal/controlplane/manager.go:304-314 | equality of lists |
| Egress.ReadBack | internal/controlplane/manager.go:260-302 | reading back yields exactly the addresses written; other rules keep content and order |
| Egress.ReplacedOnce | internal/controlplane/manager.go:289-302 | replacing twice is replacing once |
| Egress.OthersSurvive | internal/controlplane/manager.go:274-302 | exactly the rules that name one address block and nothing else are replaced |
| Egress.ConvergesExactly | internal/controlplane/manager.go:260-302 | a second update is a no-op if and only if the addresses are sorted |
| Egress.EndpointPolicy.EnsureUpToDate | internal/controlplane/manager.go:242-272 | after a stored update the exception is the resolved one; an up-to-date one is left alone, as is everything without namespace, resolution, policy or stored update; other rules never change |
| Egress.IpsToSortedCidrs | internal/utils/dns.go:24-35 | sorted, as many as addresses, and each address with /32 or /128 by its kind |
| Egress.CidrsIgnoreOrder | internal/utils/dns.go:24-35 | the result does not depend on the order of the addresses |
| Egress.CachedCidrResolver.Resolve | internal/utils/dns.go:50-80 | answer and new cache by the fallback rule |
| Egress.CacheIsLastSuccess | internal/utils/dns.go:50-80 | over any history the cache equals the last success |
| Egress.CacheWithoutSuccess | internal/utils/dns.go:50-80 | without a success the cache stays empty |
| Egress.FallbackIsOwn | internal/utils/dns.go:50-80 | a failing call yields the addresses of the last success if that was for the same URL, and no others |

## Left out

- gRPC, TLS, certificates, readyz, ping and kubelet probes are foreign input: each is an arbitrary answer, with a time bound where timing is the subject.
- Informer caches and the Kubernetes client beyond versioned writes, merge patches of taints, and the decoding of answers.
- The configuration controller, rendering, applying manifests and the web hooks; their minimum values appear as hypotheses (`FencingDeadline.Sane`).
- A panic of Stop before the cancel function is published ends the process: it is an outcome of `StopFeeding` and `Reboot`, and runs of the watchdog end before it.
- Device access and the commands of the software reboot: opening, feeding and closing the watchdog are outcomes of a step.
- Events, logging and the wording of errors; `errorText` stands for the text of any API error.
- Machine-owned SNRs in the manager's and the agent's runs: a missing Machine reads like a missing node there, so the target of an SNR is fixed at its creation. Failed lookups are outcomes of `Manager.Reconciler.GetNodeFromSnr` and `Agent.ReconcileAgent`, and `PeerHealth` resolves Machines.
- Several managers at a time, and a change of the strategy of an existing SNR.
- SNRs created again under a used name: a name stands for one incarnation of a resource (name and UID), as versioned writes do. The patch of the last error is not versioned, so a reconcile of an outdated incarnation could reach a new one with it; that is not modelled.
- 64-bit overflow of durations; integers are unbounded.
- The manager's listing of pods and attachments is one input per reconcile; others do not act between the two lists.
- FencingDeadline.DeadlineExact: reads "no answer after the cut" as "no batch that completes after the cut brings an answer". `LateAnswers.LateDeadlineExact` is the exact condition for the other reading, in which answers of batches sent before the cut still come.
- ManagerRuns.NoOrphanTaint: assumes current reads of SNR and node; with stale node reads a merge patch can bring back a removed taint, for the out-of-service taint exactly as `Eviction.NotedExactly` says.
- Agent.AtMostOneReboot: the kernel may round uptime either way; `Agent.RoundedUpExact` and `Agent.RoundedDownExact` give the exact condition for each, `Agent.RebootTestInaccurate` boots on the wrong side of it.
- The periodic loops that call the check, the refreshes and the annotation update; their bodies are modelled.

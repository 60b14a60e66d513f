/** When a remediation that uses the out-of-service taint may finish, however stale the SNR and the node that the manager
    reads are. */
module OutOfServiceExit {
  import opened Common
  import opened Taints
  import opened Store
  import opened Remediation
  import opened Safety
  import opened Growth
  import opened NoOrphan
  import opened ManagerRuns
  import opened Eviction

  /** Nothing on the node terminates or is attached any more, or the SNR is being deleted and the deadline is at least
      one minute old at some time up to `now`. */
  ghost predicate MayFinish(s: Snr, in_: Inputs, now: int) {
    || ResourceDeletionCompleted(in_, s.target)
    || (s.deleting && s.status.timeAssumedRebooted.Some? && s.status.timeAssumedRebooted.value.due + MINUTE <= now)
  }

  /** The removal may finish, and the taint is off the node. */
  ghost predicate Finished(s: Snr, in_: Inputs, w: World) {
    MayFinish(s, in_, w.clock) && !Tainted(w, s.target, OUT_OF_SERVICE)
  }

  /** The last stored version of the SNR has phase `p`. */
  ghost predicate StoredPhase(w: World, name: string, p: Option<Phase>) {
    && name in w.history && w.history[name] != [] && Last(w.history[name]).status.phase == p
    && (name in w.snrs ==> w.snrs[name].status.phase == p)
  }

  /** Neither the server nor the memory has the last phase. */
  ghost predicate Early(c: Session, name: string, p: Option<Phase>) {
    StoredPhase(c.world, name, p) && p != Some(FencingCompleted) && c.snr.status.phase != Some(FencingCompleted)
  }

  /** The server does not have the last phase, and the memory has it only for a good reason. `s` is the SNR that was read. */
  ghost predicate OnTrack(c: Session, name: string, p: Option<Phase>, s: Snr, in_: Inputs) {
    && StoredPhase(c.world, name, p) && p != Some(FencingCompleted)
    && (c.snr.status.phase == Some(FencingCompleted) ==> Finished(s, in_, c.world))
  }

  // Requests.

  lemma ActKeepsPhase(w: World, e: Env, name: string, p: Option<Phase>)
    requires StoredPhase(w, name, p)
    ensures StoredPhase(Act(w, e), name, p)
  {
    hide ForeignTaints, OwnTaints;
  }

  lemma {:induction false} ActAllKeepsPhase(w: World, es: seq<Env>, name: string, p: Option<Phase>)
    requires StoredPhase(w, name, p)
    ensures StoredPhase(ActAll(w, es), name, p)
    decreases |es|
  {
    hide Act, StoredPhase;
    if es != [] {
      ActKeepsPhase(w, es[0], name, p);
      ActAllKeepsPhase(Act(w, es[0]), es[1..], name, p);
    }
  }

  lemma ProceedKeepsPhase(c: Session, name: string, p: Option<Phase>)
    requires StoredPhase(c.world, name, p)
    ensures StoredPhase(Proceed(c).world, name, p) && Proceed(c).snr == c.snr
  {
    hide StoredPhase;
    if c.turns != [] { ActAllKeepsPhase(c.world, c.turns[0].others, name, p); }
  }

  lemma WriteKeepsPhase(c: Session, copy: NodeCopy, taints: seq<Taint>, name: string, p: Option<Phase>)
    requires StoredPhase(c.world, name, p)
    ensures var d := WriteTaints(c, copy, taints).0; StoredPhase(d.world, name, p) && d.snr == c.snr
  {
    hide Proceed;
    ProceedKeepsPhase(c, name, p);
  }

  lemma TaintsKeepPhase(c: Session, copy: NodeCopy, taint: Taint, name: string, p: Option<Phase>)
    requires StoredPhase(c.world, name, p)
    ensures var d := AddTaint(c, copy, taint).0; StoredPhase(d.world, name, p) && d.snr == c.snr
    ensures var d := RemoveTaint(c, copy, taint).0; StoredPhase(d.world, name, p) && d.snr == c.snr
  {
    hide WriteTaints, StoredPhase, TaintExists, Without;
    WriteKeepsPhase(c, copy, copy.node.taints + [taint.(timeAdded := Some(c.world.clock))], name, p);
    WriteKeepsPhase(c, copy, Without(copy.node.taints, taint), name, p);
  }

  /** A change other than of the status brings at most the stored phase into memory. */
  lemma SendKeepsPhase(c: Session, name: string, change: Change, p: Option<Phase>)
    requires StoredPhase(c.world, name, p) && !change.SetStatus?
    ensures var d := Send(c, name, change).0;
            StoredPhase(d.world, name, p) && d.snr.status.phase in {c.snr.status.phase, p}
  {
    hide Proceed;
    ProceedKeepsPhase(c, name, p);
  }

  /** The final update stores the phase in memory, or leaves the stored one. */
  lemma CommitPhase(c: Session, name: string, status: Status, p: Option<Phase>)
    requires StoredPhase(c.world, name, p)
    ensures var h := Send(c, name, SetStatus(status)).0.world.history;
            name in h && h[name] != [] && Last(h[name]).status.phase in {p, status.phase}
  {
    hide Proceed, Decode;
    ProceedKeepsPhase(c, name, p);
  }

  /** Changing an SNR puts the taint on no node, and neither does anybody who acts meanwhile. */
  lemma SendKeepsFinished(c: Session, name: string, change: Change, s: Snr, in_: Inputs)
    requires Finished(s, in_, c.world)
    ensures Finished(s, in_, Send(c, name, change).0.world)
  {
    hide Send, TaintExists, ResourceDeletionCompleted;
    SendGentle(c, name, change);
    SendGrows(c, name, change);
  }

  // The phases.

  lemma RecoverStaysEarly(c: Session, name: string, copy: NodeCopy, in_: Inputs, p: Option<Phase>)
    requires Early(c, name, p)
    ensures Early(RecoverNode(c, name, copy, in_).0, name, p)
  {
    hide RemoveTaint, Send, StoredPhase;
    TaintsKeepPhase(c, copy, NO_SCHEDULE, name, p);
    var d := RemoveTaint(c, copy, NO_SCHEDULE).0;
    SendKeepsPhase(d.(snr := d.snr.(finalizer := false)), name, SetFinalizer(false), p);
  }

  lemma PrepareStaysEarly(c: Session, name: string, copy: NodeCopy, in_: Inputs, p: Option<Phase>)
    requires Early(c, name, p)
    ensures Early(PrepareReboot(c, name, copy, in_).0, name, p)
  {
    hide AddTaint, Send, Proceed, StoredPhase;
    SendKeepsPhase(c.(snr := c.snr.(finalizer := true)), name, SetFinalizer(true), p);
    TaintsKeepPhase(c, copy, NO_SCHEDULE, name, p);
    ProceedKeepsPhase(AddTaint(c, copy, NO_SCHEDULE).0, name, p);
  }

  /** An answered addition leaves a copy that shows the taint. */
  lemma AddedIsShown(c: Session, name: string, copy: NodeCopy)
    ensures var (d, copy', err) := AddOutOfServiceTaint(c, name, copy);
            copy'.name == copy.name && (err == NoError ==> TaintExists(copy'.node.taints, OUT_OF_SERVICE))
  {
    hide Proceed, TaintExists;
    AppendedExists(copy.node.taints, OUT_OF_SERVICE.(timeAdded := Some(c.world.clock)), OUT_OF_SERVICE);
  }

  /** An answered removal of a taint that the copy shows takes it off the server, however stale the copy is. */
  lemma RemovedFromServer(c: Session, copy: NodeCopy)
    requires TaintExists(copy.node.taints, OUT_OF_SERVICE)
    ensures var (d, _, err) := RemoveTaint(c, copy, OUT_OF_SERVICE);
            err == NoError ==> !Tainted(d.world, copy.name, OUT_OF_SERVICE)
  {
    hide Proceed, TaintExists, Without;
    WithoutIsExact(copy.node.taints, OUT_OF_SERVICE);
  }

  lemma AddOutOfServiceKeepsPhase(c: Session, name: string, copy: NodeCopy, p: Option<Phase>)
    requires StoredPhase(c.world, name, p)
    ensures var d := AddOutOfServiceTaint(c, name, copy).0; StoredPhase(d.world, name, p) && d.snr == c.snr
  {
    hide AddTaint, TaintExists;
    TaintsKeepPhase(c, copy, OUT_OF_SERVICE, name, p);
  }

  /** The removal is only done when it may be, and with the taint off the server. */
  lemma EvictionFinishes(c: Session, name: string, copy: NodeCopy, in_: Inputs, p: Option<Phase>)
    requires StoredPhase(c.world, name, p) && copy.name == c.snr.target
    ensures var (d, result) := UseOutOfServiceTaint(c, name, copy, in_);
            && StoredPhase(d.world, name, p) && d.snr == c.snr
            && (result == DONE ==> Finished(c.snr, in_, d.world))
  {
    hide AddOutOfServiceTaint, RemoveTaint, StoredPhase, TaintExists, ResourceDeletionCompleted;
    AddOutOfServiceKeepsPhase(c, name, copy, p);
    AddedIsShown(c, name, copy);
    var (d, copy', err) := AddOutOfServiceTaint(c, name, copy);
    TaintsKeepPhase(d, copy', OUT_OF_SERVICE, name, p);
    TaintsGrow(d, copy', OUT_OF_SERVICE);
    if err == NoError { RemovedFromServer(d, copy'); }
  }

  /** The parts of the SNR that decide about finishing. */
  ghost predicate SameGrounds(s: Snr, t: Snr) {
    t.target == s.target && t.deleting == s.deleting && t.status.timeAssumedRebooted == s.status.timeAssumedRebooted && t.strategy == s.strategy
  }

  lemma RemediationOnTrack(c: Session, name: string, copy: NodeCopy, in_: Inputs, p: Option<Phase>, s: Snr)
    requires Early(c, name, p) && SameGrounds(s, c.snr) && copy.name == s.target
    ensures OnTrack(Remediate(c, name, copy, in_, OutOfServiceTaint).0, name, p, s, in_)
  {
    hide PrepareReboot, UseOutOfServiceTaint, StoredPhase, TaintExists, ResourceDeletionCompleted;
    PrepareStaysEarly(c, name, copy, in_, p);
    if c.snr.status.phase == Some(RebootCompleted) {
      EvictionFinishes(c, name, copy, in_, p);
    }
  }

  lemma LastErrorOnTrack(c: Session, name: string, in_: Inputs, result: Result, p: Option<Phase>, s: Snr)
    requires OnTrack(c, name, p, s, in_)
    ensures OnTrack(UpdateLastError(c, name, in_, result).0, name, p, s, in_)
  {
    hide Send, StoredPhase, Finished;
    var text := match result.err case Some(t) => t case None => "";
    var d := c.(snr := c.snr.(status := c.snr.status.(lastError := text)));
    SendKeepsPhase(d, name, SetLastError(text), p);
    if Finished(s, in_, c.world) { SendKeepsFinished(d, name, SetLastError(text), s, in_); }
  }

  /** The node is the one that the SNR names. */
  ghost predicate ReadsTarget(s: Snr, in_: Inputs) {
    in_.nodeRead.NodeFromCache? ==> in_.nodeRead.name == s.target
  }

  lemma GetNodeStaysEarly(c: Session, name: string, in_: Inputs, p: Option<Phase>)
    requires Early(c, name, p) && ReadsTarget(c.snr, in_)
    ensures var (d, found) := GetNode(c, in_);
            Early(d, name, p) && d.snr == c.snr && (found.Found? ==> found.copy.name == c.snr.target)
  {
    hide Proceed, StoredPhase;
    ProceedKeepsPhase(c, name, p);
  }

  lemma StoppedStaysEarly(c: Session, name: string, in_: Inputs, p: Option<Phase>)
    requires Early(c, name, p) && ReadsTarget(c.snr, in_)
    ensures Early(StoppedByNHC(c, name, in_).0, name, p)
  {
    hide GetNode, RemoveTaint, RecoverNode, Send, StoredPhase;
    GetNodeStaysEarly(c, name, in_, p);
    var (d, found) := GetNode(c, in_);
    match found
    case Found(copy) =>
      TaintsKeepPhase(d, copy, OUT_OF_SERVICE, name, p);
      var (e, copy', _) := RemoveTaint(d, copy, OUT_OF_SERVICE);
      RecoverStaysEarly(e, name, copy', in_, p);
    case Missing => SendKeepsPhase(d.(snr := d.snr.(finalizer := false)), name, SetFinalizer(false), p);
    case Unreadable =>
  }

  lemma NodeRemediationOnTrack(c: Session, name: string, in_: Inputs, p: Option<Phase>)
    requires Early(c, name, p) && ReadsTarget(c.snr, in_) && RuntimeStrategy(c.snr.strategy, in_.outOfServiceGA) == OutOfServiceTaint
    ensures OnTrack(RemediateNode(c, name, in_).0, name, p, c.snr, in_)
  {
    hide GetNode, Remediate, UpdateLastError, StoredPhase, Finished, RuntimeStrategy;
    var started := c.(snr := UpdateConditions(c.snr, RemediationStarted));
    GetNodeStaysEarly(started, name, in_, p);
    var (d, found) := GetNode(started, in_);
    match found
    case Missing => LastErrorOnTrack(d.(snr := UpdateConditions(d.snr, SkippedNodeNotFound)), name, in_, Failed(in_.errorText), p, c.snr);
    case Unreadable => LastErrorOnTrack(d, name, in_, Failed(in_.errorText), p, c.snr);
    case Found(copy) =>
      RemediationOnTrack(d, name, copy, in_, p, c.snr);
      var (e, result) := Remediate(d, name, copy, in_, OutOfServiceTaint);
      LastErrorOnTrack(e, name, in_, result, p, c.snr);
  }

  lemma BodyOnTrack(c: Session, name: string, in_: Inputs, p: Option<Phase>)
    requires Early(c, name, p) && ReadsTarget(c.snr, in_) && RuntimeStrategy(c.snr.strategy, in_.outOfServiceGA) == OutOfServiceTaint
    ensures OnTrack(Body(c, name, in_).0, name, p, c.snr, in_)
  {
    hide RemediateNode, StoppedByNHC, Proceed, RuntimeStrategy, Finished, StoredPhase;
    ProceedKeepsPhase(c, name, p);
    if c.snr.timedOut {
      StoppedStaysEarly(Proceed(c), name, in_, p);
    } else {
      NodeRemediationOnTrack(Proceed(c), name, in_, p);
    }
  }

  lemma ReconcileFinishes(w: World, name: string, s: Snr, turns: seq<Turn>, in_: Inputs, p: Option<Phase>)
    requires StoredPhase(w, name, p) && p != Some(FencingCompleted) && s.status.phase != Some(FencingCompleted)
    requires ReadsTarget(s, in_) && RuntimeStrategy(s.strategy, in_.outOfServiceGA) == OutOfServiceTaint
    ensures var v := Reconcile(w, name, s, turns, in_).0.world;
            && name in v.history && v.history[name] != []
            && (Last(v.history[name]).status.phase == Some(FencingCompleted) ==> Finished(s, in_, v))
  {
    hide Body, Send, StoredPhase, Finished, RuntimeStrategy;
    BodyOnTrack(Session(w, s, turns), name, in_, p);
    var d := Body(Session(w, s, turns), name, in_).0;
    CommitPhase(d, name, d.snr.status, p);
    if Finished(s, in_, d.world) { SendKeepsFinished(d, name, SetStatus(d.snr.status), s, in_); }
  }

  /** The finishing step: if a reconcile of any stored version of an SNR with the out-of-service strategy, shown its node as
      it is or as it was, stores the last phase, then the removal was complete or given up as the source allows, and
      the out-of-service taint is off the node. This holds in every run, for every fate of every request on the way,
      whoever else acts and whatever other SNRs there are. */
  lemma FinishingStep(worlds: seq<World>, steps: seq<Step>, k: nat)
    requires IsRun(worlds, steps) && k < |steps| && steps[k].Manager?
    requires steps[k].name in worlds[k].history && steps[k].index < |worlds[k].history[steps[k].name]|
    requires var s := worlds[k].history[steps[k].name][steps[k].index];
             ReadsTarget(s, steps[k].inputs) && RuntimeStrategy(s.strategy, steps[k].inputs.outOfServiceGA) == OutOfServiceTaint
    requires Last(worlds[k].history[steps[k].name]).status.phase != Some(FencingCompleted)
    requires var h := worlds[k + 1].history;
             steps[k].name in h && h[steps[k].name] != [] && Last(h[steps[k].name]).status.phase == Some(FencingCompleted)
    ensures var s := worlds[k].history[steps[k].name][steps[k].index];
            && MayFinish(s, steps[k].inputs, worlds[k + 1].clock)
            && !Tainted(worlds[k + 1], s.target, OUT_OF_SERVICE)
  {
    hide Reconcile, TaintExists, RuntimeStrategy, MayFinish, ReadsTarget;
    var name, i, w := steps[k].name, steps[k].index, worlds[k];
    RunIsGood(worlds, steps, k);
    assert GoodName(w, name);
    StaleIsEarly(w.history[name], w.clock, i);
    assert worlds[k + 1] == Take(w, steps[k]);
    ReconcileFinishes(w, name, w.history[name][i], steps[k].turns, steps[k].inputs, Last(w.history[name]).status.phase);
  }

  /** No version is ahead of the last one. */
  lemma StaleIsEarly(h: seq<Snr>, now: int, i: nat)
    requires GoodHistory(h, now) && i < |h| && Last(h).status.phase != Some(FencingCompleted)
    ensures h[i].status.phase != Some(FencingCompleted)
  {
    if i < |h| - 1 { HistoryIsOrdered(h, now, i, |h| - 1); }
    assert GoodSnr(Last(h), now);
  }

  /** The other strategy does not wait for anything: it finishes exactly if the pods could be deleted, whatever still
      terminates or is attached. */
  lemma ResourceDeletionDoesNotWait(c: Session, name: string, copy: NodeCopy, in_: Inputs)
    requires c.snr.status.phase == Some(RebootCompleted)
    ensures var d := Remediate(c, name, copy, in_, ResourceDeletion).0;
            d.snr.status.phase == Some(FencingCompleted) <==> NextFate(c) == Served
  {
    hide Proceed;
    ProceedMemory(c);
  }
}

/** What one undisturbed reconcile of the current SNR achieves at each station: the finalizer is released in the end, the
    workloads are dealt with as the strategy says, and what cannot be done is reported. */
module Completion {
  import opened Common
  import opened Taints
  import opened Calculator
  import opened Store
  import opened Remediation
  import opened NoOrphan
  import opened Safety
  import Progress

  /** The reconcile of the SNR as it is stored, with no faults and nobody interfering. */
  function AfterReconcile(w: World, name: string, in_: Inputs): World
    requires name in w.snrs
  {
    Reconcile(w, name, w.snrs[name], [], in_).0.world
  }

  function Outcome(w: World, name: string, in_: Inputs): Result
    requires name in w.snrs
  {
    Reconcile(w, name, w.snrs[name], [], in_).1
  }

  /** The two remediation taints, by what they are called on the node. */
  ghost predicate Schedulable(node: Node) {
    !Bears(node.taints, "remediation.medik8s.io/self-node-remediation", "NoSchedule")
  }

  ghost predicate OutOfService(node: Node) {
    Bears(node.taints, "node.kubernetes.io/out-of-service", "NoExecute")
  }

  lemma CalledOnTheNode(node: Node)
    ensures Schedulable(node) <==> !TaintExists(node.taints, NO_SCHEDULE)
    ensures OutOfService(node) <==> TaintExists(node.taints, OUT_OF_SERVICE)
  {
    hide Bears, TaintExists;
    ExistsIsBears(node.taints, NO_SCHEDULE);
    ExistsIsBears(node.taints, OUT_OF_SERVICE);
  }

  ghost predicate Present(w: World, name: string) {
    name in w.snrs && name in w.history
  }

  /** The SNR does not hold its deletion up any more. */
  ghost predicate Released(w: World, name: string) {
    name !in w.snrs || !w.snrs[name].finalizer
  }

  // Requests that nothing disturbs.

  /** Memory and server agree on the version. */
  ghost predicate InStep(c: Session, name: string) {
    c.turns == [] && Present(c.world, name) && c.world.snrs[name].version == c.snr.version
  }

  /** The copy is the node on the server. */
  ghost predicate Sees(c: Session, copy: NodeCopy) {
    copy.name in c.world.nodes && copy.node == c.world.nodes[copy.name]
  }

  /** Only nodes differ. */
  ghost predicate SameSnrs(c: Session, d: Session) {
    d.turns == c.turns && d.snr == c.snr && d.world == c.world.(nodes := d.world.nodes)
  }

  lemma RemoveArrives(c: Session, copy: NodeCopy, taint: Taint, other: Taint)
    requires c.turns == [] && Sees(c, copy) && !Matches(taint, other)
    ensures var (d, copy', err) := RemoveTaint(c, copy, taint);
            && err == NoError && SameSnrs(c, d) && Sees(d, copy') && copy'.name == copy.name
            && !Tainted(d.world, copy.name, taint)
            && (Tainted(d.world, copy.name, other) <==> Tainted(c.world, copy.name, other))
  {
    hide TaintExists, Without;
    if TaintExists(copy.node.taints, taint) {
      WithoutIsExact(copy.node.taints, taint);
      OthersStay(copy.node.taints, taint, other);
    }
  }

  /** A served removal: the finalizer is off, and an SNR under deletion that nobody else holds is gone. */
  lemma FinalizerArrives(c: Session, name: string)
    requires InStep(c, name)
    ensures var (d, err) := RemoveFinalizer(c, name);
            && err == NoError && d.turns == [] && d.world.nodes == c.world.nodes && Released(d.world, name)
            && (c.world.snrs[name].deleting && !c.world.snrs[name].foreignFinalizers ==> name !in d.world.snrs)
            && (name in d.world.snrs ==> InStep(d, name) && SameMetadata(c.world.snrs[name], d.world.snrs[name]))
  {
  }

  ghost predicate SameMetadata(s: Snr, t: Snr) {
    t.deleting == s.deleting && t.foreignFinalizers == s.foreignFinalizers
  }

  /** The finalizer is off, and whatever is left of the SNR is the copy in memory. */
  ghost predicate Releasing(s: Snr, c: Session, name: string) {
    && c.turns == [] && Released(c.world, name)
    && (name in c.world.snrs ==> InStep(c, name) && SameMetadata(s, c.world.snrs[name]))
  }

  lemma RecoverArrives(c: Session, name: string, copy: NodeCopy)
    requires InStep(c, name) && Sees(c, copy) && c.snr.finalizer == c.world.snrs[name].finalizer
    ensures forall in_ ::
              var (d, result) := RecoverNode(c, name, copy, in_);
              && result == DONE && Releasing(c.world.snrs[name], d, name)
              && copy.name in d.world.nodes && !Tainted(d.world, copy.name, NO_SCHEDULE)
              && (Tainted(d.world, copy.name, OUT_OF_SERVICE) <==> Tainted(c.world, copy.name, OUT_OF_SERVICE))
  {
    hide RemoveTaint, RemoveFinalizer, Tainted, Matches;
    assert !Matches(NO_SCHEDULE, OUT_OF_SERVICE) by { TaintsDiffer(); }
    RemoveArrives(c, copy, NO_SCHEDULE, OUT_OF_SERVICE);
    var d := RemoveTaint(c, copy, NO_SCHEDULE).0;
    if d.snr.finalizer {
      FinalizerArrives(d, name);
      SameNodes(d.world, RemoveFinalizer(d, name).0.world, copy.name);
    }
  }

  lemma TaintsDiffer()
    ensures !Matches(NO_SCHEDULE, OUT_OF_SERVICE) && !Matches(OUT_OF_SERVICE, NO_SCHEDULE)
  {
  }

  lemma SameNodes(w: World, v: World, node: string)
    requires v.nodes == w.nodes
    ensures forall taint :: Tainted(v, node, taint) <==> Tainted(w, node, taint)
  {
  }

  /** Later requests of the reconcile do not put the finalizer back, and leave the nodes alone. */
  lemma StaysReleased(s: Snr, c: Session, name: string, change: Change)
    requires Releasing(s, c, name) && !change.SetFinalizer?
    ensures var d := Send(c, name, change).0;
            Releasing(s, d, name) && d.world.nodes == c.world.nodes
  {
  }

  /** And an update removes an SNR under deletion that nobody holds any more. */
  lemma CommitRemoves(s: Snr, c: Session, name: string)
    requires Releasing(s, c, name) && s.deleting && !s.foreignFinalizers
    ensures name !in Send(c, name, SetStatus(c.snr.status)).0.world.snrs
  {
    hide Decode;
  }

  lemma Committed(w: World, name: string, in_: Inputs)
    requires Present(w, name) && Releasing(w.snrs[name], Body(Session(w, w.snrs[name], []), name, in_).0, name)
    ensures var d := Body(Session(w, w.snrs[name], []), name, in_).0;
            && Released(AfterReconcile(w, name, in_), name) && AfterReconcile(w, name, in_).nodes == d.world.nodes
            && (w.snrs[name].deleting && !w.snrs[name].foreignFinalizers ==> name !in AfterReconcile(w, name, in_).snrs)
  {
    hide Body, Send;
    var s, d := w.snrs[name], Body(Session(w, w.snrs[name], []), name, in_).0;
    StaysReleased(s, d, name, SetStatus(d.snr.status));
    if s.deleting && !s.foreignFinalizers {
      CommitRemoves(s, d, name);
    }
  }

  // The two ways a remediation ends.

  lemma FencedBody(w: World, name: string, in_: Inputs)
    requires Present(w, name) && in_.config == ConfigPresent && in_.nodeRead == NodeFromServer
    requires var s := w.snrs[name];
             && s.deleting && !s.timedOut && s.status.phase == Some(FencingCompleted)
             && s.target in w.nodes && !w.nodes[s.target].excluded && s.strategy != Unsupported
    ensures var s, c := w.snrs[name], Session(w, w.snrs[name], []);
            var (d, result) := RecoverNode(c, name, NodeCopy(s.target, w.nodes[s.target]), in_);
            Body(c, name, in_) == UpdateLastError(d, name, in_, result)
  {
    hide RecoverNode, UpdateLastError;
  }

  /** A fenced SNR that is deleted ends: the node may be scheduled to again, and the finalizer is released. */
  lemma RecoveryCompletes(w: World, name: string, in_: Inputs)
    requires Present(w, name) && in_.config == ConfigPresent && in_.nodeRead == NodeFromServer
    requires var s := w.snrs[name];
             && s.deleting && !s.timedOut && s.status.phase == Some(FencingCompleted)
             && s.target in w.nodes && !w.nodes[s.target].excluded && s.strategy != Unsupported
    ensures var s, v := w.snrs[name], AfterReconcile(w, name, in_);
            && (name !in v.snrs || !v.snrs[name].finalizer)
            && s.target in v.nodes && Schedulable(v.nodes[s.target])
            && (!s.foreignFinalizers ==> name !in v.snrs)
  {
    hide Body, RecoverNode, UpdateLastError, Send, TaintExists, Schedulable, OutOfService;
    var s, c := w.snrs[name], Session(w, w.snrs[name], []);
    var copy := NodeCopy(s.target, w.nodes[s.target]);
    FencedBody(w, name, in_);
    RecoverArrives(c, name, copy);
    var (d, result) := RecoverNode(c, name, copy, in_);
    ErrorCleared(s, d, name, in_, result);
    Committed(w, name, in_);
    CalledOnTheNode(AfterReconcile(w, name, in_).nodes[s.target]);
  }

  lemma ErrorCleared(s: Snr, c: Session, name: string, in_: Inputs, result: Result)
    requires Releasing(s, c, name)
    ensures var d := UpdateLastError(c, name, in_, result).0; Releasing(s, d, name) && d.world.nodes == c.world.nodes
  {
    hide Send;
    var text := match result.err case Some(t) => t case None => "";
    StaysReleased(s, c.(snr := c.snr.(status := c.snr.status.(lastError := text))), name, SetLastError(text));
  }

  /** An SNR that NHC stopped ends, wherever it stands: both taints are off the node, or the node is not there. */
  lemma StoppedCompletes(w: World, name: string, in_: Inputs)
    requires Present(w, name) && in_.config == ConfigPresent && (in_.nodeRead == NodeFromServer || in_.nodeRead == NodeMissing)
    requires w.snrs[name].deleting && w.snrs[name].timedOut
    ensures var s, v := w.snrs[name], AfterReconcile(w, name, in_);
            && (name !in v.snrs || !v.snrs[name].finalizer)
            && (!s.foreignFinalizers ==> name !in v.snrs)
            && (in_.nodeRead == NodeFromServer && s.target in w.nodes ==>
                  s.target in v.nodes && Schedulable(v.nodes[s.target]) && !OutOfService(v.nodes[s.target]))
  {
    hide Body, RecoverNode, RemoveTaint, RemoveFinalizer, Send, TaintExists, Matches, Schedulable, OutOfService;
    var s, c := w.snrs[name], Session(w, w.snrs[name], []);
    StoppedBody(w, name, in_);
    if in_.nodeRead == NodeFromServer && s.target in w.nodes {
      var copy := NodeCopy(s.target, w.nodes[s.target]);
      TaintsDiffer();
      RemoveArrives(c, copy, OUT_OF_SERVICE, NO_SCHEDULE);
      var (d, copy', _) := RemoveTaint(c, copy, OUT_OF_SERVICE);
      RecoverArrives(d, name, copy');
    } else {
      FinalizerArrives(c, name);
    }
    Committed(w, name, in_);
    if s.target in AfterReconcile(w, name, in_).nodes {
      CalledOnTheNode(AfterReconcile(w, name, in_).nodes[s.target]);
    }
  }

  lemma StoppedBody(w: World, name: string, in_: Inputs)
    requires Present(w, name) && in_.config == ConfigPresent && (in_.nodeRead == NodeFromServer || in_.nodeRead == NodeMissing)
    requires w.snrs[name].deleting && w.snrs[name].timedOut
    ensures var s, c := w.snrs[name], Session(w, w.snrs[name], []);
            if in_.nodeRead == NodeFromServer && s.target in w.nodes then
              var (d, copy, err) := RemoveTaint(c, NodeCopy(s.target, w.nodes[s.target]), OUT_OF_SERVICE);
              err == NoError ==> Body(c, name, in_).0 == RecoverNode(d, name, copy, in_).0
            else Body(c, name, in_).0 == RemoveFinalizer(c, name).0
  {
    hide RecoverNode, RemoveTaint, RemoveFinalizer;
  }

  // The whole way.

  /** The finalizer is put on first, and stays on. */
  ghost predicate Held(s: Snr) {
    s.finalizer || s.status.phase == None
  }

  lemma RoundHolds(w: World, name: string, in_: Inputs, others: seq<Env>)
    requires Progress.Underway(w, name) && Progress.Favourable(w.snrs[name], in_) && name in Progress.Round(w, name, in_, others).snrs
    ensures var s, t := w.snrs[name], Progress.Round(w, name, in_, others).snrs[name];
            && t.target == s.target && t.strategy == s.strategy && s.strategy != Unsupported && (Held(s) ==> t.finalizer)
  {
    hide Good, Reconcile, Progress.Advanced, ActAll, Act, ResourceDeletionCompleted;
    LastIsStored(w, name);
    Progress.ReconcileSucceeds(w, name, in_);
    ReconcileKeepsGood(w, name, |w.history[name]| - 1, [], in_);
    var (c, result) := Reconcile(w, name, w.snrs[name], [], in_);
    var tick := Tick(if result.after > 0 then result.after else 0);
    TickOnly(c.world, tick);
    ActKeepsGood(c.world, tick);
    Progress.OthersKeepSnr(Act(c.world, tick), others, name);
  }

  lemma TickOnly(w: World, e: Env)
    requires e.Tick?
    ensures Act(w, e).snrs == w.snrs && Act(w, e).history == w.history
  {
  }

  lemma {:induction false} RoundsHold(w: World, name: string, visits: seq<Progress.Visit>)
    requires Progress.Undisturbed(w, name, visits)
    ensures Progress.Underway(w, name)
    ensures Progress.Underway(Progress.Rounds(w, name, visits), name)
    ensures var s, t := w.snrs[name], Progress.Rounds(w, name, visits).snrs[name];
            && t.target == s.target && t.strategy == s.strategy
            && (visits != [] ==> s.strategy != Unsupported && (Held(s) ==> t.finalizer))
    decreases |visits|
  {
    hide Good, Progress.Round, Progress.Favourable;
    if visits != [] {
      RoundsHold(Progress.Round(w, name, visits[0].inputs, visits[0].others), name, visits[1..]);
      RoundHolds(w, name, visits[0].inputs, visits[0].others);
    }
  }

  lemma DeletedKeepsDuty(w: World, name: string)
    requires Present(w, name) && w.snrs[name].finalizer
    ensures var v := Act(w, Amend(name, Delete));
            && Present(v, name) && v.nodes == w.nodes
            && v.snrs[name] == w.snrs[name].(deleting := true, version := w.snrs[name].version + 1)
  {
  }

  /** From a new SNR to the end: fenced after five reconciles, or six with an error left over, whatever others do in
      between; and when it is then deleted, one more makes the node schedulable again and releases the finalizer. */
  lemma RemediationCompletes(w: World, name: string, visits: seq<Progress.Visit>, in_: Inputs)
    requires Progress.Undisturbed(w, name, visits) && name in w.snrs && Held(w.snrs[name])
    requires |visits| >= if w.snrs[name].status.lastError == "" then 5 else 6
    requires in_.config == ConfigPresent && in_.nodeRead == NodeFromServer
    ensures var deleted := Act(Progress.Rounds(w, name, visits), Amend(name, Delete));
            && name in deleted.snrs && deleted.snrs[name].status.phase == Some(FencingCompleted)
            && var s, v := w.snrs[name], AfterReconcile(deleted, name, in_);
              && (name !in v.snrs || !v.snrs[name].finalizer)
              && s.target in v.nodes && Schedulable(v.nodes[s.target])
              && (!deleted.snrs[name].foreignFinalizers ==> name !in v.snrs)
  {
    hide Good, Progress.Undisturbed, Progress.Rounds, Act, Schedulable, AfterReconcile;
    Progress.FencedInFiveReconciles(w, name, visits);
    RoundsHold(w, name, visits);
    var fenced := Progress.Rounds(w, name, visits);
    DeletedKeepsDuty(fenced, name);
    RecoveryCompletes(Act(fenced, Amend(name, Delete)), name, in_);
  }

  // The workloads.

  /** Nothing but the SNRs changes when their status is written. */
  lemma StatusOnly(c: Session, name: string, change: Change)
    requires c.turns == []
    ensures var d := Send(c, name, change).0;
            d.turns == [] && d.world.(snrs := c.world.snrs, history := c.world.history) == c.world
  {
    hide Decode, Changed;
  }

  lemma ErrorOnly(c: Session, name: string, in_: Inputs, result: Result)
    requires c.turns == []
    ensures var d := UpdateLastError(c, name, in_, result).0;
            d.turns == [] && d.world.(snrs := c.world.snrs, history := c.world.history) == c.world
  {
    hide Send;
    var text := match result.err case Some(t) => t case None => "";
    StatusOnly(c.(snr := c.snr.(status := c.snr.status.(lastError := text))), name, SetLastError(text));
  }

  /** A reconcile of a rebooted node changes nodes and effects only by removing the workloads. */
  lemma RemovalOnly(w: World, name: string, in_: Inputs)
    requires Present(w, name) && in_.config == ConfigPresent && in_.nodeRead == NodeFromServer
    requires var s := w.snrs[name];
             && !s.timedOut && s.status.phase == Some(RebootCompleted)
             && s.target in w.nodes && !w.nodes[s.target].excluded && s.strategy != Unsupported
    requires RemoveResources(Started(w, name), name, NodeCopy(w.snrs[name].target, w.nodes[w.snrs[name].target]), in_,
                             RuntimeStrategy(w.snrs[name].strategy, in_.outOfServiceGA)).0.turns == []
    ensures var d := RemoveResources(Started(w, name), name, NodeCopy(w.snrs[name].target, w.nodes[w.snrs[name].target]), in_,
                                     RuntimeStrategy(w.snrs[name].strategy, in_.outOfServiceGA)).0;
            AfterReconcile(w, name, in_).effects == d.world.effects && AfterReconcile(w, name, in_).nodes == d.world.nodes
  {
    hide RemoveResources, UpdateLastError, Send;
    var c := Session(w, w.snrs[name], []);
    var copy := NodeCopy(w.snrs[name].target, w.nodes[w.snrs[name].target]);
    var (d, result) := HandleRebootCompleted(Started(w, name), name, copy, in_, RuntimeStrategy(w.snrs[name].strategy, in_.outOfServiceGA));
    ErrorOnly(d, name, in_, result);
    var e := UpdateLastError(d, name, in_, result).0;
    assert Body(c, name, in_).0 == e;
    StatusOnly(e, name, SetStatus(e.snr.status));
  }

  function Started(w: World, name: string): Session
    requires name in w.snrs
  {
    Session(w, UpdateConditions(w.snrs[name], RemediationStarted), [])
  }

  /** When the node counts as rebooted its pods are deleted, or it gets the out-of-service taint, as the strategy says;
      the automatic one depends on what the cluster supports. The taint is off again at once if the workloads are gone,
      or if they had a minute since the deadline and the SNR is being deleted. */
  lemma WorkloadsByStrategy(w: World, name: string, in_: Inputs)
    requires Present(w, name) && in_.config == ConfigPresent && in_.nodeRead == NodeFromServer
    requires var s := w.snrs[name];
             && !s.timedOut && s.status.phase == Some(RebootCompleted)
             && s.target in w.nodes && !w.nodes[s.target].excluded && s.strategy != Unsupported
    ensures var s, v := w.snrs[name], AfterReconcile(w, name, in_);
            var deadline := s.status.timeAssumedRebooted;
            && (s.strategy == ResourceDeletion || (s.strategy == Automatic && !in_.outOfServiceGA) ==>
                  v.nodes == w.nodes && v.effects == w.effects + [PodsDeleted(name, s.target, w.clock, deadline)])
            && (s.strategy == OutOfServiceTaint || (s.strategy == Automatic && in_.outOfServiceGA) ==>
                  && (OutOfService(w.nodes[s.target]) ==> v.effects == w.effects)
                  && (!OutOfService(w.nodes[s.target]) ==>
                        v.effects == w.effects + [OutOfServiceAdded(name, s.target, w.clock, deadline)])
                  && s.target in v.nodes
                  && (OutOfService(v.nodes[s.target]) <==>
                      && !WorkloadsGone(in_, s.target)
                      && !(s.deleting && deadline.Some? && deadline.value.due + 60 * 1_000_000_000 <= w.clock))
                  && (OutOfService(v.nodes[s.target]) && !OutOfService(w.nodes[s.target]) ==>
                        v.nodes[s.target].taints == w.nodes[s.target].taints + [Evicting(w.clock)]))
  {
    hide RemoveResources, AfterReconcile, TaintExists, OutOfService, WorkloadsGone;
    var s := w.snrs[name];
    var strategy := RuntimeStrategy(s.strategy, in_.outOfServiceGA);
    var copy := NodeCopy(s.target, w.nodes[s.target]);
    if strategy == OutOfServiceTaint {
      EvictionArrives(Started(w, name), name, copy, in_);
    } else {
      DeletionArrives(Started(w, name), name, copy, in_, strategy);
    }
    RemovalOnly(w, name, in_);
    CalledOnTheNode(w.nodes[s.target]);
    CalledOnTheNode(AfterReconcile(w, name, in_).nodes[s.target]);
  }

  /** No pod of the node is terminating and no volume is attached to it, as far as the lists can be read. */
  ghost predicate WorkloadsGone(in_: Inputs, node: string) {
    match (in_.pods, in_.attachments)
    case (Some(pods), Some(attachments)) =>
      node !in attachments && !exists pod :: pod in pods && pod.node == node && pod.terminating
    case _ => false
  }

  lemma GoneIsCompleted(in_: Inputs, node: string)
    ensures WorkloadsGone(in_, node) <==> ResourceDeletionCompleted(in_, node)
  {
    if ResourceDeletionCompleted(in_, node) {
      assert forall pod :: pod in in_.pods.value && pod.node == node ==> !pod.terminating;
    }
  }

  /** The taint that makes Kubernetes move the workloads of a node. */
  function Evicting(now: int): Taint {
    Taint("node.kubernetes.io/out-of-service", "nodeshutdown", "NoExecute", Some(now))
  }

  lemma DeletionArrives(c: Session, name: string, copy: NodeCopy, in_: Inputs, strategy: Strategy)
    requires c.turns == [] && strategy != OutOfServiceTaint
    ensures var d := RemoveResources(c, name, copy, in_, strategy).0;
            && d.turns == [] && d.world.nodes == c.world.nodes
            && d.world.effects == c.world.effects + [PodsDeleted(name, copy.name, c.world.clock, c.snr.status.timeAssumedRebooted)]
  {
  }

  lemma EvictionArrives(c: Session, name: string, copy: NodeCopy, in_: Inputs)
    requires c.turns == [] && Sees(c, copy)
    ensures var d := RemoveResources(c, name, copy, in_, OutOfServiceTaint).0;
            var deadline := c.snr.status.timeAssumedRebooted;
            && d.turns == [] && copy.name in d.world.nodes
            && d.world.effects == c.world.effects
                 + (if TaintExists(copy.node.taints, OUT_OF_SERVICE) then []
                    else [OutOfServiceAdded(name, copy.name, c.world.clock, deadline)])
            && (TaintExists(d.world.nodes[copy.name].taints, OUT_OF_SERVICE) <==>
                && !WorkloadsGone(in_, copy.name)
                && !(c.snr.deleting && deadline.Some? && deadline.value.due + 60 * 1_000_000_000 <= c.world.clock))
            && (TaintExists(d.world.nodes[copy.name].taints, OUT_OF_SERVICE) && !TaintExists(copy.node.taints, OUT_OF_SERVICE) ==>
                  d.world.nodes[copy.name].taints == copy.node.taints + [Evicting(c.world.clock)])
  {
    hide TaintExists, RemoveTaint, WorkloadsGone, ResourceDeletionCompleted, Matches;
    GoneIsCompleted(in_, copy.name);
    TaintsDiffer();
    var (d, copy', err) := AddOutOfServiceTaint(c, name, copy);
    TaintAdded(c, name, copy);
    RemoveArrives(d, copy', OUT_OF_SERVICE, NO_SCHEDULE);
  }

  lemma TaintAdded(c: Session, name: string, copy: NodeCopy)
    requires c.turns == [] && Sees(c, copy)
    ensures var (d, copy', err) := AddOutOfServiceTaint(c, name, copy);
            && err == NoError && d.turns == [] && Sees(d, copy') && copy'.name == copy.name && d.snr == c.snr
            && d.world.clock == c.world.clock && TaintExists(copy'.node.taints, OUT_OF_SERVICE)
            && (!TaintExists(copy.node.taints, OUT_OF_SERVICE) ==> copy'.node.taints == copy.node.taints + [Evicting(c.world.clock)])
            && d.world.effects == c.world.effects
                 + (if TaintExists(copy.node.taints, OUT_OF_SERVICE) then []
                    else [OutOfServiceAdded(name, copy.name, c.world.clock, c.snr.status.timeAssumedRebooted)])
  {
    hide TaintExists;
    AppendedExists(copy.node.taints, OUT_OF_SERVICE.(timeAdded := Some(c.world.clock)), OUT_OF_SERVICE);
  }

  // What is reported.

  /** The stored SNR differs in its status and version only, and the rest of the server is as it was. */
  ghost predicate OnlyStatus(w: World, v: World, name: string, status: Status)
    requires name in w.snrs
  {
    && name in v.snrs && v.snrs[name] == w.snrs[name].(status := status, version := v.snrs[name].version)
    && v.snrs == w.snrs[name := v.snrs[name]] && v.nodes == w.nodes && v.effects == w.effects
  }

  lemma StatusStored(c: Session, name: string, change: Change)
    requires InStep(c, name) && !Gone(c.world.snrs[name]) && !change.SetFinalizer?
    ensures var (d, err) := Send(c, name, change);
            && err == NoError && InStep(d, name) && d.snr == Decode(c.snr, d.world.snrs[name])
            && OnlyStatus(c.world, d.world, name, Changed(c.world.snrs[name], change).status)
  {
  }

  /** A new error text is stored; what was stored before then replaces the memory. */
  lemma ErrorStored(s: Snr, c: Session, name: string, in_: Inputs, result: Result)
    requires InStep(c, name) && !Gone(c.world.snrs[name]) && c.world.snrs[name] == s
    requires c.snr.status == s.status.(conditions := c.snr.status.conditions)
    ensures var d := UpdateLastError(c, name, in_, result).0;
            var text := match result.err case Some(t) => t case None => "";
            && InStep(d, name) && !Gone(d.world.snrs[name]) && UpdateLastError(c, name, in_, result).1 == result
            && OnlyStatus(c.world, d.world, name, s.status.(lastError := text))
            && d.snr.status == s.status.(lastError := text,
                 conditions := if s.status.lastError == text || s.status.conditions == NO_CONDITIONS then c.snr.status.conditions
                               else s.status.conditions)
  {
    hide Send;
    var text := match result.err case Some(t) => t case None => "";
    if c.snr.status.lastError != text {
      StatusStored(c.(snr := c.snr.(status := c.snr.status.(lastError := text))), name, SetLastError(text));
    }
  }

  /** NHC stopped the remediation and it is not deleted yet: it failed, and nothing else happens. */
  lemma StoppedReported(w: World, name: string, in_: Inputs)
    requires Present(w, name) && in_.config == ConfigPresent && w.snrs[name].timedOut && !w.snrs[name].deleting
    ensures var was := w.snrs[name].status;
            OnlyStatus(w, AfterReconcile(w, name, in_), name,
                       was.(conditions := Conditions(Some(False), Some(False), was.conditions.disabled)))
    ensures Outcome(w, name, in_) == DONE
  {
    hide Send;
    var c := Session(w, UpdateConditions(w.snrs[name], TimeoutByNHC), []);
    StatusStored(c, name, SetStatus(c.snr.status));
  }

  /** Without the configuration the remediation is disabled, whatever its state. */
  lemma DisabledReported(w: World, name: string, in_: Inputs)
    requires Present(w, name) && !Gone(w.snrs[name]) && in_.config == ConfigMissing
    ensures var was := w.snrs[name].status;
            OnlyStatus(w, AfterReconcile(w, name, in_), name,
                       was.(conditions := was.conditions.(disabled := Some(True))))
    ensures Outcome(w, name, in_) == DONE
  {
    hide Send;
    var c := Session(w, SetDisabled(w.snrs[name]), []);
    StatusStored(c, name, SetStatus(c.snr.status));
  }

  /** The node of the SNR, if it is read from the server, is not there. */
  ghost predicate NodeGone(w: World, name: string, in_: Inputs) {
    name in w.snrs && (in_.nodeRead == NodeMissing || (in_.nodeRead == NodeFromServer && w.snrs[name].target !in w.nodes))
  }

  ghost predicate ReportedFailed(s: Status) {
    s.conditions.processing == Some(False) && s.conditions.succeeded == Some(False)
  }

  /** A missing node is reported as an error at once, but as a failure of the remediation only if the same error was there
      before or nothing was reported yet: storing a new error replaces the conditions in memory by the stored ones. */
  lemma MissingNodeReported(w: World, name: string, in_: Inputs)
    requires Present(w, name) && !Gone(w.snrs[name]) && in_.config == ConfigPresent && !w.snrs[name].timedOut && NodeGone(w, name, in_)
    ensures var was, v := w.snrs[name].status, AfterReconcile(w, name, in_);
            && name in v.snrs && v.snrs[name].status.lastError == in_.errorText && Outcome(w, name, in_).err == Some(in_.errorText)
            && OnlyStatus(w, v, name, was.(lastError := in_.errorText, conditions := v.snrs[name].status.conditions))
            && (ReportedFailed(v.snrs[name].status) <==>
                was.lastError == in_.errorText || was.conditions == NO_CONDITIONS || ReportedFailed(was))
  {
    hide Send, UpdateLastError, Body, OnlyStatus, UpdateConditions;
    var s := w.snrs[name];
    var c := Session(w, UpdateConditions(s, SkippedNodeNotFound), []);
    MissingBody(w, name, in_);
    FailedConditions(s);
    ErrorStored(s, c, name, in_, Failed(in_.errorText));
    var d := UpdateLastError(c, name, in_, Failed(in_.errorText)).0;
    StatusStored(d, name, SetStatus(d.snr.status));
    StatusTwice(w, d.world, Send(d, name, SetStatus(d.snr.status)).0.world, name, s.status.(lastError := in_.errorText), d.snr.status);
  }

  lemma FailedConditions(s: Snr)
    ensures UpdateConditions(s, SkippedNodeNotFound)
            == s.(status := s.status.(conditions := Conditions(Some(False), Some(False), s.status.conditions.disabled)))
  {
  }

  lemma MissingBody(w: World, name: string, in_: Inputs)
    requires name in w.snrs && in_.config == ConfigPresent && !w.snrs[name].timedOut && NodeGone(w, name, in_)
    ensures var s := w.snrs[name];
            Body(Session(w, s, []), name, in_)
            == UpdateLastError(Session(w, UpdateConditions(s, SkippedNodeNotFound), []), name, in_, Failed(in_.errorText))
  {
    hide UpdateLastError;
  }

  lemma StatusTwice(w: World, v: World, u: World, name: string, status: Status, status': Status)
    requires name in w.snrs && OnlyStatus(w, v, name, status) && OnlyStatus(v, u, name, status')
    ensures OnlyStatus(w, u, name, status') && name in u.snrs && u.snrs[name].status == status'
  {
  }

  /** An excluded node, or a strategy that is not supported: the remediation stands still. */
  lemma LeftAlone(w: World, name: string, in_: Inputs)
    requires Present(w, name) && !Gone(w.snrs[name]) && in_.config == ConfigPresent && in_.nodeRead == NodeFromServer
    requires var s := w.snrs[name];
             !s.timedOut && s.target in w.nodes && (w.nodes[s.target].excluded || s.strategy == Unsupported)
    ensures var was, v := w.snrs[name].status, AfterReconcile(w, name, in_);
            && name in v.snrs
            && OnlyStatus(w, v, name, was.(conditions := v.snrs[name].status.conditions, lastError := v.snrs[name].status.lastError))
            && Outcome(w, name, in_) == DONE
            && (w.nodes[w.snrs[name].target].excluded && was.phase != Some(FencingCompleted) ==>
                  v.snrs[name].status.conditions == Conditions(Some(True), Some(Unknown), was.conditions.disabled))
  {
    hide Send, UpdateLastError, Body, OnlyStatus, UpdateConditions, RemediateNode;
    var s := w.snrs[name];
    AloneBody(w, name, in_);
    var c := Session(w, Progress.Started(s), []);
    StartedConditions(s);
    if w.nodes[s.target].excluded {
      StatusStored(c, name, SetStatus(c.snr.status));
      SameStatus(w, Send(c, name, SetStatus(c.snr.status)).0.world, name, c.snr.status);
    } else {
      ErrorStored(s, c, name, in_, DONE);
      var d := UpdateLastError(c, name, in_, DONE).0;
      StatusStored(d, name, SetStatus(d.snr.status));
      StatusTwice(w, d.world, Send(d, name, SetStatus(d.snr.status)).0.world, name, s.status.(lastError := ""), d.snr.status);
    }
  }

  lemma SameStatus(w: World, v: World, name: string, status: Status)
    requires name in w.snrs && OnlyStatus(w, v, name, status)
    ensures name in v.snrs && v.snrs[name].status == status
  {
  }

  lemma StartedConditions(s: Snr)
    ensures var t := Progress.Started(s);
            && t == s.(status := s.status.(conditions := t.status.conditions))
            && (s.status.phase != Some(FencingCompleted) ==>
                  t.status.conditions == Conditions(Some(True), Some(Unknown), s.status.conditions.disabled))
  {
  }

  lemma AloneBody(w: World, name: string, in_: Inputs)
    requires name in w.snrs && in_.config == ConfigPresent && in_.nodeRead == NodeFromServer
    requires var s := w.snrs[name];
             !s.timedOut && s.target in w.nodes && (w.nodes[s.target].excluded || s.strategy == Unsupported)
    ensures var s := w.snrs[name];
            var c := Session(w, Progress.Started(s), []);
            Body(Session(w, s, []), name, in_)
            == if w.nodes[s.target].excluded then (c, DONE) else UpdateLastError(c, name, in_, DONE)
  {
    hide UpdateLastError;
  }

  /** The conditions after a reconcile that fails with this error: the remediation has started, unless it is complete.
      Storing a new error replaces the conditions in memory by the stored ones, if there are any. */
  function Underway(was: Status, text: string): Conditions {
    if was.phase != Some(FencingCompleted) && (was.lastError == text || was.conditions == NO_CONDITIONS)
    then Conditions(Some(True), Some(Unknown), was.conditions.disabled)
    else was.conditions
  }

  /** Why a remediation does not go on, other than for an API error. */
  function Refusal(s: Snr, node: Node, agentPod: bool): Option<string> {
    if s.status.phase == None && (!agentPod || !IsRebootCapable(node.annotations)) then Some("Node is not capable to reboot itself")
    else if s.status.phase == Some(Unrecognised) then Some("unknown phase")
    else None
  }

  /** A node that cannot reboot itself or has no agent is not touched, nor is one in an unknown phase: the error is
      reported, and the remediation waits. */
  lemma RefusalReported(w: World, name: string, in_: Inputs)
    requires Present(w, name) && !Gone(w.snrs[name]) && in_.config == ConfigPresent && in_.nodeRead == NodeFromServer
    requires var s := w.snrs[name];
             && !s.timedOut && s.strategy != Unsupported && s.target in w.nodes && !w.nodes[s.target].excluded
             && Refusal(s, w.nodes[s.target], in_.agentPod).Some?
    ensures var was, v, text := w.snrs[name].status, AfterReconcile(w, name, in_), Refusal(w.snrs[name], w.nodes[w.snrs[name].target], in_.agentPod);
            && name in v.snrs && Outcome(w, name, in_).err == text
            && OnlyStatus(w, v, name, was.(lastError := text.value, conditions := Underway(was, text.value)))
  {
    hide Send, UpdateLastError, Body, OnlyStatus, UpdateConditions, RemediateNode, Refusal;
    var s := w.snrs[name];
    var text := Refusal(s, w.nodes[s.target], in_.agentPod).value;
    var c := Session(w, Progress.Started(s), []);
    RefusalBody(w, name, in_);
    StartedConditions(s);
    ErrorStored(s, c, name, in_, Failed(text));
    var d := UpdateLastError(c, name, in_, Failed(text)).0;
    StatusStored(d, name, SetStatus(d.snr.status));
    StatusTwice(w, d.world, Send(d, name, SetStatus(d.snr.status)).0.world, name, s.status.(lastError := text), d.snr.status);
  }

  lemma RefusalBody(w: World, name: string, in_: Inputs)
    requires name in w.snrs && in_.config == ConfigPresent && in_.nodeRead == NodeFromServer
    requires var s := w.snrs[name];
             && !s.timedOut && s.strategy != Unsupported && s.target in w.nodes && !w.nodes[s.target].excluded
             && Refusal(s, w.nodes[s.target], in_.agentPod).Some?
    ensures var s := w.snrs[name];
            Body(Session(w, s, []), name, in_)
            == UpdateLastError(Session(w, Progress.Started(s), []), name, in_, Failed(Refusal(s, w.nodes[s.target], in_.agentPod).value))
  {
    hide UpdateLastError, IsRebootCapable;
  }

  /** When the configuration cannot be read nothing changes, nor when the node of a stopped SNR cannot be read: in
      particular the finalizer stays. Otherwise an unreadable node changes nothing but the report. */
  lemma UnreadableReported(w: World, name: string, in_: Inputs)
    requires Present(w, name) && !Gone(w.snrs[name]) && Unreadable(w.snrs[name], in_)
    ensures var was, v := w.snrs[name].status, AfterReconcile(w, name, in_);
            && Outcome(w, name, in_).err == Some(in_.errorText)
            && (in_.config == ConfigUnreadable || w.snrs[name].timedOut ==> OnlyStatus(w, v, name, was))
            && (in_.config == ConfigPresent && !w.snrs[name].timedOut ==>
                  OnlyStatus(w, v, name, was.(lastError := in_.errorText, conditions := Underway(was, in_.errorText))))
  {
    hide Send, UpdateLastError, Body, OnlyStatus, UpdateConditions;
    var s := w.snrs[name];
    UnreadableBody(w, name, in_);
    if in_.config == ConfigUnreadable || s.timedOut {
      StatusStored(Session(w, s, []), name, SetStatus(s.status));
    } else {
      var c := Session(w, Progress.Started(s), []);
      StartedConditions(s);
      ErrorStored(s, c, name, in_, Failed(in_.errorText));
      var d := UpdateLastError(c, name, in_, Failed(in_.errorText)).0;
      StatusStored(d, name, SetStatus(d.snr.status));
      StatusTwice(w, d.world, Send(d, name, SetStatus(d.snr.status)).0.world, name, s.status.(lastError := in_.errorText), d.snr.status);
    }
  }

  /** The reconcile needs something that it cannot read. */
  ghost predicate Unreadable(s: Snr, in_: Inputs) {
    || in_.config == ConfigUnreadable
    || (in_.config == ConfigPresent && in_.nodeRead == NodeUnreadable && (s.timedOut ==> s.deleting))
  }

  lemma UnreadableBody(w: World, name: string, in_: Inputs)
    requires name in w.snrs && Unreadable(w.snrs[name], in_)
    ensures var s := w.snrs[name];
            Body(Session(w, s, []), name, in_)
            == if in_.config == ConfigUnreadable || s.timedOut then (Session(w, s, []), Failed(in_.errorText))
               else UpdateLastError(Session(w, Progress.Started(s), []), name, in_, Failed(in_.errorText))
  {
    hide UpdateLastError;
  }

  /** The first thing a remediation does is to put the finalizer on, before it touches the node; then it asks to be
      called again at once. */
  lemma FinalizerFirst(w: World, name: string, in_: Inputs)
    requires Present(w, name) && in_.config == ConfigPresent && in_.nodeRead == NodeFromServer && in_.agentPod
    requires var s := w.snrs[name];
             && !s.deleting && !s.timedOut && s.strategy != Unsupported && s.status.phase == None && !s.finalizer
             && s.target in w.nodes && !w.nodes[s.target].excluded && IsRebootCapable(w.nodes[s.target].annotations)
    ensures var v := AfterReconcile(w, name, in_);
            && name in v.snrs && v.snrs[name].finalizer && v.snrs[name].status.phase == None
            && v.nodes == w.nodes && v.effects == w.effects && Outcome(w, name, in_) == Result(true, 0, None)
  {
    hide Send, UpdateLastError, Body, AddFinalizer;
    var s := w.snrs[name];
    var c := Session(w, Progress.Started(s), []);
    FirstBody(w, name, in_);
    FinalizerAdded(c, name, in_);
    var (d, result) := AddFinalizer(c, name, in_);
    Progress.LastErrorCleared(d, name, in_, result);
    ErrorOnly(d, name, in_, result);
    var e := UpdateLastError(d, name, in_, result).0;
    Progress.SendArrives(e, name, SetStatus(e.snr.status));
    StatusOnly(e, name, SetStatus(e.snr.status));
  }

  lemma FinalizerAdded(c: Session, name: string, in_: Inputs)
    requires Progress.InStep(c, name) && c.snr.status.phase == None && c.world.snrs[name].status.phase == None
    ensures var (d, result) := AddFinalizer(c, name, in_);
            && result == Result(true, 0, None) && Progress.InStep(d, name) && d.snr.status.phase == None
            && d.world.snrs[name].status.phase == None && d.world.snrs[name].finalizer
            && d.world.nodes == c.world.nodes && d.world.effects == c.world.effects
  {
    hide Send;
    var putting := c.(snr := c.snr.(finalizer := true));
    Progress.SendArrives(putting, name, SetFinalizer(true));
    StatusOnly(putting, name, SetFinalizer(true));
  }

  lemma FirstBody(w: World, name: string, in_: Inputs)
    requires Present(w, name) && in_.config == ConfigPresent && in_.nodeRead == NodeFromServer && in_.agentPod
    requires var s := w.snrs[name];
             && !s.deleting && !s.timedOut && s.strategy != Unsupported && s.status.phase == None && !s.finalizer
             && s.target in w.nodes && !w.nodes[s.target].excluded && IsRebootCapable(w.nodes[s.target].annotations)
    ensures var s := w.snrs[name];
            var (d, result) := AddFinalizer(Session(w, Progress.Started(s), []), name, in_);
            Body(Session(w, s, []), name, in_) == UpdateLastError(d, name, in_, result)
  {
    hide UpdateLastError, AddFinalizer, IsRebootCapable;
  }

  /** A reconcile that loses the race for the final update has written nothing with it, and comes back within a second,
      unless it failed anyway. */
  lemma RaceIsRetried(w: World, name: string, snapshot: Snr, in_: Inputs)
    requires var d := Body(Session(w, snapshot, []), name, in_).0;
             d.turns == [] && Present(d.world, name) && d.world.snrs[name].version != d.snr.version
    ensures var (d, result) := Body(Session(w, snapshot, []), name, in_);
            var (e, result') := Reconcile(w, name, snapshot, [], in_);
            && e == d && (result.err.Some? ==> result' == result)
            && (result.err == None ==>
                  && result'.err == None && 0 < result'.after <= 1_000_000_000
                  && (0 < result.after <= 1_000_000_000 ==> result'.after == result.after))
  {
    hide Body;
  }
}

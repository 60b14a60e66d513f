/** One reconcile of the manager, as a function of the server, the SNR it read, and everything that happens
    while it runs. */
module Remediation {
  import opened Common
  import opened Taints
  import opened Calculator
  import opened Store

  const OUT_OF_SERVICE_TIMEOUT := MINUTE

  datatype ConfigRead = ConfigPresent | ConfigMissing | ConfigUnreadable

  /** The node the SNR names, as read: from the server, or from a cache that may hold anything. */
  datatype NodeRead = NodeFromServer | NodeFromCache(name: string, node: Node) | NodeMissing | NodeUnreadable

  datatype Pod = Pod(node: string, terminating: bool)

  datatype Inputs = Inputs(
    config: ConfigRead,
    nodeRead: NodeRead,
    agentPod: bool,               // an agent pod runs on the node
    spec: Option<ConfigSpec>,     // the configuration given to the calculator
    workers: Option<nat>,         // the workers it lists, None if that fails
    pods: Option<seq<Pod>>,       // all pods, None if they cannot be listed
    attachments: Option<seq<string>>,   // the nodes of all volume attachments, likewise
    outOfServiceGA: bool,         // decides the automatic strategy
    errorText: string)            // text of an API error

  datatype Result = Result(requeue: bool, after: int, err: Option<string>)

  const DONE := Result(false, 0, None)

  function Failed(text: string): Result {
    Result(false, 0, Some(text))
  }

  /** The node in memory. */
  datatype NodeCopy = NodeCopy(name: string, node: Node)

  // Changes of the SNR in memory.

  datatype Reason = RemediationStarted | FinishedSuccessfully | TimeoutByNHC | SkippedNodeNotFound

  function UpdateConditions(s: Snr, reason: Reason): Snr {
    var (processing, succeeded) :=
      match reason
      case RemediationStarted => (True, Unknown)
      case FinishedSuccessfully => (False, True)
      case TimeoutByNHC => (False, False)
      case SkippedNodeNotFound => (False, False);
    s.(status := s.status.(conditions := s.status.conditions.(processing := Some(processing), succeeded := Some(succeeded))))
  }

  function SetPhase(s: Snr, phase: Phase): Snr {
    s.(status := s.status.(phase := Some(phase)))
  }

  function SetDisabled(s: Snr): Snr {
    s.(status := s.status.(conditions := s.status.conditions.(disabled := Some(True))))
  }

  function RuntimeStrategy(strategy: Strategy, outOfServiceGA: bool): Strategy {
    if strategy != Automatic then strategy
    else if outOfServiceGA then OutOfServiceTaint
    else ResourceDeletion
  }

  // Requests.

  /** Replaces the taints of the node; the answer refreshes the copy. */
  function WriteTaints(c: Session, copy: NodeCopy, taints: seq<Taint>): (Session, NodeCopy, ApiError) {
    var (d, err) := PatchTaints(c, copy.name, taints);
    (d, if err == NoError && copy.name in d.world.nodes then copy.(node := d.world.nodes[copy.name]) else copy, err)
  }

  function RemoveTaint(c: Session, copy: NodeCopy, taint: Taint): (Session, NodeCopy, ApiError) {
    if !TaintExists(copy.node.taints, taint) then (c, copy, NoError)
    else WriteTaints(c, copy, Without(copy.node.taints, taint))
  }

  function AddTaint(c: Session, copy: NodeCopy, taint: Taint): (Session, NodeCopy, ApiError) {
    if TaintExists(copy.node.taints, taint) then (c, copy, NoError)
    else WriteTaints(c, copy, copy.node.taints + [taint.(timeAdded := Some(c.world.clock))])
  }

  function Note(w: World, e: Effect): World {
    w.(effects := w.effects + [e])
  }

  /** The out-of-service taint evicts the workloads, so it is noted when it reaches the server. */
  function AddOutOfServiceTaint(c: Session, name: string, copy: NodeCopy): (Session, NodeCopy, ApiError) {
    var (d, copy', err) := AddTaint(c, copy, OUT_OF_SERVICE);
    var arrived := !TaintExists(copy.node.taints, OUT_OF_SERVICE) && (err == NoError || (err == OtherError && NextFate(c) == AnswerLost));
    (if arrived then d.(world := Note(d.world, OutOfServiceAdded(name, copy.name, d.world.clock, d.snr.status.timeAssumedRebooted))) else d,
     copy', err)
  }

  /** Deleting pods may stop half way, so it is noted even if it fails. */
  function DeletePods(c: Session, name: string, copy: NodeCopy): (Session, bool) {
    var d := Proceed(c);
    (d.(world := Note(d.world, PodsDeleted(name, copy.name, d.world.clock, d.snr.status.timeAssumedRebooted))), NextFate(c) == Served)
  }

  function RemoveFinalizer(c: Session, name: string): (Session, ApiError) {
    Send(c.(snr := c.snr.(finalizer := false)), name, SetFinalizer(false))
  }

  function AddFinalizer(c: Session, name: string, in_: Inputs): (Session, Result) {
    if c.snr.deleting then (c, DONE)
    else
      var (d, err) := Send(c.(snr := c.snr.(finalizer := true)), name, SetFinalizer(true));
      match err
      case NoError => (d, Result(true, 0, None))
      case Conflict => (d, Result(false, SECOND, None))
      case _ => (d, Failed(in_.errorText))
  }

  datatype NodeResult = Found(copy: NodeCopy) | Missing | Unreadable

  function GetNode(c: Session, in_: Inputs): (Session, NodeResult) {
    var d := Proceed(c);
    if NextFate(c) != Served then (d, Unreadable)
    else match in_.nodeRead
         case NodeUnreadable => (d, Unreadable)
         case NodeMissing => (d, Missing)
         case NodeFromCache(name, node) => (d, Found(NodeCopy(name, node)))
         case NodeFromServer =>
           if d.snr.target in d.world.nodes then (d, Found(NodeCopy(d.snr.target, d.world.nodes[d.snr.target]))) else (d, Missing)
  }

  /** Stores the error of this reconcile, if it is a different one. */
  function UpdateLastError(c: Session, name: string, in_: Inputs, result: Result): (Session, Result) {
    var text := match result.err case Some(t) => t case None => "";
    if c.snr.status.lastError == text then (c, result)
    else
      var d := c.(snr := c.snr.(status := c.snr.status.(lastError := text)));
      var (e, err) := Send(d, name, SetLastError(text));
      (e, if err == NoError then result else Failed(in_.errorText))
  }

  // The phases.

  function RecoverNode(c: Session, name: string, copy: NodeCopy, in_: Inputs): (Session, Result) {
    var (d, copy', err) := RemoveTaint(c, copy, NO_SCHEDULE);
    if err != NoError then (d, Failed(in_.errorText))
    else if !d.snr.finalizer then (d, DONE)
    else
      var (e, err') := RemoveFinalizer(d, name);
      (e, if err' == NoError then DONE else Failed(in_.errorText))
  }

  /** Computing the duration needs the configuration, and asks the server for the workers. */
  function SetTimeAssumedRebooted(c: Session, copy: NodeCopy, in_: Inputs): (Session, bool) {
    if c.snr.status.timeAssumedRebooted.Some? then (c, true)
    else
      var d := Proceed(c);
      if NextFate(c) != Served || in_.spec == None || in_.workers == None then (d, false)
      else
        var basis := Basis(in_.spec.value, copy.node.annotations, in_.workers.value);
        var deadline := Deadline(WholeSeconds(d.world.clock + RebootDuration(basis)), d.world.clock, basis);
        (d.(snr := d.snr.(status := d.snr.status.(timeAssumedRebooted := Some(deadline)))), true)
  }

  function PrepareReboot(c: Session, name: string, copy: NodeCopy, in_: Inputs): (Session, Result) {
    if !in_.agentPod || !IsRebootCapable(copy.node.annotations) then (c, Failed("Node is not capable to reboot itself"))
    else if !c.snr.finalizer then AddFinalizer(c, name, in_)
    else
      var (d, copy', err) := AddTaint(c, copy, NO_SCHEDULE);
      if err != NoError then (d, Failed(in_.errorText))
      else
        var (e, ok) := SetTimeAssumedRebooted(d, copy', in_);
        if !ok then (e, Failed(in_.errorText))
        else (e.(snr := SetPhase(e.snr, PreRebootCompleted)), DONE)
  }

  /** Without a deadline the source would dereference a nil pointer; see the lemma that this cannot happen. */
  function WaitForNodeRebooted(c: Session): (Session, Result) {
    match c.snr.status.timeAssumedRebooted
    case None => (c, Failed("nil pointer"))
    case Some(deadline) =>
      if deadline.due > c.world.clock then (c, Result(false, deadline.due - c.world.clock + SECOND, None))
      else (c.(snr := SetPhase(c.snr, RebootCompleted)), DONE)
  }

  /** No pod of the node is terminating, and no volume is attached to it. */
  predicate ResourceDeletionCompleted(in_: Inputs, node: string) {
    && in_.pods.Some? && in_.attachments.Some?
    && (forall i :: 0 <= i < |in_.pods.value| ==> in_.pods.value[i] != Pod(node, true))
    && node !in in_.attachments.value
  }

  predicate ResourceDeletionExpired(s: Snr, now: int) {
    s.status.timeAssumedRebooted.Some? && s.status.timeAssumedRebooted.value.due + OUT_OF_SERVICE_TIMEOUT <= now
  }

  /** Result of removing the workloads: an error, a time to wait, or neither when it is complete. */
  function UseOutOfServiceTaint(c: Session, name: string, copy: NodeCopy, in_: Inputs): (Session, Result) {
    var (d, copy', err) := AddOutOfServiceTaint(c, name, copy);
    if err != NoError then (d, Failed(in_.errorText))
    else if !ResourceDeletionCompleted(in_, copy.name) && !ResourceDeletionExpired(d.snr, d.world.clock) then
      (d, Result(false, 5 * SECOND, None))
    else if !ResourceDeletionCompleted(in_, copy.name) && !d.snr.deleting then
      (d, Failed("Not ready to delete out-of-service taint"))
    else
      var (e, _, err') := RemoveTaint(d, copy', OUT_OF_SERVICE);
      (e, if err' == NoError then DONE else Failed(in_.errorText))
  }

  function RemoveResources(c: Session, name: string, copy: NodeCopy, in_: Inputs, strategy: Strategy): (Session, Result) {
    if strategy == OutOfServiceTaint then UseOutOfServiceTaint(c, name, copy, in_)
    else
      var (d, ok) := DeletePods(c, name, copy);
      (d, if ok then DONE else Failed(in_.errorText))
  }

  function HandleRebootCompleted(c: Session, name: string, copy: NodeCopy, in_: Inputs, strategy: Strategy): (Session, Result) {
    var (d, removed) := RemoveResources(c, name, copy, in_, strategy);
    if removed != DONE then (d, removed)
    else (d.(snr := UpdateConditions(SetPhase(d.snr, FencingCompleted), FinishedSuccessfully)), DONE)
  }

  function Remediate(c: Session, name: string, copy: NodeCopy, in_: Inputs, strategy: Strategy): (Session, Result) {
    match c.snr.status.phase
    case None => PrepareReboot(c, name, copy, in_)
    case Some(PreRebootCompleted) => WaitForNodeRebooted(c)
    case Some(RebootCompleted) => HandleRebootCompleted(c, name, copy, in_, strategy)
    case Some(FencingCompleted) => if c.snr.deleting then RecoverNode(c, name, copy, in_) else (c, DONE)
    case Some(Unrecognised) => (c, Failed("unknown phase"))
  }

  // The reconcile.

  /** NHC gave up on this remediation: clean up once it is deleted, and do nothing more until then. */
  function StoppedByNHC(c: Session, name: string, in_: Inputs): (Session, Result) {
    if !c.snr.deleting then (c.(snr := UpdateConditions(c.snr, TimeoutByNHC)), DONE)
    else
      var (d, found) := GetNode(c, in_);
      match found
      case Found(copy) =>
        var (e, copy', err) := RemoveTaint(d, copy, OUT_OF_SERVICE);
        if err != NoError then (e, Failed(in_.errorText)) else RecoverNode(e, name, copy', in_)
      case Missing =>
        var (e, err) := RemoveFinalizer(d, name);
        (e, if err == NoError then DONE else Failed(in_.errorText))
      case Unreadable => (d, Failed(in_.errorText))
  }

  /** An unsupported strategy is logged, but its error is shadowed and never returned. */
  function RemediateFound(c: Session, name: string, copy: NodeCopy, in_: Inputs): (Session, Result) {
    if copy.node.excluded then (c, DONE)
    else
      var strategy := RuntimeStrategy(c.snr.strategy, in_.outOfServiceGA);
      var (d, result) := if strategy == Unsupported then (c, DONE) else Remediate(c, name, copy, in_, strategy);
      UpdateLastError(d, name, in_, result)
  }

  function RemediateNode(c: Session, name: string, in_: Inputs): (Session, Result) {
    var started := if c.snr.status.phase == Some(FencingCompleted) then c else c.(snr := UpdateConditions(c.snr, RemediationStarted));
    var (d, found) := GetNode(started, in_);
    match found
    case Missing => UpdateLastError(d.(snr := UpdateConditions(d.snr, SkippedNodeNotFound)), name, in_, Failed(in_.errorText))
    case Unreadable => UpdateLastError(d, name, in_, Failed(in_.errorText))
    case Found(copy) => RemediateFound(d, name, copy, in_)
  }

  function Body(c: Session, name: string, in_: Inputs): (Session, Result) {
    var d := Proceed(c);
    if NextFate(c) != Served || in_.config == ConfigUnreadable then (d, Failed(in_.errorText))
    else if in_.config == ConfigMissing then (d.(snr := SetDisabled(d.snr)), DONE)
    else if d.snr.timedOut then StoppedByNHC(d, name, in_)
    else RemediateNode(d, name, in_)
  }

  /** A conflict of the final status update only asks for a retry. */
  function AfterCommit(result: Result, err: ApiError, in_: Inputs): Result {
    match err
    case NoError => result
    case Conflict =>
      if result.err.Some? then result
      else result.(after := if 0 < result.after < SECOND then result.after else SECOND)
    case _ => Failed(in_.errorText)
  }

  /** Whatever the body does, the status in memory is written back at the end. */
  function Reconcile(w: World, name: string, snapshot: Snr, turns: seq<Turn>, in_: Inputs): (Session, Result) {
    var (c, result) := Body(Session(w, snapshot, turns), name, in_);
    var (d, err) := Send(c, name, SetStatus(c.snr.status));
    (d, AfterCommit(result, err, in_))
  }
}

/** Time and the record of stored versions only ever grow, and the effects a reconcile puts on record are
    those of its SNR. */
module Growth {
  import opened Common
  import opened Taints
  import opened Store
  import opened Remediation
  import opened Safety

  /** The new world is later, and only the named SNR has affected workloads since. */
  ghost predicate Touches(w: World, v: World, name: string) {
    Later(w, v) && forall i :: |w.effects| <= i < |v.effects| ==> v.effects[i].snr == name
  }

  /** Later, and nobody has affected workloads since. */
  ghost predicate Quiet(w: World, v: World) {
    Later(w, v) && v.effects == w.effects
  }

  lemma Still(w: World)
    ensures Quiet(w, w)
  {
  }

  lemma LaterTrans(u: World, v: World, w: World)
    requires Later(u, v) && Later(v, w)
    ensures Later(u, w)
  {
  }

  lemma QuietTrans(u: World, v: World, w: World)
    requires Quiet(u, v) && Quiet(v, w)
    ensures Quiet(u, w)
  {
  }

  lemma TouchesTrans(u: World, v: World, w: World, name: string)
    requires Touches(u, v, name) && Touches(v, w, name)
    ensures Touches(u, w, name)
  {
    LaterTrans(u, v, w);
    forall i | |u.effects| <= i < |w.effects| ensures w.effects[i].snr == name {
      if i < |v.effects| { assert w.effects[i] == v.effects[i]; }
    }
  }

  lemma QuietTouches(w: World, v: World, name: string)
    requires Quiet(w, v)
    ensures Touches(w, v, name)
  {
  }

  lemma NoteTouches(w: World, e: Effect)
    ensures Touches(w, Note(w, e), e.snr)
  {
  }

  lemma ActGrows(w: World, e: Env)
    ensures Quiet(w, Act(w, e))
  {
  }

  lemma {:induction false} ActAllGrows(w: World, es: seq<Env>)
    ensures Quiet(w, ActAll(w, es))
    decreases |es|
  {
    hide Act, Quiet;
    if es != [] {
      ActGrows(w, es[0]);
      ActAllGrows(Act(w, es[0]), es[1..]);
      QuietTrans(w, Act(w, es[0]), ActAll(w, es));
    } else {
      Still(w);
    }
  }

  lemma ProceedGrows(c: Session)
    ensures Quiet(c.world, Proceed(c).world)
  {
    hide Quiet;
    if c.turns != [] { ActAllGrows(c.world, c.turns[0].others); } else { Still(c.world); }
  }

  lemma PersistGrows(w: World, name: string, s: Snr)
    requires name in w.history
    ensures Quiet(w, Persist(w, name, s))
  {
  }

  lemma SendGrows(c: Session, name: string, change: Change)
    ensures Quiet(c.world, Send(c, name, change).0.world)
  {
    hide Proceed, Decode, Changed, Persist, Quiet;
    ProceedGrows(c);
    var d := Proceed(c);
    if name in d.world.snrs && name in d.world.history {
      var v := Persist(d.world, name, Changed(d.world.snrs[name], change));
      PersistGrows(d.world, name, Changed(d.world.snrs[name], change));
      QuietTrans(c.world, d.world, v);
    }
  }

  lemma WriteGrows(c: Session, copy: NodeCopy, taints: seq<Taint>)
    ensures Quiet(c.world, WriteTaints(c, copy, taints).0.world)
  {
    hide Proceed;
    ProceedGrows(c);
  }

  lemma TaintsGrow(c: Session, copy: NodeCopy, taint: Taint)
    ensures Quiet(c.world, AddTaint(c, copy, taint).0.world)
    ensures Quiet(c.world, RemoveTaint(c, copy, taint).0.world)
  {
    hide WriteTaints, Quiet;
    Still(c.world);
    WriteGrows(c, copy, copy.node.taints + [taint.(timeAdded := Some(c.world.clock))]);
    WriteGrows(c, copy, Without(copy.node.taints, taint));
  }

  lemma RecoverGrows(c: Session, name: string, copy: NodeCopy, in_: Inputs)
    ensures Quiet(c.world, RecoverNode(c, name, copy, in_).0.world)
  {
    hide RemoveTaint, Send, Quiet;
    TaintsGrow(c, copy, NO_SCHEDULE);
    var d := RemoveTaint(c, copy, NO_SCHEDULE).0;
    SendGrows(d.(snr := d.snr.(finalizer := false)), name, SetFinalizer(false));
    QuietTrans(c.world, d.world, RemoveFinalizer(d, name).0.world);
  }

  lemma PrepareGrows(c: Session, name: string, copy: NodeCopy, in_: Inputs)
    ensures Quiet(c.world, PrepareReboot(c, name, copy, in_).0.world)
  {
    hide AddTaint, Send, Proceed, Quiet;
    Still(c.world);
    SendGrows(c.(snr := c.snr.(finalizer := true)), name, SetFinalizer(true));
    TaintsGrow(c, copy, NO_SCHEDULE);
    var d := AddTaint(c, copy, NO_SCHEDULE).0;
    ProceedGrows(d);
    QuietTrans(c.world, d.world, Proceed(d).world);
  }

  lemma DeletionTouches(c: Session, name: string, copy: NodeCopy)
    ensures Touches(c.world, DeletePods(c, name, copy).0.world, name)
  {
    hide Proceed, Touches, Quiet, Note;
    ProceedGrows(c);
    var d := Proceed(c);
    var e := PodsDeleted(name, copy.name, d.world.clock, d.snr.status.timeAssumedRebooted);
    QuietTouches(c.world, d.world, name);
    NoteTouches(d.world, e);
    TouchesTrans(c.world, d.world, Note(d.world, e), name);
  }

  lemma AddOutOfServiceTouches(c: Session, name: string, copy: NodeCopy)
    ensures Touches(c.world, AddOutOfServiceTaint(c, name, copy).0.world, name)
  {
    hide AddTaint, Touches, Quiet, Note, TaintExists;
    TaintsGrow(c, copy, OUT_OF_SERVICE);
    var d := AddTaint(c, copy, OUT_OF_SERVICE).0;
    var e := OutOfServiceAdded(name, copy.name, d.world.clock, d.snr.status.timeAssumedRebooted);
    QuietTouches(c.world, d.world, name);
    NoteTouches(d.world, e);
    TouchesTrans(c.world, d.world, Note(d.world, e), name);
  }

  lemma RemovalTouches(c: Session, name: string, copy: NodeCopy, in_: Inputs, strategy: Strategy)
    ensures Touches(c.world, RemoveResources(c, name, copy, in_, strategy).0.world, name)
  {
    hide AddOutOfServiceTaint, RemoveTaint, DeletePods, Touches, Quiet;
    DeletionTouches(c, name, copy);
    AddOutOfServiceTouches(c, name, copy);
    var (d, copy', _) := AddOutOfServiceTaint(c, name, copy);
    TaintsGrow(d, copy', OUT_OF_SERVICE);
    var e := RemoveTaint(d, copy', OUT_OF_SERVICE).0;
    QuietTouches(d.world, e.world, name);
    TouchesTrans(c.world, d.world, e.world, name);
  }

  lemma RemediateTouches(c: Session, name: string, copy: NodeCopy, in_: Inputs, strategy: Strategy)
    ensures Touches(c.world, Remediate(c, name, copy, in_, strategy).0.world, name)
  {
    hide PrepareReboot, RemoveResources, RecoverNode, Touches, Quiet;
    Still(c.world);
    QuietTouches(c.world, c.world, name);
    PrepareGrows(c, name, copy, in_);
    QuietTouches(c.world, PrepareReboot(c, name, copy, in_).0.world, name);
    RemovalTouches(c, name, copy, in_, strategy);
    RecoverGrows(c, name, copy, in_);
    QuietTouches(c.world, RecoverNode(c, name, copy, in_).0.world, name);
  }

  lemma LastErrorGrows(c: Session, name: string, in_: Inputs, result: Result)
    ensures Quiet(c.world, UpdateLastError(c, name, in_, result).0.world)
  {
    hide Send, Quiet;
    Still(c.world);
    var text := match result.err case Some(t) => t case None => "";
    SendGrows(c.(snr := c.snr.(status := c.snr.status.(lastError := text))), name, SetLastError(text));
  }

  lemma StoppedGrows(c: Session, name: string, in_: Inputs)
    ensures Quiet(c.world, StoppedByNHC(c, name, in_).0.world)
  {
    hide RemoveTaint, RemoveFinalizer, RecoverNode, Proceed, Quiet;
    Still(c.world);
    ProceedGrows(c);
    var (d, found) := GetNode(c, in_);
    match found
    case Found(copy) =>
      TaintsGrow(d, copy, OUT_OF_SERVICE);
      var (e, copy', _) := RemoveTaint(d, copy, OUT_OF_SERVICE);
      QuietTrans(c.world, d.world, e.world);
      RecoverGrows(e, name, copy', in_);
      QuietTrans(c.world, e.world, RecoverNode(e, name, copy', in_).0.world);
    case Missing =>
      RemoveFinalizerGrows(d, name);
      QuietTrans(c.world, d.world, RemoveFinalizer(d, name).0.world);
    case Unreadable =>
  }

  lemma RemoveFinalizerGrows(c: Session, name: string)
    ensures Quiet(c.world, RemoveFinalizer(c, name).0.world)
  {
    hide Send, Quiet;
    SendGrows(c.(snr := c.snr.(finalizer := false)), name, SetFinalizer(false));
  }

  lemma RemediateFoundTouches(c: Session, name: string, copy: NodeCopy, in_: Inputs)
    ensures Touches(c.world, RemediateFound(c, name, copy, in_).0.world, name)
  {
    hide Remediate, UpdateLastError, RuntimeStrategy, Touches, Quiet;
    Still(c.world);
    QuietTouches(c.world, c.world, name);
    var strategy := RuntimeStrategy(c.snr.strategy, in_.outOfServiceGA);
    RemediateTouches(c, name, copy, in_, strategy);
    var (d, result) := if strategy == Unsupported then (c, DONE) else Remediate(c, name, copy, in_, strategy);
    ThenLastError(c.world, d, name, in_, result);
  }

  lemma ThenLastError(w: World, c: Session, name: string, in_: Inputs, result: Result)
    requires Touches(w, c.world, name)
    ensures Touches(w, UpdateLastError(c, name, in_, result).0.world, name)
  {
    hide UpdateLastError, Touches, Quiet;
    LastErrorGrows(c, name, in_, result);
    var v := UpdateLastError(c, name, in_, result).0.world;
    QuietTouches(c.world, v, name);
    TouchesTrans(w, c.world, v, name);
  }

  lemma RemediateNodeTouches(c: Session, name: string, in_: Inputs)
    ensures Touches(c.world, RemediateNode(c, name, in_).0.world, name)
  {
    hide RemediateFound, UpdateLastError, Proceed, Touches, Quiet, UpdateConditions;
    var started := if c.snr.status.phase == Some(FencingCompleted) then c else c.(snr := UpdateConditions(c.snr, RemediationStarted));
    ProceedGrows(started);
    var (d, found) := GetNode(started, in_);
    QuietTouches(c.world, d.world, name);
    match found
    case Missing => ThenLastError(c.world, d.(snr := UpdateConditions(d.snr, SkippedNodeNotFound)), name, in_, Failed(in_.errorText));
    case Unreadable => ThenLastError(c.world, d, name, in_, Failed(in_.errorText));
    case Found(copy) =>
      RemediateFoundTouches(d, name, copy, in_);
      TouchesTrans(c.world, d.world, RemediateFound(d, name, copy, in_).0.world, name);
  }

  lemma BodyTouches(c: Session, name: string, in_: Inputs)
    ensures Touches(c.world, Body(c, name, in_).0.world, name)
    ensures c.snr.timedOut ==> Quiet(c.world, Body(c, name, in_).0.world)
  {
    hide StoppedByNHC, RemediateNode, Proceed, Touches, Quiet;
    ProceedGrows(c);
    var d := Proceed(c);
    assert d.snr == c.snr by { ProceedMemory(c); }
    QuietTouches(c.world, d.world, name);
    if d.snr.timedOut {
      StoppedGrows(d, name, in_);
      var v := StoppedByNHC(d, name, in_).0.world;
      QuietTrans(c.world, d.world, v);
      QuietTouches(c.world, v, name);
    } else {
      RemediateNodeTouches(d, name, in_);
      TouchesTrans(c.world, d.world, RemediateNode(d, name, in_).0.world, name);
    }
  }

  lemma ProceedMemory(c: Session)
    ensures Proceed(c).snr == c.snr
  {
  }

  /** A reconcile forgets nothing and puts effects on record for no other SNR; none at all for an SNR it read as stopped
      by NHC. */
  lemma ReconcileTouches(w: World, name: string, snapshot: Snr, turns: seq<Turn>, in_: Inputs)
    ensures Touches(w, Reconcile(w, name, snapshot, turns, in_).0.world, name)
    ensures snapshot.timedOut ==> Quiet(w, Reconcile(w, name, snapshot, turns, in_).0.world)
  {
    hide Body, Send, Touches, Quiet;
    var c := Session(w, snapshot, turns);
    BodyTouches(c, name, in_);
    var d := Body(c, name, in_).0;
    SendGrows(d, name, SetStatus(d.snr.status));
    var v := Send(d, name, SetStatus(d.snr.status)).0.world;
    QuietTouches(d.world, v, name);
    TouchesTrans(w, d.world, v, name);
    if snapshot.timedOut { QuietTrans(w, d.world, v); }
  }
}

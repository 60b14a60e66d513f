/** Where the out-of-service taint on a node comes from. A taint write replaces all taints of a node by those of the copy
    in memory, so a copy from a cache can bring the taint with it; this module says exactly when. */
module Eviction {
  import opened Common
  import opened Taints
  import opened Calculator
  import opened Store
  import opened Remediation
  import opened Safety
  import opened Growth
  import opened NoOrphan
  import opened ManagerRuns
  import opened Progress

  /** Effect number `i` of `v` is an addition of the taint to the node that came after `w`. */
  ghost predicate AdditionSince(w: World, v: World, node: string, i: nat) {
    |w.effects| <= i < |v.effects| && v.effects[i].OutOfServiceAdded? && v.effects[i].node == node
  }

  /** The taint was added to the node as an effect that is on record since `w`. */
  ghost predicate AddedSince(w: World, v: World, node: string) {
    exists i: nat :: AdditionSince(w, v, node, i)
  }

  /** The taint is no news: the node had it in `w`, or its addition is on record since. */
  ghost predicate Known(w: World, v: World, node: string) {
    Tainted(w, node, OUT_OF_SERVICE) || AddedSince(w, v, node)
  }

  /** No node got the out-of-service taint off the record. */
  ghost predicate Noted(w: World, v: World) {
    w.effects <= v.effects && forall node :: Tainted(v, node, OUT_OF_SERVICE) ==> Known(w, v, node)
  }

  /** Nor does the copy in memory show one. */
  ghost predicate Shows(w: World, v: World, copy: NodeCopy) {
    TaintExists(copy.node.taints, OUT_OF_SERVICE) ==> Known(w, v, copy.name)
  }

  lemma NotedSelf(w: World)
    ensures Noted(w, w)
  {
  }

  lemma KnownLater(u: World, v: World, w: World, node: string)
    requires Known(u, v, node) && u.effects <= v.effects <= w.effects
    ensures Known(u, w, node)
  {
    if !Tainted(u, node, OUT_OF_SERVICE) {
      var i: nat :| AdditionSince(u, v, node, i);
      assert AdditionSince(u, w, node, i);
    }
  }

  /** A change that gives no node the taint. */
  ghost predicate Gentle(v: World, w: World) {
    v.effects <= w.effects && forall node :: Tainted(w, node, OUT_OF_SERVICE) ==> Tainted(v, node, OUT_OF_SERVICE)
  }

  lemma GentleNoted(u: World, v: World, w: World)
    requires Noted(u, v) && Gentle(v, w)
    ensures Noted(u, w)
    ensures forall copy :: Shows(u, v, copy) ==> Shows(u, w, copy)
  {
    hide Known, TaintExists;
    forall node | Tainted(w, node, OUT_OF_SERVICE) ensures Known(u, w, node) { KnownLater(u, v, w, node); }
    forall copy | Shows(u, v, copy) ensures Shows(u, w, copy) {
      if TaintExists(copy.node.taints, OUT_OF_SERVICE) { KnownLater(u, v, w, copy.name); }
    }
  }

  // Requests.

  lemma ActGentle(w: World, e: Env)
    ensures Gentle(w, Act(w, e))
  {
    hide TaintExists, Amended;
    if e.SetNode? {
      var foreign, own := ForeignTaints(e.spec.taints), if e.node in w.nodes then OwnTaints(w.nodes[e.node].taints) else [];
      ForeignTaintsAreForeign(e.spec.taints);
      ConcatTaints(foreign, own, OUT_OF_SERVICE);
      assert Act(w, e).nodes[e.node].taints == foreign + own;
      if e.node in w.nodes { OwnIsOwn(w.nodes[e.node].taints); } else { NoTaints(OUT_OF_SERVICE); }
    }
  }

  lemma NoTaints(taint: Taint)
    ensures !TaintExists([], taint)
  {
  }

  lemma OneTaint(taint: Taint, other: Taint)
    requires !Matches(taint, other)
    ensures TaintExists([taint], taint) && !TaintExists([taint], other)
  {
    assert Matches([taint][0], taint);
  }

  lemma OwnIsOwn(taints: seq<Taint>)
    ensures TaintExists(OwnTaints(taints), OUT_OF_SERVICE) ==> TaintExists(taints, OUT_OF_SERVICE)
  {
  }

  lemma {:induction false} ActAllGentle(w: World, es: seq<Env>)
    ensures Gentle(w, ActAll(w, es))
    decreases |es|
  {
    hide Act, TaintExists;
    if es != [] {
      ActGentle(w, es[0]);
      ActAllGentle(Act(w, es[0]), es[1..]);
    }
  }

  lemma ProceedGentle(c: Session)
    ensures Gentle(c.world, Proceed(c).world)
  {
    hide TaintExists;
    if c.turns != [] { ActAllGentle(c.world, c.turns[0].others); }
  }

  lemma SendGentle(c: Session, name: string, change: Change)
    ensures Gentle(c.world, Send(c, name, change).0.world)
  {
    hide Proceed, Changed, Decode, TaintExists;
    ProceedGentle(c);
  }

  /** A write of taints none of which is news. */
  lemma WriteNoted(w: World, c: Session, copy: NodeCopy, taints: seq<Taint>)
    requires Noted(w, c.world) && (TaintExists(taints, OUT_OF_SERVICE) ==> Known(w, c.world, copy.name))
    ensures var (d, copy', err) := WriteTaints(c, copy, taints);
            Noted(w, d.world) && copy'.name == copy.name && (if err == NoError then copy'.node.taints == taints else copy' == copy)
  {
    hide Proceed, TaintExists, Known;
    ProceedGentle(c);
    GentleNoted(w, c.world, Proceed(c).world);
    var d := WriteTaints(c, copy, taints).0;
    assert d.world.effects == Proceed(c).world.effects;
    forall node | Tainted(d.world, node, OUT_OF_SERVICE) ensures Known(w, d.world, node) {
      if node == copy.name && node in d.world.nodes && d.world.nodes[node].taints == taints {
        KnownLater(w, c.world, d.world, node);
      } else {
        assert Tainted(Proceed(c).world, node, OUT_OF_SERVICE);
        SameEffects(w, Proceed(c).world, d.world, node);
      }
    }
  }

  lemma SameEffects(w: World, v: World, v': World, node: string)
    requires Known(w, v, node) && v.effects == v'.effects
    ensures Known(w, v', node)
  {
    if !Tainted(w, node, OUT_OF_SERVICE) {
      var i: nat :| AdditionSince(w, v, node, i);
      assert AdditionSince(w, v', node, i);
    }
  }

  lemma RemoveNoted(w: World, c: Session, copy: NodeCopy, taint: Taint)
    requires Noted(w, c.world)
    requires taint == OUT_OF_SERVICE || (taint == NO_SCHEDULE && (Shows(w, c.world, copy) || !TaintExists(copy.node.taints, NO_SCHEDULE)))
    ensures var (d, copy', err) := RemoveTaint(c, copy, taint);
            && Noted(w, d.world) && copy'.name == copy.name
            && (taint == OUT_OF_SERVICE && err == NoError ==> !TaintExists(copy'.node.taints, OUT_OF_SERVICE))
  {
    hide WriteTaints, Without, TaintExists, Noted, Known;
    if TaintExists(copy.node.taints, taint) {
      WithoutIsExact(copy.node.taints, taint);
      if taint == NO_SCHEDULE { OthersStay(copy.node.taints, NO_SCHEDULE, OUT_OF_SERVICE); }
      WriteNoted(w, c, copy, Without(copy.node.taints, taint));
    }
  }

  lemma AddNoScheduleNoted(w: World, c: Session, copy: NodeCopy)
    requires Noted(w, c.world) && (Shows(w, c.world, copy) || TaintExists(copy.node.taints, NO_SCHEDULE))
    ensures Noted(w, AddTaint(c, copy, NO_SCHEDULE).0.world)
  {
    hide WriteTaints, TaintExists, Noted, Known;
    if !TaintExists(copy.node.taints, NO_SCHEDULE) {
      var added := NO_SCHEDULE.(timeAdded := Some(c.world.clock));
      AppendedExists(copy.node.taints, added, OUT_OF_SERVICE);
      WriteNoted(w, c, copy, copy.node.taints + [added]);
    }
  }

  /** Adding the taint on purpose is on record whenever it reaches the server. */
  lemma AddOutOfServiceNoted(w: World, c: Session, name: string, copy: NodeCopy)
    requires Noted(w, c.world)
    ensures Noted(w, AddOutOfServiceTaint(c, name, copy).0.world)
    ensures AddOutOfServiceTaint(c, name, copy).1.name == copy.name
  {
    hide Proceed, TaintExists, Known;
    ProceedGentle(c);
    var p, d := Proceed(c).world, AddOutOfServiceTaint(c, name, copy).0.world;
    GentleNoted(w, c.world, p);
    if !TaintExists(copy.node.taints, OUT_OF_SERVICE) {
      forall node | Tainted(d, node, OUT_OF_SERVICE) ensures Known(w, d, node) {
        if NextFate(c) != Refused && copy.name in p.nodes && node == copy.name {
          LastIsAdded(w, d, node);
        } else {
          assert Tainted(p, node, OUT_OF_SERVICE);
          KnownLater(w, p, d, node);
        }
      }
    }
  }

  lemma LastIsAdded(w: World, v: World, node: string)
    requires w.effects <= v.effects && |w.effects| < |v.effects|
    requires v.effects[|v.effects| - 1].OutOfServiceAdded? && v.effects[|v.effects| - 1].node == node
    ensures Known(w, v, node)
  {
    assert AdditionSince(w, v, node, |v.effects| - 1);
  }

  // A reconcile.

  /** The remediation would write the copy back although it shows the taint: to add the NoSchedule taint before the reboot,
      or to remove it after the fencing. All other writes take the out-of-service taint off or add it on purpose. */
  predicate Careless(s: Snr, copy: NodeCopy, in_: Inputs) {
    && TaintExists(copy.node.taints, OUT_OF_SERVICE)
    && !copy.node.excluded && RuntimeStrategy(s.strategy, in_.outOfServiceGA) != Unsupported
    && (|| (&& s.status.phase == None && s.finalizer && in_.agentPod && IsRebootCapable(copy.node.annotations)
            && !TaintExists(copy.node.taints, NO_SCHEDULE))
        || (s.status.phase == Some(FencingCompleted) && s.deleting && TaintExists(copy.node.taints, NO_SCHEDULE)))
  }

  /** Known before the reconcile: it will act on a cached node that shows the taint while the node does not have it. */
  predicate WritesBack(w: World, s: Snr, in_: Inputs) {
    && in_.config == ConfigPresent && !s.timedOut && in_.nodeRead.NodeFromCache?
    && Careless(s, NodeCopy(in_.nodeRead.name, in_.nodeRead.node), in_)
    && !Tainted(w, in_.nodeRead.name, OUT_OF_SERVICE)
  }

  lemma RecoverNoted(w: World, c: Session, name: string, copy: NodeCopy, in_: Inputs)
    requires Noted(w, c.world) && (Shows(w, c.world, copy) || !TaintExists(copy.node.taints, NO_SCHEDULE))
    ensures Noted(w, RecoverNode(c, name, copy, in_).0.world)
  {
    hide RemoveTaint, Send, Noted, Shows, TaintExists, Gentle;
    RemoveNoted(w, c, copy, NO_SCHEDULE);
    var d := RemoveTaint(c, copy, NO_SCHEDULE).0;
    ThenSend(w, d.(snr := d.snr.(finalizer := false)), name, SetFinalizer(false));
  }

  lemma ThenSend(w: World, c: Session, name: string, change: Change)
    requires Noted(w, c.world)
    ensures Noted(w, Send(c, name, change).0.world)
  {
    hide Send, Noted, Gentle;
    SendGentle(c, name, change);
    GentleNoted(w, c.world, Send(c, name, change).0.world);
  }

  lemma ThenProceed(w: World, c: Session)
    requires Noted(w, c.world)
    ensures Noted(w, Proceed(c).world)
  {
    hide Proceed, Noted, Gentle;
    ProceedGentle(c);
    GentleNoted(w, c.world, Proceed(c).world);
  }

  lemma PrepareNoted(w: World, c: Session, name: string, copy: NodeCopy, in_: Inputs)
    requires Noted(w, c.world)
    requires || Shows(w, c.world, copy) || !c.snr.finalizer || !in_.agentPod || !IsRebootCapable(copy.node.annotations)
             || TaintExists(copy.node.taints, NO_SCHEDULE)
    ensures Noted(w, PrepareReboot(c, name, copy, in_).0.world)
  {
    hide AddTaint, Send, Proceed, Noted, Shows, TaintExists, IsRebootCapable;
    ThenSend(w, c.(snr := c.snr.(finalizer := true)), name, SetFinalizer(true));
    if in_.agentPod && IsRebootCapable(copy.node.annotations) && c.snr.finalizer {
      AddNoScheduleNoted(w, c, copy);
      ThenProceed(w, AddTaint(c, copy, NO_SCHEDULE).0);
    }
  }

  lemma RemovalNoted(w: World, c: Session, name: string, copy: NodeCopy, in_: Inputs, strategy: Strategy)
    requires Noted(w, c.world)
    ensures Noted(w, RemoveResources(c, name, copy, in_, strategy).0.world)
  {
    hide AddOutOfServiceTaint, RemoveTaint, Proceed, Noted, Shows, TaintExists, Gentle, ResourceDeletionCompleted;
    AddOutOfServiceNoted(w, c, name, copy);
    var (d, copy', _) := AddOutOfServiceTaint(c, name, copy);
    RemoveNoted(w, d, copy', OUT_OF_SERVICE);
    ThenProceed(w, c);
    var p := Proceed(c);
    NoteGentle(p.world, PodsDeleted(name, copy.name, p.world.clock, p.snr.status.timeAssumedRebooted));
    GentleNoted(w, p.world, DeletePods(c, name, copy).0.world);
  }

  lemma NoteGentle(w: World, e: Effect)
    ensures Gentle(w, Note(w, e))
  {
  }

  lemma RemediateFoundNoted(w: World, c: Session, name: string, copy: NodeCopy, in_: Inputs)
    requires Noted(w, c.world) && (Shows(w, c.world, copy) || !Careless(c.snr, copy, in_))
    ensures Noted(w, RemediateFound(c, name, copy, in_).0.world)
  {
    hide PrepareReboot, RemoveResources, RecoverNode, Send, Noted, TaintExists, Known, RuntimeStrategy, IsRebootCapable;
    if !copy.node.excluded {
      var strategy := RuntimeStrategy(c.snr.strategy, in_.outOfServiceGA);
      RemovalNoted(w, c, name, copy, in_, strategy);
      if strategy != Unsupported && c.snr.status.phase == None { PrepareNoted(w, c, name, copy, in_); }
      if strategy != Unsupported && c.snr.status.phase == Some(FencingCompleted) && c.snr.deleting { RecoverNoted(w, c, name, copy, in_); }
      var (d, result) := if strategy == Unsupported then (c, DONE) else Remediate(c, name, copy, in_, strategy);
      ThenLastError(w, d, name, in_, result);
    }
  }

  lemma ThenLastError(w: World, c: Session, name: string, in_: Inputs, result: Result)
    requires Noted(w, c.world)
    ensures Noted(w, UpdateLastError(c, name, in_, result).0.world)
  {
    hide Send, Noted;
    var text := match result.err case Some(t) => t case None => "";
    ThenSend(w, c.(snr := c.snr.(status := c.snr.status.(lastError := text))), name, SetLastError(text));
  }

  /** A node read from the server shows no news; one from the cache is as the reconcile was told. */
  lemma GetNodeShows(w: World, c: Session, in_: Inputs)
    requires Noted(w, c.world)
    ensures var (d, found) := GetNode(c, in_);
            && Noted(w, d.world) && d.snr == c.snr
            && (found.Found? && !in_.nodeRead.NodeFromCache? ==> Shows(w, d.world, found.copy))
            && (found.Found? && in_.nodeRead.NodeFromCache? ==> found.copy == NodeCopy(in_.nodeRead.name, in_.nodeRead.node))
  {
    hide Proceed, TaintExists, Known;
    ThenProceed(w, c);
    ProceedMemory(c);
  }

  lemma StoppedNoted(w: World, c: Session, name: string, in_: Inputs)
    requires Noted(w, c.world)
    ensures Noted(w, StoppedByNHC(c, name, in_).0.world)
  {
    hide GetNode, RemoveTaint, RecoverNode, Send, Noted, TaintExists, Known;
    GetNodeShows(w, c, in_);
    var (d, found) := GetNode(c, in_);
    match found
    case Found(copy) =>
      RemoveNoted(w, d, copy, OUT_OF_SERVICE);
      var (e, copy', err) := RemoveTaint(d, copy, OUT_OF_SERVICE);
      if err == NoError { RecoverNoted(w, e, name, copy', in_); }
    case Missing => ThenSend(w, d.(snr := d.snr.(finalizer := false)), name, SetFinalizer(false));
    case Unreadable =>
  }

  lemma RemediateNodeNoted(w: World, c: Session, name: string, in_: Inputs)
    requires Noted(w, c.world) && in_.config == ConfigPresent && !c.snr.timedOut && !WritesBack(w, c.snr, in_)
    ensures Noted(w, RemediateNode(c, name, in_).0.world)
  {
    hide GetNode, RemediateFound, UpdateLastError, Noted, TaintExists, RuntimeStrategy, IsRebootCapable;
    var started := if c.snr.status.phase == Some(FencingCompleted) then c else c.(snr := UpdateConditions(c.snr, RemediationStarted));
    GetNodeShows(w, started, in_);
    var (d, found) := GetNode(started, in_);
    match found
    case Missing => ThenLastError(w, d.(snr := UpdateConditions(d.snr, SkippedNodeNotFound)), name, in_, Failed(in_.errorText));
    case Unreadable => ThenLastError(w, d, name, in_, Failed(in_.errorText));
    case Found(copy) => RemediateFoundNoted(w, d, name, copy, in_);
  }

  /** Whatever the others do and whatever becomes of the requests: a reconcile of any version that does not write back puts
      the taint on no node off the record. */
  lemma ReconcileNoted(w: World, name: string, snapshot: Snr, turns: seq<Turn>, in_: Inputs)
    requires !WritesBack(w, snapshot, in_)
    ensures Noted(w, Reconcile(w, name, snapshot, turns, in_).0.world)
  {
    hide Send, Proceed, StoppedByNHC, RemediateNode, Noted, WritesBack;
    var c := Session(w, snapshot, turns);
    NotedSelf(w);
    ThenProceed(w, c);
    ProceedMemory(c);
    var d := Proceed(c);
    if snapshot.timedOut { StoppedNoted(w, d, name, in_); }
    if in_.config == ConfigPresent && !snapshot.timedOut { RemediateNodeNoted(w, d, name, in_); }
    var e := Body(c, name, in_).0;
    ThenSend(w, e, name, SetStatus(e.snr.status));
  }

  /** A reconcile of an SNR that NHC stopped puts the taint on no node at all, whatever node it is shown. */
  lemma StoppedSetsNoTaint(w: World, name: string, snapshot: Snr, turns: seq<Turn>, in_: Inputs, node: string)
    requires snapshot.timedOut && Tainted(Reconcile(w, name, snapshot, turns, in_).0.world, node, OUT_OF_SERVICE)
    ensures Tainted(w, node, OUT_OF_SERVICE)
  {
    hide Reconcile, TaintExists;
    ReconcileNoted(w, name, snapshot, turns, in_);
    ReconcileTouches(w, name, snapshot, turns, in_);
    assert Known(w, Reconcile(w, name, snapshot, turns, in_).0.world, node);
  }

  // One that does write back.

  /** Somebody touches the node, or creates it, before the reconcile acts; then all goes well. */
  function TouchFirst(in_: Inputs): seq<Turn>
    requires in_.nodeRead.NodeFromCache?
  {
    [Turn([SetNode(in_.nodeRead.name, in_.nodeRead.node)], Served)]
  }

  lemma WriteArrives(c: Session, copy: NodeCopy, taints: seq<Taint>)
    requires c.turns == [] && copy.name in c.world.nodes && TaintExists(taints, OUT_OF_SERVICE)
    ensures var (d, _, err) := WriteTaints(c, copy, taints);
            err == NoError && d.turns == [] && Tainted(d.world, copy.name, OUT_OF_SERVICE) && d.snr == c.snr
  {
  }

  /** Requests that change an SNR leave the nodes alone. */
  lemma SendKeepsTaint(c: Session, name: string, change: Change, node: string)
    requires c.turns == [] && Tainted(c.world, node, OUT_OF_SERVICE)
    ensures Tainted(Send(c, name, change).0.world, node, OUT_OF_SERVICE) && Send(c, name, change).0.turns == []
  {
    hide TaintExists, Decode, Changed;
  }

  lemma CarelessRemediation(c: Session, name: string, copy: NodeCopy, in_: Inputs, strategy: Strategy)
    requires c.turns == [] && copy.name in c.world.nodes && Careless(c.snr, copy, in_)
    ensures var d := Remediate(c, name, copy, in_, strategy).0; d.turns == [] && Tainted(d.world, copy.name, OUT_OF_SERVICE)
  {
    hide WriteTaints, TaintExists, Without, Send, RebootDuration;
    var added := NO_SCHEDULE.(timeAdded := Some(c.world.clock));
    if c.snr.status.phase == None {
      AppendedExists(copy.node.taints, added, OUT_OF_SERVICE);
      WriteArrives(c, copy, copy.node.taints + [added]);
    } else {
      OthersStay(copy.node.taints, NO_SCHEDULE, OUT_OF_SERVICE);
      WriteArrives(c, copy, Without(copy.node.taints, NO_SCHEDULE));
      var d := RemoveTaint(c, copy, NO_SCHEDULE).0;
      SendKeepsTaint(d.(snr := d.snr.(finalizer := false)), name, SetFinalizer(false), copy.name);
    }
  }

  lemma CarelessRemediationIsQuiet(c: Session, name: string, copy: NodeCopy, in_: Inputs, strategy: Strategy)
    requires Careless(c.snr, copy, in_)
    ensures Remediate(c, name, copy, in_, strategy).0.world.effects == c.world.effects
  {
    hide PrepareReboot, RecoverNode, TaintExists;
    PrepareGrows(c, name, copy, in_);
    RecoverGrows(c, name, copy, in_);
  }

  lemma CarelessFound(c: Session, name: string, copy: NodeCopy, in_: Inputs)
    requires c.turns == [] && copy.name in c.world.nodes && Careless(c.snr, copy, in_)
    ensures var d := RemediateFound(c, name, copy, in_).0;
            d.turns == [] && Tainted(d.world, copy.name, OUT_OF_SERVICE) && d.world.effects == c.world.effects
  {
    hide Remediate, Send, TaintExists, Quiet, RuntimeStrategy;
    var strategy := RuntimeStrategy(c.snr.strategy, in_.outOfServiceGA);
    CarelessRemediation(c, name, copy, in_, strategy);
    CarelessRemediationIsQuiet(c, name, copy, in_, strategy);
    var (d, result) := Remediate(c, name, copy, in_, strategy);
    var text := match result.err case Some(t) => t case None => "";
    var e := d.(snr := d.snr.(status := d.snr.status.(lastError := text)));
    SendKeepsTaint(e, name, SetLastError(text), copy.name);
    assert Send(e, name, SetLastError(text)).0.world.effects == e.world.effects by {
      SendGrows(e, name, SetLastError(text));
      QuietEffects(e.world, Send(e, name, SetLastError(text)).0.world);
    }
  }

  lemma QuietEffects(w: World, v: World)
    requires Quiet(w, v)
    ensures v.effects == w.effects
  {
  }

  lemma WrittenBack(w: World, name: string, s: Snr, in_: Inputs)
    requires WritesBack(w, s, in_)
    ensures var v := Reconcile(w, name, s, TouchFirst(in_), in_).0.world;
            Tainted(v, in_.nodeRead.name, OUT_OF_SERVICE) && v.effects == w.effects
  {
    hide Send, TaintExists, RemediateFound, UpdateConditions, ForeignTaints, OwnTaints;
    var node := SetNode(in_.nodeRead.name, in_.nodeRead.node);
    var c := Session(w, s, TouchFirst(in_));
    assert Proceed(c) == Session(Act(w, node), s, []) by { TouchedOnce(w, node); }
    var started := if s.status.phase == Some(FencingCompleted) then s else UpdateConditions(s, RemediationStarted);
    ConditionsAside(s, in_);
    var copy := NodeCopy(in_.nodeRead.name, in_.nodeRead.node);
    var d := Session(Act(w, node), started, []);
    CarelessFound(d, name, copy, in_);
    var e := RemediateFound(d, name, copy, in_).0;
    assert Body(c, name, in_).0 == e;
    SendKeepsTaint(e, name, SetStatus(e.snr.status), copy.name);
    SendGrows(e, name, SetStatus(e.snr.status));
  }

  lemma TouchedOnce(w: World, e: Env)
    ensures ActAll(w, [e]) == Act(w, e)
  {
    hide Act;
    assert [e][1..] == [];
    assert ActAll(Act(w, e), []) == Act(w, e);
  }

  lemma ConditionsAside(s: Snr, in_: Inputs)
    requires in_.nodeRead.NodeFromCache?
    ensures var copy := NodeCopy(in_.nodeRead.name, in_.nodeRead.node);
            Careless(UpdateConditions(s, RemediationStarted), copy, in_) == Careless(s, copy, in_)
  {
    hide TaintExists, RuntimeStrategy;
  }

  /** The exact condition, which can be checked before the reconcile: the taint gets on no node off the record, whatever
      happens meanwhile, if and only if the reconcile does not write back. */
  lemma NotedExactly(w: World, name: string, s: Snr, in_: Inputs)
    ensures (forall turns :: Noted(w, Reconcile(w, name, s, turns, in_).0.world)) <==> !WritesBack(w, s, in_)
  {
    hide Reconcile, Careless, TaintExists;
    if WritesBack(w, s, in_) {
      WrittenBack(w, name, s, in_);
      var v := Reconcile(w, name, s, TouchFirst(in_), in_).0.world;
      OffTheRecord(w, s, in_, v);
      assert !Noted(w, Reconcile(w, name, s, TouchFirst(in_), in_).0.world);
    } else {
      forall turns ensures Noted(w, Reconcile(w, name, s, turns, in_).0.world) { ReconcileNoted(w, name, s, turns, in_); }
    }
  }

  lemma OffTheRecord(w: World, s: Snr, in_: Inputs, v: World)
    requires WritesBack(w, s, in_) && Tainted(v, in_.nodeRead.name, OUT_OF_SERVICE) && v.effects == w.effects
    ensures !Noted(w, v)
  {
    hide TaintExists, Careless;
    assert !Known(w, v, in_.nodeRead.name);
  }

  // Runs.

  /** The step is a reconcile that writes back. */
  ghost predicate StepWritesBack(w: World, s: Step) {
    && s.Manager? && s.name in w.history && s.index < |w.history[s.name]|
    && WritesBack(w, w.history[s.name][s.index], s.inputs)
  }

  lemma StepNoted(w: World, s: Step)
    requires !StepWritesBack(w, s)
    ensures Noted(w, Take(w, s))
  {
    hide Reconcile, Act, WritesBack, Noted, Gentle;
    NotedSelf(w);
    match s
    case Others(e) =>
      ActGentle(w, e);
      GentleNoted(w, w, Act(w, e));
    case Manager(name, i, turns, in_) =>
      if name in w.history && i < |w.history[name]| { ReconcileNoted(w, name, w.history[name][i], turns, in_); }
  }

  lemma NotedTrans(u: World, v: World, w: World)
    requires Noted(u, v) && Noted(v, w)
    ensures Noted(u, w)
  {
    hide TaintExists;
    forall node | Tainted(w, node, OUT_OF_SERVICE) ensures Known(u, w, node) {
      assert Known(v, w, node);
      if Tainted(v, node, OUT_OF_SERVICE) {
        KnownLater(u, v, w, node);
      } else {
        var i: nat :| AdditionSince(v, w, node, i);
        assert AdditionSince(u, w, node, i);
      }
    }
  }

  lemma {:induction false} RunNoted(worlds: seq<World>, steps: seq<Step>, k: nat, m: nat)
    requires IsRun(worlds, steps) && k <= m < |worlds|
    requires forall i :: k <= i < m ==> !StepWritesBack(worlds[i], steps[i])
    ensures Noted(worlds[k], worlds[m])
  {
    hide Take, Noted, StepWritesBack, IsStart;
    if k == m {
      NotedSelf(worlds[k]);
    } else {
      RunNoted(worlds, steps, k, m - 1);
      StepNoted(worlds[m - 1], steps[m - 1]);
      assert worlds[m] == Take(worlds[m - 1], steps[m - 1]);
      NotedTrans(worlds[k], worlds[m - 1], worlds[m]);
    }
  }

  /** The effect came at or after its deadline, which lies at least the calculated minimum after it was set. */
  ghost predicate AfterDeadline(e: Effect, now: int) {
    && e.deadline.Some? && now >= e.at >= e.deadline.value.due
    && var d := e.deadline.value;
      d.due > d.computedAt + MinimumRebootDuration(d.basis.spec, d.basis.workers, EffectiveWatchdogTimeout(d.basis.annotations)) - SECOND
  }

  /** A node that did not have the out-of-service taint in state `k` and has it in state `m`, with nothing written back in
      between: its addition is on record since state `k`, at or after a persisted deadline that lies at least the
      calculated minimum after it was set. So every taint, also that of a second remediation of the node, came after a
      deadline of its own. The SNRs may be read from however long ago, and so may the nodes, as long as nothing is
      written back; before state `k` anything may have happened. */
  lemma TaintAfterDeadline(worlds: seq<World>, steps: seq<Step>, k: nat, m: nat, node: string) returns (i: nat)
    requires IsRun(worlds, steps) && k <= m < |worlds|
    requires !Tainted(worlds[k], node, OUT_OF_SERVICE) && Tainted(worlds[m], node, OUT_OF_SERVICE)
    requires forall x :: k <= x < m ==> !StepWritesBack(worlds[x], steps[x])
    ensures AdditionSince(worlds[k], worlds[m], node, i) && AfterDeadline(worlds[m].effects[i], worlds[m].clock)
  {
    hide TaintExists, StepWritesBack, Take, MinimumRebootDuration;
    RunNoted(worlds, steps, k, m);
    assert Known(worlds[k], worlds[m], node);
    i :| AdditionSince(worlds[k], worlds[m], node, i);
    WorkloadsAfterDeadline(worlds, steps, m, worlds[m].effects[i]);
  }

  /** With current reads the SNR behind the taint is still there: it targets the node, carries the finalizer, has completed
      the reboot, and its deadline has passed. */
  lemma TaintedWhileEvicting(worlds: seq<World>, steps: seq<Step>, ga: bool, m: nat, node: string) returns (name: string)
    requires IsCurrentRun(worlds, steps, ga) && m < |worlds| && Tainted(worlds[m], node, OUT_OF_SERVICE)
    ensures name in worlds[m].snrs
    ensures var s := worlds[m].snrs[name];
            && s.target == node && s.finalizer && s.status.phase == Some(RebootCompleted)
            && s.status.timeAssumedRebooted.Some? && s.status.timeAssumedRebooted.value.due <= worlds[m].clock
  {
    hide TaintExists, RuntimeStrategy, Good;
    RunIsGood(worlds, steps, m);
    RunIsTidy(worlds, steps, ga, m);
    TidyReasons(worlds[m], ga, node);
    name :| Evicts(worlds[m], ga, name, node);
    LastIsStored(worlds[m], name);
  }

  /** And nothing is written back in such runs. */
  lemma CurrentReadsWriteNothingBack(w: World, s: Step, ga: bool)
    requires ReadsCurrent(w, s, ga)
    ensures !StepWritesBack(w, s)
  {
  }

  /** Without that condition the deadline is no protection. A run of three steps: an SNR is created, a reconcile adds the
      finalizer, and the next one is shown a node from the cache that still has the out-of-service taint. The taint
      is then on the node, before the SNR has a phase, and no effect is on record. */
  lemma StaleNodeCopy() returns (worlds: seq<World>, steps: seq<Step>)
    ensures IsRun(worlds, steps) && |worlds| == 4
    ensures !Tainted(worlds[2], "n", OUT_OF_SERVICE) && Tainted(worlds[3], "n", OUT_OF_SERVICE)
    ensures "s" in worlds[2].snrs && worlds[2].snrs["s"].status.phase == None && worlds[3].effects == []
  {
    hide Reconcile, RebootDuration, MinimumOf, Good, TaintExists;
    NoTaints(NO_SCHEDULE);
    NoTaints(OUT_OF_SERVICE);
    var capable := map[IS_REBOOT_CAPABLE := "true"];
    var w0 := World(0, map[], map[], map["n" := Node([], false, capable)], []);
    var spec := ConfigSpec(15 * SECOND, 5 * SECOND, 3, 5 * SECOND, 7 * SECOND, None, None);
    var fresh_ := Inputs(ConfigPresent, NodeFromServer, true, Some(spec), Some(3), Some([]), Some([]), false, "error");
    var cached := fresh_.(nodeRead := NodeFromCache("n", Node([OUT_OF_SERVICE], false, capable)));
    var w1 := Act(w0, Create("s", ResourceDeletion, "n", false));
    assert IsStart(w0);
    StartIsGood(w0);
    ActKeepsGood(w0, Create("s", ResourceDeletion, "n", false));
    assert Underway(w1, "s") && Favourable(w1.snrs["s"], fresh_);
    ReconcileSucceeds(w1, "s", fresh_);
    var w2 := Reconcile(w1, "s", w1.snrs["s"], [], fresh_).0.world;
    ReconcileKeepsGood(w1, "s", 0, [], fresh_);
    LastIsStored(w2, "s");
    ReconcileNoted(w1, "s", w1.snrs["s"], [], fresh_);
    ReconcileTouches(w1, "s", w1.snrs["s"], [], fresh_);
    FirstReconcileIsQuiet(w1, "s", fresh_);
    assert !Tainted(w2, "n", OUT_OF_SERVICE);
    var last := |w2.history["s"]| - 1;
    OneTaint(OUT_OF_SERVICE, NO_SCHEDULE);
    assert WritesBack(w2, w2.snrs["s"], cached);
    WrittenBack(w2, "s", w2.snrs["s"], cached);
    var w3 := Reconcile(w2, "s", w2.snrs["s"], TouchFirst(cached), cached).0.world;
    worlds := [w0, w1, w2, w3];
    steps := [Others(Create("s", ResourceDeletion, "n", false)), Manager("s", 0, [], fresh_), Manager("s", last, TouchFirst(cached), cached)];
  }

  /** Before the reboot a reconcile has no effect on workloads. */
  lemma FirstReconcileIsQuiet(w: World, name: string, in_: Inputs)
    requires Underway(w, name) && Favourable(w.snrs[name], in_) && w.snrs[name].status.phase == None
    ensures Reconcile(w, name, w.snrs[name], [], in_).0.world.effects == w.effects
  {
    hide Good, Send, Body, PrepareReboot, RuntimeStrategy, Favourable, Quiet, UpdateLastError, IsRebootCapable;
    var s := w.snrs[name];
    BodyFindsNode(w, name, in_);
    var c, copy := Session(w, Started(s), []), NodeCopy(s.target, w.nodes[s.target]);
    PrepareGrows(c, name, copy, in_);
    QuietEffects(c.world, PrepareReboot(c, name, copy, in_).0.world);
    var strategy := RuntimeStrategy(c.snr.strategy, in_.outOfServiceGA);
    var (d, result) := if strategy == Unsupported then (c, DONE) else Remediate(c, name, copy, in_, strategy);
    LastErrorGrows(d, name, in_, result);
    var e := UpdateLastError(d, name, in_, result).0;
    QuietEffects(d.world, e.world);
    SendGrows(e, name, SetStatus(e.snr.status));
    QuietEffects(e.world, Send(e, name, SetStatus(e.snr.status)).0.world);
  }
}

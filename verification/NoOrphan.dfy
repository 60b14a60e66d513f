/** The two remediation taints never outlive the SNRs they belong to. Here the manager reads the current SNR and
    the current node, and the automatic strategy means the same throughout. */
module NoOrphan {
  import opened Common
  import opened Taints
  import opened Store
  import opened Remediation
  import opened Safety
  import opened Growth

  /** The SNR is responsible for the node and cannot vanish. */
  ghost predicate Guards(w: World, name: string, node: string) {
    name in w.snrs && w.snrs[name].finalizer && w.snrs[name].target == node
  }

  /** It is the one whose phase uses the out-of-service taint. */
  ghost predicate Evicts(w: World, ga: bool, name: string, node: string) {
    && Guards(w, name, node)
    && w.snrs[name].status.phase == Some(RebootCompleted)
    && RuntimeStrategy(w.snrs[name].strategy, ga) == OutOfServiceTaint
  }

  predicate Tainted(w: World, node: string, taint: Taint) {
    node in w.nodes && TaintExists(w.nodes[node].taints, taint)
  }

  /** Every node with the taint has an SNR responsible for it, other than `except`. */
  ghost predicate Guarded(w: World, except: set<string>) {
    forall node :: Tainted(w, node, NO_SCHEDULE) ==> exists name :: name !in except && Guards(w, name, node)
  }

  ghost predicate Evicted(w: World, ga: bool, except: set<string>) {
    forall node :: Tainted(w, node, OUT_OF_SERVICE) ==> exists name :: name !in except && Evicts(w, ga, name, node)
  }

  /** Nobody stopped being responsible, and no node got a remediation taint. */
  ghost predicate Preserves(w: World, v: World, ga: bool) {
    && (forall name, node :: Guards(w, name, node) ==> Guards(v, name, node))
    && (forall name, node :: Evicts(w, ga, name, node) ==> Evicts(v, ga, name, node))
    && (forall node :: Tainted(v, node, NO_SCHEDULE) ==> Tainted(w, node, NO_SCHEDULE))
    && (forall node :: Tainted(v, node, OUT_OF_SERVICE) ==> Tainted(w, node, OUT_OF_SERVICE))
  }

  lemma PreservesTidy(w: World, v: World, ga: bool, except: set<string>)
    requires Preserves(w, v, ga)
    ensures Guarded(w, except) ==> Guarded(v, except)
    ensures Evicted(w, ga, except) ==> Evicted(v, ga, except)
  {
    if Guarded(w, except) {
      forall node | Tainted(v, node, NO_SCHEDULE) ensures exists name :: name !in except && Guards(v, name, node) {
        var name :| name !in except && Guards(w, name, node);
        assert Guards(v, name, node);
      }
    }
    if Evicted(w, ga, except) {
      forall node | Tainted(v, node, OUT_OF_SERVICE) ensures exists name :: name !in except && Evicts(v, ga, name, node) {
        var name :| name !in except && Evicts(w, ga, name, node);
        assert Evicts(v, ga, name, node);
      }
    }
  }

  lemma PreservesTrans(u: World, v: World, w: World, ga: bool)
    requires Preserves(u, v, ga) && Preserves(v, w, ga)
    ensures Preserves(u, w, ga)
  {
  }

  lemma ForeignTaintsAreForeign(taints: seq<Taint>)
    ensures !TaintExists(ForeignTaints(taints), NO_SCHEDULE) && !TaintExists(ForeignTaints(taints), OUT_OF_SERVICE)
  {
    WithoutIsExact(taints, NO_SCHEDULE);
    WithoutIsExact(Without(taints, NO_SCHEDULE), OUT_OF_SERVICE);
    OthersStay(Without(taints, NO_SCHEDULE), OUT_OF_SERVICE, NO_SCHEDULE);
  }

  lemma ConcatTaints(a: seq<Taint>, b: seq<Taint>, taint: Taint)
    ensures TaintExists(a + b, taint) ==> TaintExists(a, taint) || TaintExists(b, taint)
  {
    var both := a + b;
    if i :| 0 <= i < |both| && Matches(both[i], taint) {
      if i < |a| { assert Matches(a[i], taint); } else { assert Matches(b[i - |a|], taint); }
    }
  }

  lemma SetNodePreserves(w: World, e: Env, ga: bool)
    requires e.SetNode?
    ensures Preserves(w, Act(w, e), ga)
  {
    var v := Act(w, e);
    var foreign, own := ForeignTaints(e.spec.taints), if e.node in w.nodes then OwnTaints(w.nodes[e.node].taints) else [];
    ForeignTaintsAreForeign(e.spec.taints);
    ConcatTaints(foreign, own, NO_SCHEDULE);
    ConcatTaints(foreign, own, OUT_OF_SERVICE);
    assert v.nodes[e.node].taints == foreign + own;
  }

  lemma AmendPreserves(w: World, e: Env, ga: bool)
    requires e.Amend?
    ensures Preserves(w, Act(w, e), ga)
  {
    hide RuntimeStrategy, TaintExists;
    if e.name in w.snrs && e.name in w.history {
      AmendKeepsDuties(w.snrs[e.name], e.amendment);
    }
  }

  lemma AmendKeepsDuties(s: Snr, amendment: Amendment)
    ensures var t := Amended(s, amendment);
            && t.finalizer == s.finalizer && t.target == s.target && t.status == s.status && t.strategy == s.strategy
            && (s.finalizer ==> !Gone(t))
  {
  }

  lemma ActPreserves(w: World, e: Env, ga: bool)
    requires Good(w)
    ensures Preserves(w, Act(w, e), ga)
  {
    match e
    case SetNode(_, _) => SetNodePreserves(w, e, ga);
    case Amend(_, _) => AmendPreserves(w, e, ga);
    case _ =>
  }

  lemma {:induction false} ActAllPreserves(w: World, es: seq<Env>, ga: bool)
    requires Good(w)
    ensures Preserves(w, ActAll(w, es), ga)
    decreases |es|
  {
    hide Good, Preserves, Act;
    if es == [] {
      PreservesSelf(w, ga);
    } else {
      ActKeepsGood(w, es[0]);
      ActPreserves(w, es[0], ga);
      ActAllPreserves(Act(w, es[0]), es[1..], ga);
      PreservesTrans(w, Act(w, es[0]), ActAll(w, es), ga);
    }
  }

  lemma PreservesSelf(w: World, ga: bool)
    ensures Preserves(w, w, ga)
  {
  }

  lemma ProceedPreserves(c: Session, ga: bool)
    requires Good(c.world)
    ensures Preserves(c.world, Proceed(c).world, ga)
  {
    hide Good, Preserves;
    PreservesSelf(c.world, ga);
    if c.turns != [] { ActAllPreserves(c.world, c.turns[0].others, ga); }
  }

  // A reconcile under way.

  ghost predicate Tidy(w: World, ga: bool) {
    Guarded(w, {}) && Evicted(w, ga, {})
  }

  /** What makes an SNR responsible for a node. */
  datatype Duty = Duty(phase: Option<Phase>, finalizer: bool, target: string, strategy: Strategy)

  function DutyOf(s: Snr): Duty {
    Duty(s.status.phase, s.finalizer, s.target, s.strategy)
  }

  /** The server holds the SNR with this duty: only the manager itself can change it. */
  ghost predicate Stored(w: World, name: string, duty: Duty) {
    && Good(w) && name in w.history
    && (assert GoodName(w, name); DutyOf(Last(w.history[name])) == duty)
    && (duty.finalizer ==> name in w.snrs)
  }

  lemma ActKeepsStored(w: World, e: Env, name: string, duty: Duty)
    requires Stored(w, name, duty)
    ensures Stored(Act(w, e), name, duty)
  {
    hide GoodHistory, GoodEffect, Amended, ForeignTaints, OwnTaints, Later, SameStatuses;
    ActKeepsGood(w, e);
    assert GoodName(w, name);
    assert GoodName(Act(w, e), name);
    if e.Amend? && e.name == name && name in w.snrs {
      AmendKeepsDuties(w.snrs[name], e.amendment);
    }
  }

  lemma {:induction false} ActAllKeepsStored(w: World, es: seq<Env>, name: string, duty: Duty)
    requires Stored(w, name, duty)
    ensures Stored(ActAll(w, es), name, duty)
    decreases |es|
  {
    hide Stored, Act;
    if es != [] {
      ActKeepsStored(w, es[0], name, duty);
      ActAllKeepsStored(Act(w, es[0]), es[1..], name, duty);
    }
  }

  lemma ProceedKeepsStored(c: Session, name: string, duty: Duty)
    requires Stored(c.world, name, duty)
    ensures Stored(Proceed(c).world, name, duty)
    ensures Proceed(c).snr == c.snr
  {
    hide Stored;
    if c.turns != [] { ActAllKeepsStored(c.world, c.turns[0].others, name, duty); }
  }

  ghost predicate SomeGuard(w: World, node: string) {
    exists name :: Guards(w, name, node)
  }

  ghost predicate SomeEvictor(w: World, ga: bool, node: string) {
    exists name :: Evicts(w, ga, name, node)
  }

  /** The copy of the node shows at least the remediation taints of the server, and none without reason. */
  ghost predicate Knows(w: World, ga: bool, copy: NodeCopy) {
    && (Tainted(w, copy.name, NO_SCHEDULE) ==> TaintExists(copy.node.taints, NO_SCHEDULE))
    && (Tainted(w, copy.name, OUT_OF_SERVICE) ==> TaintExists(copy.node.taints, OUT_OF_SERVICE))
    && (TaintExists(copy.node.taints, NO_SCHEDULE) ==> SomeGuard(w, copy.name))
    && (TaintExists(copy.node.taints, OUT_OF_SERVICE) ==> SomeEvictor(w, ga, copy.name))
  }

  lemma PreservesKnowledge(w: World, v: World, ga: bool, copy: NodeCopy)
    requires Preserves(w, v, ga) && Knows(w, ga, copy)
    ensures Knows(v, ga, copy)
  {
    if TaintExists(copy.node.taints, NO_SCHEDULE) {
      var name :| Guards(w, name, copy.name);
      assert Guards(v, name, copy.name);
    }
    if TaintExists(copy.node.taints, OUT_OF_SERVICE) {
      var name :| Evicts(w, ga, name, copy.name);
      assert Evicts(v, ga, name, copy.name);
    }
  }

  /** Nobody stopped being responsible. */
  ghost predicate KeepsDuties(w: World, v: World, ga: bool) {
    && (forall name, node :: Guards(w, name, node) ==> Guards(v, name, node))
    && (forall name, node :: Evicts(w, ga, name, node) ==> Evicts(v, ga, name, node))
  }

  /** Replacing the taints of one node by justified ones. */
  lemma ReplaceTaints(w: World, v: World, ga: bool, node: string, taints: seq<Taint>)
    requires Tidy(w, ga) && node in w.nodes
    requires v == w.(nodes := w.nodes[node := w.nodes[node].(taints := taints)])
    requires TaintExists(taints, NO_SCHEDULE) ==> SomeGuard(w, node)
    requires TaintExists(taints, OUT_OF_SERVICE) ==> SomeEvictor(w, ga, node)
    ensures Tidy(v, ga) && KeepsDuties(w, v, ga)
  {
    forall n | Tainted(v, n, NO_SCHEDULE) ensures exists name :: name !in {} && Guards(v, name, n) {
      if n != node { assert Tainted(w, n, NO_SCHEDULE); }
      var name :| Guards(w, name, n);
      assert name !in {} && Guards(v, name, n);
    }
    forall n | Tainted(v, n, OUT_OF_SERVICE) ensures exists name :: name !in {} && Evicts(v, ga, name, n) {
      if n != node { assert Tainted(w, n, OUT_OF_SERVICE); }
      var name :| Evicts(w, ga, name, n);
      assert name !in {} && Evicts(v, ga, name, n);
    }
  }

  ghost predicate Neat(c: Session, ga: bool, name: string, duty: Duty) {
    Stored(c.world, name, duty) && Tidy(c.world, ga)
  }

  /** Letting the others act changes nothing that matters here. */
  lemma ProceedKeepsNeat(c: Session, ga: bool, name: string, duty: Duty)
    requires Neat(c, ga, name, duty)
    ensures Neat(Proceed(c), ga, name, duty) && Proceed(c).snr == c.snr
    ensures Preserves(c.world, Proceed(c).world, ga)
  {
    hide Guarded, Evicted, Preserves, Proceed, Good;
    ProceedKeepsStored(c, name, duty);
    assert Good(c.world);
    ProceedPreserves(c, ga);
    PreservesTidy(c.world, Proceed(c).world, ga, {});
  }

  lemma ReplaceKeepsStored(w: World, v: World, name: string, duty: Duty)
    requires Stored(w, name, duty) && v == w.(nodes := v.nodes)
    ensures Stored(v, name, duty)
  {
    hide GoodName;
    SameNames(w, v);
  }

  lemma PreservesReasons(w: World, v: World, ga: bool, node: string)
    requires Preserves(w, v, ga) || KeepsDuties(w, v, ga)
    ensures SomeGuard(w, node) ==> SomeGuard(v, node)
    ensures SomeEvictor(w, ga, node) ==> SomeEvictor(v, ga, node)
  {
    if SomeGuard(w, node) { var name :| Guards(w, name, node); assert Guards(v, name, node); }
    if SomeEvictor(w, ga, node) { var name :| Evicts(w, ga, name, node); assert Evicts(v, ga, name, node); }
  }

  /** Writing justified taints to the node. */
  lemma WriteKeepsNeat(c: Session, ga: bool, name: string, duty: Duty, copy: NodeCopy, taints: seq<Taint>)
    requires Neat(c, ga, name, duty)
    requires TaintExists(taints, NO_SCHEDULE) ==> SomeGuard(c.world, copy.name)
    requires TaintExists(taints, OUT_OF_SERVICE) ==> SomeEvictor(c.world, ga, copy.name)
    ensures var (d, copy', err) := WriteTaints(c, copy, taints);
            && Neat(d, ga, name, duty) && d.snr == c.snr && copy'.name == copy.name
            && (err == NoError ==> copy'.node.taints == taints && Knows(d.world, ga, copy'))
  {
    hide Stored, Tidy, Preserves, TaintExists, Proceed, KeepsDuties, SomeGuard, SomeEvictor;
    ProceedKeepsNeat(c, ga, name, duty);
    var e := Proceed(c);
    PreservesReasons(c.world, e.world, ga, copy.name);
    if NextFate(c) != Refused && copy.name in e.world.nodes {
      var v := e.world.(nodes := e.world.nodes[copy.name := e.world.nodes[copy.name].(taints := taints)]);
      ReplaceTaints(e.world, v, ga, copy.name, taints);
      ReplaceKeepsStored(e.world, v, name, duty);
      PreservesReasons(e.world, v, ga, copy.name);
    }
  }

  /** Removing one of the two taints: after success it is off the node, and the other one is not put on. */
  lemma RemoveKeepsNeat(c: Session, ga: bool, name: string, duty: Duty, copy: NodeCopy, taint: Taint, other: Taint)
    requires Neat(c, ga, name, duty) && Knows(c.world, ga, copy)
    requires (taint == NO_SCHEDULE && other == OUT_OF_SERVICE) || (taint == OUT_OF_SERVICE && other == NO_SCHEDULE)
    ensures var (d, copy', err) := RemoveTaint(c, copy, taint);
            && Neat(d, ga, name, duty) && d.snr == c.snr && copy'.name == copy.name
            && (err == NoError ==>
                && Knows(d.world, ga, copy')
                && !TaintExists(copy'.node.taints, taint) && !Tainted(d.world, copy.name, taint)
                && (TaintExists(copy'.node.taints, other) ==> TaintExists(copy.node.taints, other)))
  {
    hide Neat, WriteTaints, SomeGuard, SomeEvictor, TaintExists;
    var taints := Without(copy.node.taints, taint);
    WithoutIsExact(copy.node.taints, taint);
    OthersStay(copy.node.taints, taint, other);
    if TaintExists(copy.node.taints, taint) {
      WriteKeepsNeat(c, ga, name, duty, copy, taints);
    }
  }

  /** With the taint gone from its node, an SNR is not needed to justify it anywhere. */
  lemma NotNeeded(w: World, ga: bool, name: string, duty: Duty)
    requires Stored(w, name, duty) && Tidy(w, ga)
    ensures !Tainted(w, duty.target, NO_SCHEDULE) ==> Guarded(w, {name})
    ensures !Tainted(w, duty.target, OUT_OF_SERVICE) || !MayEvict(duty, ga) ==> Evicted(w, ga, {name})
  {
    hide Tainted, GoodHistory;
    assert GoodName(w, name);
    if !Tainted(w, duty.target, NO_SCHEDULE) {
      forall node | Tainted(w, node, NO_SCHEDULE) ensures exists other :: other !in {name} && Guards(w, other, node) {
        var other :| Guards(w, other, node);
        assert other !in {name};
      }
    }
    if !Tainted(w, duty.target, OUT_OF_SERVICE) || !MayEvict(duty, ga) {
      forall node | Tainted(w, node, OUT_OF_SERVICE) ensures exists other :: other !in {name} && Evicts(w, ga, other, node) {
        var other :| Evicts(w, ga, other, node);
        assert other !in {name};
      }
    }
  }

  predicate MayEvict(duty: Duty, ga: bool) {
    duty.phase == Some(RebootCompleted) && RuntimeStrategy(duty.strategy, ga) == OutOfServiceTaint
  }

  // Requests that change the SNR.

  /** A new version of an SNR that is still responsible for its node, and for the eviction if it was. */
  predicate KeepsGuarding(old_: Snr, s: Snr) {
    s.target == old_.target && (old_.finalizer ==> s.finalizer)
  }

  predicate KeepsEvicting(old_: Snr, s: Snr, ga: bool) {
    MayEvict(DutyOf(old_), ga) ==> KeepsGuarding(old_, s) && MayEvict(DutyOf(s), ga)
  }

  /** Storing a new version of one SNR: the others keep their duties. */
  lemma PersistTidy(w: World, ga: bool, name: string, s: Snr)
    requires name in w.history && name in w.snrs && Tidy(w, ga)
    requires Guarded(w, {name}) || KeepsGuarding(w.snrs[name], s)
    requires Evicted(w, ga, {name}) || KeepsEvicting(w.snrs[name], s, ga)
    ensures Tidy(Persist(w, name, s), ga)
  {
    hide TaintExists;
    var v := Persist(w, name, s);
    forall node | Tainted(v, node, NO_SCHEDULE) ensures exists other :: other !in {} && Guards(v, other, node) {
      assert Tainted(w, node, NO_SCHEDULE);
      if Guarded(w, {name}) {
        var other :| other !in {name} && Guards(w, other, node);
        assert Guards(v, other, node);
      } else {
        var other :| other !in {} && Guards(w, other, node);
        assert Guards(v, other, node);
      }
    }
    forall node | Tainted(v, node, OUT_OF_SERVICE) ensures exists other :: other !in {} && Evicts(v, ga, other, node) {
      assert Tainted(w, node, OUT_OF_SERVICE);
      if Evicted(w, ga, {name}) {
        var other :| other !in {name} && Evicts(w, ga, other, node);
        assert Evicts(v, ga, other, node);
      } else {
        var other :| other !in {} && Evicts(w, ga, other, node);
        assert Evicts(v, ga, other, node);
      }
    }
  }

  /** A change that may be sent without leaving an orphan. */
  ghost predicate Harmless(w: World, ga: bool, name: string, duty: Duty, change: Change) {
    match change
    case SetFinalizer(f) => f || (Guarded(w, {name}) && Evicted(w, ga, {name}))
    case SetStatus(status) => status.phase == duty.phase || !MayEvict(duty, ga) || Evicted(w, ga, {name})
    case SetLastError(_) => true
  }

  lemma HarmlessLater(w: World, v: World, ga: bool, name: string, duty: Duty, change: Change)
    requires Harmless(w, ga, name, duty, change) && Preserves(w, v, ga)
    ensures Harmless(v, ga, name, duty, change)
  {
    hide Guarded, Evicted, Preserves;
    PreservesTidy(w, v, ga, {name});
  }

  /** Any request for a harmless change, whatever its fate, leaves no orphan. */
  lemma SendKeepsTidy(c: Session, ga: bool, name: string, duty: Duty, change: Change)
    requires Neat(c, ga, name, duty) && Harmless(c.world, ga, name, duty, change)
    ensures Tidy(Send(c, name, change).0.world, ga)
  {
    hide Guarded, Evicted, Preserves, Proceed, Harmless, Good, Decode, MayEvict;
    ProceedKeepsNeat(c, ga, name, duty);
    var w := Proceed(c).world;
    HarmlessLater(c.world, w, ga, name, duty, change);
    if name in w.snrs {
      LastIsStored(w, name);
      ChangeIsHarmless(w, ga, name, w.snrs[name], change);
      PersistTidy(w, ga, name, Changed(w.snrs[name], change));
    }
  }

  lemma ChangeIsHarmless(w: World, ga: bool, name: string, s: Snr, change: Change)
    requires Harmless(w, ga, name, DutyOf(s), change)
    ensures Guarded(w, {name}) || KeepsGuarding(s, Changed(s, change))
    ensures Evicted(w, ga, {name}) || KeepsEvicting(s, Changed(s, change), ga)
  {
    hide Guarded, Evicted;
  }

  /** The stored phase is still the given one, and the status in memory may be stored next without leaving an orphan. */
  ghost predicate Ready(c: Session, ga: bool, name: string, phase: Option<Phase>) {
    exists duty :: Neat(c, ga, name, duty) && duty.phase == phase && Harmless(c.world, ga, name, duty, SetStatus(c.snr.status))
  }

  lemma IsReady(c: Session, ga: bool, name: string, duty: Duty)
    requires Neat(c, ga, name, duty)
    requires c.snr.status.phase == duty.phase || !MayEvict(duty, ga) || Evicted(c.world, ga, {name})
    ensures Ready(c, ga, name, duty.phase)
  {
    hide Neat, MayEvict, Evicted;
    assert Harmless(c.world, ga, name, duty, SetStatus(c.snr.status));
  }

  function ChangedDuty(duty: Duty, change: Change): Duty {
    match change
    case SetFinalizer(f) => duty.(finalizer := f)
    case SetStatus(status) => duty.(phase := status.phase)
    case SetLastError(_) => duty
  }

  /** What the server and the memory hold after a request. */
  lemma SendResult(c: Session, ga: bool, name: string, duty: Duty, change: Change)
    requires Neat(c, ga, name, duty) && !change.SetStatus?
    requires Good(Send(c, name, change).0.world)
    ensures var d := Send(c, name, change).0;
            && (Stored(d.world, name, duty) || Stored(d.world, name, ChangedDuty(duty, change)))
            && (d.snr.status.phase == c.snr.status.phase || d.snr.status.phase == duty.phase)
            && (Evicted(c.world, ga, {name}) ==> Evicted(d.world, ga, {name}))
  {
    hide Good, Guarded, Evicted, Preserves, Proceed, GoodSnr;
    ProceedKeepsNeat(c, ga, name, duty);
    var w := Proceed(c).world;
    PreservesTidy(c.world, w, ga, {name});
    if name in w.snrs {
      LastIsStored(w, name);
      if Evicted(w, ga, {name}) { OthersUnaffected(w, ga, name, Changed(w.snrs[name], change)); }
    }
  }

  lemma OthersUnaffected(w: World, ga: bool, name: string, s: Snr)
    requires name in w.history && Evicted(w, ga, {name})
    ensures Evicted(Persist(w, name, s), ga, {name})
  {
    hide TaintExists, MayEvict, RuntimeStrategy;
    var v := Persist(w, name, s);
    forall node | Tainted(v, node, OUT_OF_SERVICE) ensures exists other :: other !in {name} && Evicts(v, ga, other, node) {
      assert Tainted(w, node, OUT_OF_SERVICE);
      var other :| other !in {name} && Evicts(w, ga, other, node);
      assert Evicts(v, ga, other, node);
    }
  }

  lemma UpdateLastErrorKeepsReady(c: Session, ga: bool, name: string, phase: Option<Phase>, in_: Inputs, result: Result)
    requires Ready(c, ga, name, phase) && Running(c, name)
    ensures Ready(UpdateLastError(c, name, in_, result).0, ga, name, phase)
  {
    hide Running, Send, MayEvict, Evicted, Guarded, Good;
    var duty :| Neat(c, ga, name, duty) && duty.phase == phase && Harmless(c.world, ga, name, duty, SetStatus(c.snr.status));
    var text := match result.err case Some(t) => t case None => "";
    if c.snr.status.lastError != text {
      var d := c.(snr := c.snr.(status := c.snr.status.(lastError := text)));
      var e := Send(d, name, SetLastError(text)).0;
      UpdateLastErrorKeepsSession(c, name, in_, result);
      RunningIsGood(e, name);
      SendKeepsTidy(d, ga, name, duty, SetLastError(text));
      SendResult(d, ga, name, duty, SetLastError(text));
      IsReady(e, ga, name, duty);
    }
  }

  lemma RunningIsGood(c: Session, name: string)
    requires Running(c, name)
    ensures Good(c.world)
  {
  }

  /** Taking the finalizer off, once nothing on the node depends on it. */
  lemma RemoveFinalizerKeepsReady(c: Session, ga: bool, name: string, duty: Duty)
    requires Neat(c, ga, name, duty) && Guarded(c.world, {name}) && Evicted(c.world, ga, {name})
    requires Fresh(c, name) && c.snr.deleting && (c.snr.timedOut || c.snr.status.phase == Some(FencingCompleted))
    ensures Ready(RemoveFinalizer(c, name).0, ga, name, duty.phase)
  {
    hide Fresh, Running, Send, MayEvict, Evicted, Guarded, Good;
    var d := c.(snr := c.snr.(finalizer := false));
    var e := Send(d, name, SetFinalizer(false)).0;
    RemoveFinalizerKeepsSession(c, name);
    RunningIsGood(e, name);
    SendKeepsTidy(d, ga, name, duty, SetFinalizer(false));
    SendResult(d, ga, name, duty, SetFinalizer(false));
    if Stored(e.world, name, duty) {
      IsReady(e, ga, name, duty);
    } else {
      IsReady(e, ga, name, duty.(finalizer := false));
    }
  }

  lemma RecoverNodeKeepsReady(c: Session, ga: bool, name: string, duty: Duty, copy: NodeCopy, in_: Inputs)
    requires Neat(c, ga, name, duty) && Knows(c.world, ga, copy) && copy.name == duty.target
    requires !MayEvict(duty, ga) || !TaintExists(copy.node.taints, OUT_OF_SERVICE)
    requires Fresh(c, name) && c.snr.deleting && (c.snr.timedOut || c.snr.status.phase == Some(FencingCompleted))
    requires c.snr.status.phase == duty.phase
    ensures Ready(RecoverNode(c, name, copy, in_).0, ga, name, duty.phase)
  {
    hide Fresh, RemoveTaint, RemoveFinalizer, MayEvict, Evicted, Guarded, TaintExists, Good;
    RemoveKeepsNeat(c, ga, name, duty, copy, NO_SCHEDULE, OUT_OF_SERVICE);
    RemoveTaintKeepsSession(c, name, copy, NO_SCHEDULE);
    var (d, copy', err) := RemoveTaint(c, copy, NO_SCHEDULE);
    IsReady(d, ga, name, duty);
    if err == NoError && d.snr.finalizer {
      NotNeeded(d.world, ga, name, duty);
      RemoveFinalizerKeepsReady(d, ga, name, duty);
    }
  }

  /** An SNR with the finalizer justifies the taint it is about to set. */
  lemma StoredGuards(w: World, ga: bool, name: string, duty: Duty)
    requires Stored(w, name, duty) && duty.finalizer
    ensures SomeGuard(w, duty.target)
    ensures MayEvict(duty, ga) ==> SomeEvictor(w, ga, duty.target)
  {
    LastIsStored(w, name);
    assert Guards(w, name, duty.target);
    if MayEvict(duty, ga) { assert Evicts(w, ga, name, duty.target); }
  }

  lemma AddKeepsNeat(c: Session, ga: bool, name: string, duty: Duty, copy: NodeCopy, taint: Taint)
    requires Neat(c, ga, name, duty) && Knows(c.world, ga, copy) && copy.name == duty.target && duty.finalizer
    requires taint == NO_SCHEDULE || (taint == OUT_OF_SERVICE && MayEvict(duty, ga))
    ensures var (d, copy', err) := AddTaint(c, copy, taint);
            Neat(d, ga, name, duty) && d.snr == c.snr && copy'.name == copy.name && (err == NoError ==> Knows(d.world, ga, copy'))
  {
    hide Stored, Tidy, WriteTaints, SomeGuard, SomeEvictor, TaintExists, MayEvict;
    StoredGuards(c.world, ga, name, duty);
    var added := taint.(timeAdded := Some(c.world.clock));
    AppendedExists(copy.node.taints, added, NO_SCHEDULE);
    AppendedExists(copy.node.taints, added, OUT_OF_SERVICE);
    if !TaintExists(copy.node.taints, taint) {
      WriteKeepsNeat(c, ga, name, duty, copy, copy.node.taints + [added]);
    }
  }

  lemma AddFinalizerKeepsReady(c: Session, ga: bool, name: string, duty: Duty, in_: Inputs)
    requires Neat(c, ga, name, duty) && duty.phase == None && Running(c, name)
    ensures Ready(AddFinalizer(c, name, in_).0, ga, name, duty.phase)
  {
    hide Running, Send, Evicted, Guarded, Good;
    if c.snr.deleting {
      IsReady(c, ga, name, duty);
    } else {
      var d := c.(snr := c.snr.(finalizer := true));
      var e := Send(d, name, SetFinalizer(true)).0;
      AddFinalizerKeepsSession(c, name, in_);
      RunningIsGood(e, name);
      SendKeepsTidy(d, ga, name, duty, SetFinalizer(true));
      SendResult(d, ga, name, duty, SetFinalizer(true));
      if Stored(e.world, name, duty) {
        IsReady(e, ga, name, duty);
      } else {
        IsReady(e, ga, name, duty.(finalizer := true));
      }
    }
  }

  lemma PrepareRebootKeepsReady(c: Session, ga: bool, name: string, duty: Duty, copy: NodeCopy, in_: Inputs)
    requires Neat(c, ga, name, duty) && Knows(c.world, ga, copy) && copy.name == duty.target
    requires duty.phase == None && duty.finalizer == c.snr.finalizer && Running(c, name)
    ensures Ready(PrepareReboot(c, name, copy, in_).0, ga, name, duty.phase)
  {
    hide Running, AddFinalizer, AddTaint, Neat, Proceed;
    IsReady(c, ga, name, duty);
    AddFinalizerKeepsReady(c, ga, name, duty, in_);
    if c.snr.finalizer {
      AddKeepsNeat(c, ga, name, duty, copy, NO_SCHEDULE);
      var d := AddTaint(c, copy, NO_SCHEDULE).0;
      IsReady(d, ga, name, duty);
      ProceedKeepsNeat(d, ga, name, duty);
      var e := SetTimeAssumedRebooted(d, AddTaint(c, copy, NO_SCHEDULE).1, in_).0;
      NeatWorld(if d.snr.status.timeAssumedRebooted.Some? then d else Proceed(d), e, ga, name, duty);
      IsReady(e, ga, name, duty);
      var f := e.(snr := SetPhase(e.snr, PreRebootCompleted));
      NeatWorld(e, f, ga, name, duty);
      IsReady(f, ga, name, duty);
    }
  }

  lemma NeatWorld(c: Session, d: Session, ga: bool, name: string, duty: Duty)
    requires c.world == d.world
    ensures Neat(c, ga, name, duty) == Neat(d, ga, name, duty)
  {
  }

  lemma NoteKeepsNeat(c: Session, d: Session, ga: bool, name: string, duty: Duty, e: Effect)
    requires Neat(c, ga, name, duty) && d.world == Note(c.world, e) && Good(d.world)
    ensures Neat(d, ga, name, duty)
    ensures forall copy :: Knows(c.world, ga, copy) ==> Knows(d.world, ga, copy)
  {
    hide Good, TaintExists;
    PreservesTidy(c.world, d.world, ga, {});
    forall copy | Knows(c.world, ga, copy) ensures Knows(d.world, ga, copy) {
      PreservesKnowledge(c.world, d.world, ga, copy);
    }
  }

  lemma AddOutOfServiceKeepsNeat(c: Session, ga: bool, name: string, duty: Duty, copy: NodeCopy)
    requires Neat(c, ga, name, duty) && Knows(c.world, ga, copy) && copy.name == duty.target && duty.finalizer && MayEvict(duty, ga)
    requires Fresh(c, name) && Rank(c.snr.status.phase) >= 2
    ensures var (d, copy', err) := AddOutOfServiceTaint(c, name, copy);
            Neat(d, ga, name, duty) && d.snr == c.snr && copy'.name == copy.name && (err == NoError ==> Knows(d.world, ga, copy'))
  {
    hide Fresh, Running, Neat, AddTaint, Knows, TaintExists, Good;
    AddKeepsNeat(c, ga, name, duty, copy, OUT_OF_SERVICE);
    AddOutOfServiceKeepsSession(c, name, copy);
    var (d, _, err) := AddTaint(c, copy, OUT_OF_SERVICE);
    var e := AddOutOfServiceTaint(c, name, copy).0;
    FreshIsRunning(e, name);
    RunningIsGood(e, name);
    if e != d {
      NoteKeepsNeat(d, e, ga, name, duty, OutOfServiceAdded(name, copy.name, d.world.clock, d.snr.status.timeAssumedRebooted));
    }
  }

  /** The out-of-service taint is only left behind on failure or while waiting; and it is given up only when nothing
      terminates or is attached any more, or when the SNR is being deleted and a minute has passed. */
  lemma UseOutOfServiceKeepsNeat(c: Session, ga: bool, name: string, duty: Duty, copy: NodeCopy, in_: Inputs)
    requires Neat(c, ga, name, duty) && Knows(c.world, ga, copy) && copy.name == duty.target && duty.finalizer && MayEvict(duty, ga)
    requires Fresh(c, name) && Rank(c.snr.status.phase) >= 2
    ensures var (d, result) := UseOutOfServiceTaint(c, name, copy, in_);
            && Neat(d, ga, name, duty) && d.snr == c.snr
            && (result == DONE ==>
                && !Tainted(d.world, duty.target, OUT_OF_SERVICE)
                && (ResourceDeletionCompleted(in_, copy.name) || (c.snr.deleting && exists now :: now <= d.world.clock && ResourceDeletionExpired(c.snr, now))))
  {
    hide Fresh, Neat, AddOutOfServiceTaint, RemoveTaint, Knows, TaintExists, Rank, Running;
    AddOutOfServiceKeepsNeat(c, ga, name, duty, copy);
    var (d, copy', err) := AddOutOfServiceTaint(c, name, copy);
    if err == NoError {
      RemoveKeepsNeat(d, ga, name, duty, copy', OUT_OF_SERVICE, NO_SCHEDULE);
      var e := RemoveTaint(d, copy', OUT_OF_SERVICE).0;
      TaintsGrow(d, copy', OUT_OF_SERVICE);
      assert d.world.clock <= e.world.clock;
    }
  }

  lemma HandleRebootCompletedKeepsReady(c: Session, ga: bool, name: string, duty: Duty, copy: NodeCopy, in_: Inputs, strategy: Strategy)
    requires Neat(c, ga, name, duty) && Knows(c.world, ga, copy) && copy.name == duty.target && duty.finalizer
    requires duty.phase == Some(RebootCompleted) == c.snr.status.phase && strategy == RuntimeStrategy(duty.strategy, ga)
    requires Fresh(c, name)
    ensures Ready(HandleRebootCompleted(c, name, copy, in_, strategy).0, ga, name, duty.phase)
  {
    hide Fresh, Running, Neat, UseOutOfServiceTaint, DeletePods, Knows, Tainted, RuntimeStrategy;
    var (d, result) := RemoveResources(c, name, copy, in_, strategy);
    if strategy == OutOfServiceTaint {
      UseOutOfServiceKeepsNeat(c, ga, name, duty, copy, in_);
    } else {
      DeletePodsKeepsNeat(c, ga, name, duty, copy);
    }
    IsReady(d, ga, name, duty);
    if result == DONE {
      NeatIsTidy(d, ga, name, duty);
      NotNeeded(d.world, ga, name, duty);
      var e := d.(snr := UpdateConditions(SetPhase(d.snr, FencingCompleted), FinishedSuccessfully));
      NeatWorld(d, e, ga, name, duty);
      IsReady(e, ga, name, duty);
    }
  }

  lemma NeatIsTidy(c: Session, ga: bool, name: string, duty: Duty)
    requires Neat(c, ga, name, duty)
    ensures Stored(c.world, name, duty) && Tidy(c.world, ga)
  {
  }

  lemma DeletePodsKeepsNeat(c: Session, ga: bool, name: string, duty: Duty, copy: NodeCopy)
    requires Neat(c, ga, name, duty) && Fresh(c, name) && Rank(c.snr.status.phase) >= 2
    ensures Neat(DeletePods(c, name, copy).0, ga, name, duty) && DeletePods(c, name, copy).0.snr == c.snr
  {
    hide Fresh, Running, Neat, Knows, Good, Proceed;
    ProceedKeepsNeat(c, ga, name, duty);
    DeletePodsKeepsSession(c, name, copy);
    var d := DeletePods(c, name, copy).0;
    FreshIsRunning(d, name);
    RunningIsGood(d, name);
    NoteKeepsNeat(Proceed(c), d, ga, name, duty, PodsDeleted(name, copy.name, Proceed(c).world.clock, Proceed(c).snr.status.timeAssumedRebooted));
  }

  lemma RemediateKeepsReady(c: Session, ga: bool, name: string, duty: Duty, copy: NodeCopy, in_: Inputs, strategy: Strategy)
    requires Neat(c, ga, name, duty) && Knows(c.world, ga, copy) && copy.name == duty.target
    requires Fresh(c, name) && c.snr.status.phase == duty.phase && c.snr.finalizer == duty.finalizer
    requires strategy == RuntimeStrategy(duty.strategy, ga)
    requires duty.phase == Some(RebootCompleted) ==> duty.finalizer
    ensures Ready(Remediate(c, name, copy, in_, strategy).0, ga, name, duty.phase)
  {
    hide Fresh, Running, Neat, PrepareReboot, HandleRebootCompleted, RecoverNode, Knows;
    FreshIsRunning(c, name);
    IsReady(c, ga, name, duty);
    match c.snr.status.phase
    case None => PrepareRebootKeepsReady(c, ga, name, duty, copy, in_);
    case Some(PreRebootCompleted) =>
      var d := WaitForNodeRebooted(c).0;
      NeatWorld(c, d, ga, name, duty);
      IsReady(d, ga, name, duty);
    case Some(RebootCompleted) => HandleRebootCompletedKeepsReady(c, ga, name, duty, copy, in_, strategy);
    case Some(FencingCompleted) => if c.snr.deleting { RecoverNodeKeepsReady(c, ga, name, duty, copy, in_); }
    case Some(Unrecognised) =>
  }

  /** A node read from the server is known. */
  lemma GetNodeKnows(c: Session, ga: bool, name: string, duty: Duty, in_: Inputs)
    requires Neat(c, ga, name, duty) && in_.nodeRead in {NodeFromServer, NodeUnreadable} && c.snr.target == duty.target
    ensures var (d, found) := GetNode(c, in_);
            && Neat(d, ga, name, duty) && d.snr == c.snr
            && (found.Found? ==> found.copy.name == duty.target && Knows(d.world, ga, found.copy))
            && (found.Missing? ==> duty.target !in d.world.nodes)
  {
    hide Stored, TaintExists, Proceed, Tidy, SomeGuard, SomeEvictor;
    ProceedKeepsNeat(c, ga, name, duty);
    TidyReasons(Proceed(c).world, ga, duty.target);
  }

  lemma TidyReasons(w: World, ga: bool, node: string)
    requires Tidy(w, ga)
    ensures Tainted(w, node, NO_SCHEDULE) ==> SomeGuard(w, node)
    ensures Tainted(w, node, OUT_OF_SERVICE) ==> SomeEvictor(w, ga, node)
  {
    hide TaintExists;
    if Tainted(w, node, NO_SCHEDULE) { var name :| name !in {} && Guards(w, name, node); }
    if Tainted(w, node, OUT_OF_SERVICE) { var name :| name !in {} && Evicts(w, ga, name, node); }
  }

  lemma StoppedByNHCKeepsReady(c: Session, ga: bool, name: string, duty: Duty, in_: Inputs)
    requires Neat(c, ga, name, duty) && in_.nodeRead in {NodeFromServer, NodeUnreadable} && c.snr.target == duty.target
    requires Fresh(c, name) && c.snr.timedOut && c.snr.status.phase == duty.phase
    ensures Ready(StoppedByNHC(c, name, in_).0, ga, name, duty.phase)
  {
    hide Fresh, Running, Neat, RemoveTaint, RemoveFinalizer, RecoverNode, Knows, TaintExists, Guarded, Evicted, GetNode;
    if !c.snr.deleting {
      var d := c.(snr := UpdateConditions(c.snr, TimeoutByNHC));
      NeatWorld(c, d, ga, name, duty);
      IsReady(d, ga, name, duty);
    } else {
      GetNodeKnows(c, ga, name, duty, in_);
      GetNodeFresh(c, name, in_);
      var (d, found) := GetNode(c, in_);
      IsReady(d, ga, name, duty);
      match found
      case Found(copy) =>
        RemoveKeepsNeat(d, ga, name, duty, copy, OUT_OF_SERVICE, NO_SCHEDULE);
        RemoveTaintKeepsSession(d, name, copy, OUT_OF_SERVICE);
        var (e, copy', err) := RemoveTaint(d, copy, OUT_OF_SERVICE);
        IsReady(e, ga, name, duty);
        if err == NoError { RecoverNodeKeepsReady(e, ga, name, duty, copy', in_); }
      case Missing =>
        NeatIsTidy(d, ga, name, duty);
        NotNeeded(d.world, ga, name, duty);
        RemoveFinalizerKeepsReady(d, ga, name, duty);
      case Unreadable =>
    }
  }

  lemma GetNodeFresh(c: Session, name: string, in_: Inputs)
    requires Fresh(c, name)
    ensures Fresh(GetNode(c, in_).0, name)
  {
    hide Fresh, Running, Proceed;
    FreshIsRunning(c, name);
    ProceedKeepsSession(c, name);
  }

  lemma RemediateNodeKeepsReady(c: Session, ga: bool, name: string, duty: Duty, in_: Inputs)
    requires Neat(c, ga, name, duty) && in_.nodeRead in {NodeFromServer, NodeUnreadable} && in_.outOfServiceGA == ga
    requires Fresh(c, name) && DutyOf(c.snr) == duty
    requires duty.phase == Some(RebootCompleted) ==> duty.finalizer
    ensures Ready(RemediateNode(c, name, in_).0, ga, name, duty.phase)
  {
    hide Fresh, Running, Neat, Remediate, UpdateLastError, GetNode, Knows, GoodStatus, RuntimeStrategy;
    var started := if c.snr.status.phase == Some(FencingCompleted) then c else c.(snr := UpdateConditions(c.snr, RemediationStarted));
    NeatWorld(c, started, ga, name, duty);
    if c.snr.status.phase != Some(FencingCompleted) {
      ConditionsFit(c, name, RemediationStarted);
      RecallKeepsFresh(c, name, started.snr);
    }
    ConditionsPresent(started, name);
    GetNodeKnows(started, ga, name, duty, in_);
    GetNodeFresh(started, name, in_);
    var (d, found) := GetNode(started, in_);
    FreshIsRunning(d, name);
    IsReady(d, ga, name, duty);
    match found
    case Missing =>
      var skipped := d.(snr := UpdateConditions(d.snr, SkippedNodeNotFound));
      ConditionsFit(d, name, SkippedNodeNotFound);
      RecallKeepsFresh(d, name, skipped.snr);
      FreshIsRunning(skipped, name);
      NeatWorld(d, skipped, ga, name, duty);
      IsReady(skipped, ga, name, duty);
      UpdateLastErrorKeepsReady(skipped, ga, name, duty.phase, in_, Failed(in_.errorText));
    case Unreadable => UpdateLastErrorKeepsReady(d, ga, name, duty.phase, in_, Failed(in_.errorText));
    case Found(copy) =>
      var strategy := RuntimeStrategy(d.snr.strategy, in_.outOfServiceGA);
      RemediateKeepsReady(d, ga, name, duty, copy, in_, strategy);
      RemediateKeepsSession(d, name, copy, in_, strategy);
      var (e, result) := if strategy == Unsupported then (d, DONE) else Remediate(d, name, copy, in_, strategy);
      UpdateLastErrorKeepsReady(e, ga, name, duty.phase, in_, result);
  }

  lemma BodyKeepsReady(c: Session, ga: bool, name: string, duty: Duty, in_: Inputs)
    requires Neat(c, ga, name, duty) && in_.nodeRead in {NodeFromServer, NodeUnreadable} && in_.outOfServiceGA == ga
    requires Fresh(c, name) && DutyOf(c.snr) == duty
    requires duty.phase == Some(RebootCompleted) ==> duty.finalizer || c.snr.timedOut
    ensures Ready(Body(c, name, in_).0, ga, name, duty.phase)
  {
    hide Fresh, Running, Neat, StoppedByNHC, RemediateNode, Proceed;
    FreshIsRunning(c, name);
    ProceedKeepsSession(c, name);
    ProceedKeepsNeat(c, ga, name, duty);
    var d := Proceed(c);
    IsReady(d, ga, name, duty);
    var e := d.(snr := SetDisabled(d.snr));
    NeatWorld(d, e, ga, name, duty);
    IsReady(e, ga, name, duty);
    if d.snr.timedOut {
      StoppedByNHCKeepsReady(d, ga, name, duty, in_);
    } else {
      RemediateNodeKeepsReady(d, ga, name, duty, in_);
    }
  }

  /** A reconcile that reads the current SNR and node leaves no orphan, whatever requests fail. */
  lemma ReconcileKeepsTidy(w: World, ga: bool, name: string, turns: seq<Turn>, in_: Inputs)
    requires Good(w) && Tidy(w, ga) && name in w.snrs
    requires in_.nodeRead in {NodeFromServer, NodeUnreadable} && in_.outOfServiceGA == ga
    ensures Tidy(Reconcile(w, name, w.snrs[name], turns, in_).0.world, ga)
  {
    hide Fresh, Body, Send, Tidy, GoodStatus, Harmless;
    LastIsStored(w, name);
    var s := w.snrs[name];
    var c := Session(w, s, turns);
    AnySnapshotWillDo(w, name, |w.history[name]| - 1, turns);
    BodyKeepsReady(c, ga, name, DutyOf(s), in_);
    var d := Body(c, name, in_).0;
    var duty :| Neat(d, ga, name, duty) && Harmless(d.world, ga, name, duty, SetStatus(d.snr.status));
    SendKeepsTidy(d, ga, name, duty, SetStatus(d.snr.status));
  }
}

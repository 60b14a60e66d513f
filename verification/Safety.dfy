/** What every run of the manager keeps of its SNRs and of the effects on record, however stale the SNRs it reads are,
    whatever nodes it is shown, and whatever requests fail, conflict or lose their answer. */
module Safety {
  import opened Common
  import opened Taints
  import opened Calculator
  import opened Store
  import opened Remediation

  function Rank(phase: Option<Phase>): int {
    match phase
    case None => 0
    case Some(PreRebootCompleted) => 1
    case Some(RebootCompleted) => 2
    case Some(FencingCompleted) => 3
    case Some(Unrecognised) => 9
  }

  /** A status that can be stored at time `now`. */
  ghost predicate GoodStatus(s: Status, now: int) {
    && s.phase != Some(Unrecognised)
    && (s.phase.Some? ==> s.timeAssumedRebooted.Some? && s.conditions != NO_CONDITIONS)
    && (Rank(s.phase) >= 2 ==> s.timeAssumedRebooted.value.due <= now)
    && (s.timeAssumedRebooted.Some? ==> GoodDeadline(s.timeAssumedRebooted.value, now))
    && (s.conditions.succeeded == Some(True) ==> s.phase == Some(FencingCompleted))
    && (s.phase == Some(FencingCompleted) ==> s.conditions.processing == Some(False))
  }

  /** The deadline is the calculated duration after the moment it was computed, to the second. */
  ghost predicate GoodDeadline(d: Deadline, now: int) {
    d.computedAt <= now && d.due == WholeSeconds(d.computedAt + RebootDuration(d.basis))
  }

  ghost predicate GoodSnr(s: Snr, now: int) {
    && GoodStatus(s.status, now)
    && (s.status.phase in {Some(PreRebootCompleted), Some(RebootCompleted)} ==> s.finalizer || (s.deleting && s.timedOut))
  }

  /** One version of an SNR may follow another. */
  ghost predicate Evolves(a: Snr, b: Snr) {
    && a.version < b.version
    && Rank(a.status.phase) <= Rank(b.status.phase) <= Rank(a.status.phase) + 1
    && (a.status.timeAssumedRebooted.Some? ==> b.status.timeAssumedRebooted == a.status.timeAssumedRebooted)
    && (a.deleting ==> b.deleting)
    && (a.timedOut ==> b.timedOut)
    && (a.finalizer && !b.finalizer ==> b.deleting && (b.timedOut || b.status.phase == Some(FencingCompleted)))
    && a.strategy == b.strategy && a.target == b.target && a.created == b.created
  }

  ghost predicate GoodHistory(h: seq<Snr>, now: int) {
    && h != []
    && (forall i :: 0 <= i < |h| ==> GoodSnr(h[i], now))
    && (forall i, j :: 0 <= i < j < |h| && j == i + 1 ==> Evolves(h[i], h[j]))
  }

  function Last(h: seq<Snr>): Snr
    requires h != []
  {
    h[|h| - 1]
  }

  ghost predicate GoodEffect(w: World, e: Effect) {
    && e.snr in w.history && w.history[e.snr] != []
    && e.deadline.Some? && Last(w.history[e.snr]).status.timeAssumedRebooted == e.deadline
    && e.deadline.value.due <= e.at <= w.clock
  }

  ghost predicate GoodName(w: World, name: string) {
    && name in w.history && GoodHistory(w.history[name], w.clock)
    && (name in w.snrs ==> w.snrs[name] == Last(w.history[name]))
  }

  ghost predicate Good(w: World) {
    && (forall name :: name in w.snrs ==> name in w.history)
    && (forall name :: name in w.history ==> GoodName(w, name))
    && (forall i :: 0 <= i < |w.effects| ==> GoodEffect(w, w.effects[i]))
  }

  // Histories.

  lemma {:induction false} HistoryIsOrdered(h: seq<Snr>, now: int, i: nat, j: nat)
    requires GoodHistory(h, now) && i < j < |h|
    ensures h[i].version < h[j].version
    ensures Rank(h[i].status.phase) <= Rank(h[j].status.phase)
    ensures h[i].status.timeAssumedRebooted.Some? ==> h[j].status.timeAssumedRebooted == h[i].status.timeAssumedRebooted
    ensures h[i].deleting ==> h[j].deleting
    ensures h[i].timedOut ==> h[j].timedOut
    ensures h[i].finalizer && !h[j].finalizer ==> h[j].deleting && (h[j].timedOut || h[j].status.phase == Some(FencingCompleted))
    ensures h[i].strategy == h[j].strategy && h[i].target == h[j].target && h[i].created == h[j].created
  {
    assert Evolves(h[j - 1], h[j]);
    if i < j - 1 { HistoryIsOrdered(h, now, i, j - 1); }
  }

  lemma TimePasses(h: seq<Snr>, now: int, later: int)
    requires GoodHistory(h, now) && now <= later
    ensures GoodHistory(h, later)
  {
  }

  lemma HistoryGrows(h: seq<Snr>, s: Snr, now: int)
    requires GoodHistory(h, now) && Evolves(Last(h), s) && GoodSnr(s, now)
    ensures GoodHistory(h + [s], now)
  {
  }

  /** Storing a legal successor keeps everything. */
  lemma PersistKeepsGood(w: World, name: string, s: Snr)
    requires Good(w) && name in w.snrs && Evolves(w.snrs[name], s) && GoodSnr(s, w.clock)
    ensures Good(Persist(w, name, s))
  {
    var v := Persist(w, name, s);
    HistoryGrows(w.history[name], s, w.clock);
    forall other | other in v.history ensures GoodName(v, other) {
      assert GoodName(w, other);
    }
    forall i | 0 <= i < |v.effects| ensures GoodEffect(v, v.effects[i]) {
      assert GoodEffect(w, w.effects[i]);
    }
  }

  /** The new world is later, and knows at least the same SNRs with at least the same histories. */
  ghost predicate Later(w: World, v: World) {
    && w.clock <= v.clock
    && (forall name :: name in w.history ==> name in v.history && w.history[name] <= v.history[name])
    && w.effects <= v.effects
  }

  /** The status of no SNR that existed before has changed. */
  ghost predicate SameStatuses(w: World, v: World) {
    forall name :: name in w.history && name in v.history && w.history[name] != [] && v.history[name] != [] ==>
      Last(v.history[name]).status == Last(w.history[name]).status
  }

  lemma PersistMetadata(w: World, name: string, s: Snr)
    requires Good(w) && name in w.snrs && Evolves(w.snrs[name], s) && GoodSnr(s, w.clock)
    requires s.status == w.snrs[name].status
    ensures Good(Persist(w, name, s)) && Later(w, Persist(w, name, s)) && SameStatuses(w, Persist(w, name, s))
  {
    hide GoodSnr, Evolves, GoodHistory;
    PersistKeepsGood(w, name, s);
    assert GoodName(w, name);
  }

  lemma TickKeepsGood(w: World, v: World)
    requires Good(w) && v == w.(clock := v.clock) && w.clock <= v.clock
    ensures Good(v)
  {
    forall name | name in w.history ensures GoodName(v, name) {
      assert GoodName(w, name);
      TimePasses(w.history[name], w.clock, v.clock);
    }
    forall i | 0 <= i < |v.effects| ensures GoodEffect(v, v.effects[i]) {
      assert GoodEffect(w, w.effects[i]);
    }
  }

  lemma CreateKeepsGood(w: World, e: Env)
    requires Good(w) && e.Create? && e.name !in w.history
    ensures Good(Act(w, e))
  {
    var v := Act(w, e);
    forall other | other in v.history ensures GoodName(v, other) {
      if other != e.name { assert GoodName(w, other); }
    }
    forall i | 0 <= i < |v.effects| ensures GoodEffect(v, v.effects[i]) {
      assert GoodEffect(w, w.effects[i]);
    }
  }

  /** Others never touch the status. */
  lemma ActKeepsGood(w: World, e: Env)
    requires Good(w)
    ensures Good(Act(w, e)) && Later(w, Act(w, e)) && SameStatuses(w, Act(w, e))
  {
    hide GoodSnr, Evolves, GoodEffect, Amended;
    match e
    case Tick(d) => TickKeepsGood(w, Act(w, e));
    case Create(name, _, _, _) => if name !in w.history { CreateKeepsGood(w, e); }
    case SetNode(_, _) => SameNames(w, Act(w, e));
    case RemoveNode(_) => SameNames(w, Act(w, e));
    case Amend(name, amendment) =>
      if name in w.snrs {
        assert GoodName(w, name);
        AmendmentEvolves(w.snrs[name], amendment, w.clock);
        PersistMetadata(w, name, Amended(w.snrs[name], amendment));
      }
  }

  lemma AmendmentEvolves(s: Snr, amendment: Amendment, now: int)
    requires GoodSnr(s, now)
    ensures Evolves(s, Amended(s, amendment)) && GoodSnr(Amended(s, amendment), now)
    ensures Amended(s, amendment).status == s.status
  {
  }

  lemma SameNames(w: World, v: World)
    requires Good(w) && v == w.(nodes := v.nodes)
    ensures Good(v)
  {
    forall name | name in v.history ensures GoodName(v, name) {
      assert GoodName(w, name);
    }
    forall i | 0 <= i < |v.effects| ensures GoodEffect(v, v.effects[i]) {
      assert GoodEffect(w, w.effects[i]);
    }
  }

  // A reconcile under way.

  /** The SNR in memory and the one last stored can have come about in the same run: the memory is not ahead in
      version, and if it is not behind either, its status may be stored next. */
  ghost predicate Compatible(m: Snr, last: Snr, now: int) {
    && m.version <= last.version
    && GoodStatus(m.status, now)
    && m.strategy == last.strategy && m.target == last.target && m.created == last.created
    && (m.deleting ==> last.deleting) && (m.timedOut ==> last.timedOut)
    && (last.status.phase == None ==> Rank(m.status.phase) <= 1)
    && (m.status.phase in {Some(PreRebootCompleted), Some(RebootCompleted)} ==>
          last.finalizer || (last.deleting && last.timedOut) || last.status.phase == Some(FencingCompleted))
    && (m.version == last.version ==>
          && Rank(last.status.phase) <= Rank(m.status.phase) <= Rank(last.status.phase) + 1
          && (last.status.timeAssumedRebooted.Some? ==> m.status.timeAssumedRebooted == last.status.timeAssumedRebooted)
          && m.deleting == last.deleting && m.timedOut == last.timedOut)
  }

  /** Moreover, phase, deadline and finalizer in memory are still those of some stored version. */
  ghost predicate Unadvanced(m: Snr, last: Snr) {
    && Rank(m.status.phase) <= Rank(last.status.phase)
    && (m.version == last.version ==> m.status.phase == last.status.phase)
    && (m.status.timeAssumedRebooted.Some? ==> last.status.timeAssumedRebooted == m.status.timeAssumedRebooted)
    && (m.finalizer ==> last.finalizer || (last.deleting && (last.timedOut || last.status.phase == Some(FencingCompleted))))
  }

  ghost predicate Running(c: Session, name: string) {
    && Good(c.world) && name in c.world.history
    && (assert GoodName(c.world, name); Compatible(c.snr, Last(c.world.history[name]), c.world.clock))
  }

  ghost predicate Fresh(c: Session, name: string) {
    && Running(c, name)
    && (assert GoodName(c.world, name); Unadvanced(c.snr, Last(c.world.history[name])))
  }

  /** A reconcile starts from any version that was ever stored. */
  lemma AnySnapshotWillDo(w: World, name: string, i: nat, turns: seq<Turn>)
    requires Good(w) && name in w.history && i < |w.history[name]|
    ensures Fresh(Session(w, w.history[name][i], turns), name)
  {
    var h := w.history[name];
    assert GoodName(w, name);
    assert GoodSnr(h[i], w.clock);
    if i < |h| - 1 { HistoryIsOrdered(h, w.clock, i, |h| - 1); }
  }

  lemma CompatibleWithAmended(m: Snr, last: Snr, amendment: Amendment, now: int)
    requires Compatible(m, last, now)
    ensures Compatible(m, Amended(last, amendment), now)
    ensures Unadvanced(m, last) ==> Unadvanced(m, Amended(last, amendment))
  {
  }

  lemma ActKeepsSession(c: Session, name: string, e: Env)
    requires Running(c, name)
    ensures var d := c.(world := Act(c.world, e));
            Running(d, name) && (Fresh(c, name) ==> Fresh(d, name))
  {
    hide GoodStatus, GoodEffect, Amended, Compatible, Unadvanced;
    var w := c.world;
    ActKeepsGood(w, e);
    assert GoodName(w, name);
    var last := Last(w.history[name]);
    if e.Amend? && e.name == name && name in w.snrs {
      CompatibleWithAmended(c.snr, last, e.amendment, w.clock);
    } else if e.Tick? {
      CompatibleLater(c.snr, last, w.clock, w.clock + e.duration);
    }
  }

  lemma CompatibleLater(m: Snr, last: Snr, now: int, later: int)
    requires Compatible(m, last, now) && now <= later
    ensures Compatible(m, last, later)
  {
  }

  lemma {:induction false} ActAllKeepsSession(c: Session, name: string, es: seq<Env>)
    requires Running(c, name)
    ensures var d := c.(world := ActAll(c.world, es));
            Running(d, name) && (Fresh(c, name) ==> Fresh(d, name))
    decreases |es|
  {
    hide Running, Fresh, Act;
    if es != [] {
      ActKeepsSession(c, name, es[0]);
      ActAllKeepsSession(c.(world := Act(c.world, es[0])), name, es[1..]);
    }
  }

  lemma ProceedKeepsSession(c: Session, name: string)
    requires Running(c, name)
    ensures Running(Proceed(c), name) && (Fresh(c, name) ==> Fresh(Proceed(c), name))
    ensures Proceed(c).snr == c.snr
  {
    hide Running, Fresh, ActAll;
    if c.turns != [] {
      ActAllKeepsSession(c, name, c.turns[0].others);
      SameButTurns(c.(world := ActAll(c.world, c.turns[0].others)), Proceed(c), name);
    }
  }

  lemma SameButTurns(c: Session, d: Session, name: string)
    requires d == c.(turns := d.turns)
    ensures Running(c, name) == Running(d, name) && Fresh(c, name) == Fresh(d, name)
  {
  }

  // Requests.

  /** The change may be sent: the finalizer is only taken off an SNR that is being deleted and is either stopped
      or finished. */
  ghost predicate MaySend(m: Snr, change: Change) {
    match change
    case SetFinalizer(f) => f || (m.deleting && (m.timedOut || m.status.phase == Some(FencingCompleted)))
    case SetStatus(status) => status == m.status
    case SetLastError(e) => m.status.lastError == e
  }

  /** A change that reaches the server is legal. */
  lemma ChangeIsLegal(m: Snr, last: Snr, change: Change, now: int)
    requires Compatible(m, last, now) && GoodSnr(last, now) && MaySend(m, change)
    requires change.SetLastError? || m.version == last.version
    requires change == SetFinalizer(false) ==> Unadvanced(m, last) && !m.finalizer
    ensures Evolves(last, Changed(last, change)) && GoodSnr(Changed(last, change), now)
    ensures Compatible(m, Changed(last, change), now)
    ensures change == SetFinalizer(false) ==> Unadvanced(m, Changed(last, change))
  {
  }

  /** The answer to any request leaves a compatible memory: what the server holds wins. */
  lemma AnswerIsCompatible(m: Snr, stored: Snr, now: int)
    requires Compatible(m, stored, now) && GoodSnr(stored, now)
    ensures Compatible(Decode(m, stored), stored, now)
    ensures Unadvanced(m, stored) ==> Unadvanced(Decode(m, stored), stored)
  {
  }

  /** Every request of a reconcile keeps the invariant, whatever its fate. */
  lemma SendKeepsSession(c: Session, name: string, change: Change)
    requires Running(c, name) && MaySend(c.snr, change)
    requires change == SetFinalizer(false) ==> Fresh(c, name) && !c.snr.finalizer
    ensures Running(Send(c, name, change).0, name)
    ensures change == SetFinalizer(false) ==> Fresh(Send(c, name, change).0, name)
  {
    hide Compatible, Unadvanced, GoodSnr, Evolves, Decode, Changed, GoodEffect, GoodHistory, Proceed;
    ProceedKeepsSession(c, name);
    var d := Proceed(c);
    var w := d.world;
    if NextFate(c) != Refused && name in w.snrs && (change.SetLastError? || w.snrs[name].version == d.snr.version) {
      LastIsStored(w, name);
      var updated := Changed(w.snrs[name], change);
      ChangeIsLegal(d.snr, w.snrs[name], change, w.clock);
      AnswerIsCompatible(d.snr, updated, w.clock);
      PersistKeepsGood(w, name, updated);
    }
  }

  lemma LastIsStored(w: World, name: string)
    requires Good(w) && name in w.snrs
    ensures name in w.history && w.history[name] != [] && w.snrs[name] == Last(w.history[name])
    ensures GoodSnr(w.snrs[name], w.clock)
  {
    assert GoodName(w, name);
  }

  /** Nodes play no part. */
  lemma PatchKeepsSession(c: Session, name: string, node: string, taints: seq<Taint>)
    requires Running(c, name)
    ensures var d := PatchTaints(c, node, taints).0;
            Running(d, name) && (Fresh(c, name) ==> Fresh(d, name)) && d.snr == c.snr
  {
    hide Compatible, Unadvanced, GoodName, Proceed;
    ProceedKeepsSession(c, name);
    var d := PatchTaints(c, node, taints).0;
    SameNames(Proceed(c).world, d.world);
  }

  lemma WriteTaintsKeepsSession(c: Session, name: string, copy: NodeCopy, taints: seq<Taint>)
    requires Running(c, name)
    ensures var d := WriteTaints(c, copy, taints).0;
            Running(d, name) && (Fresh(c, name) ==> Fresh(d, name)) && d.snr == c.snr
  {
    PatchKeepsSession(c, name, copy.name, taints);
  }

  /** A change of conditions that fits the phase. */
  lemma RecallKeepsFresh(c: Session, name: string, s: Snr)
    requires Fresh(c, name) && GoodStatus(s.status, c.world.clock)
    requires s == c.snr.(status := c.snr.status.(conditions := s.status.conditions))
    ensures Fresh(c.(snr := s), name)
  {
    hide GoodStatus, GoodName;
  }

  /** What is done to the workloads is done after the deadline. */
  lemma NoteKeepsSession(c: Session, name: string, e: Effect)
    requires Fresh(c, name) && Rank(c.snr.status.phase) >= 2
    requires e.snr == name && e.at == c.world.clock && e.deadline == c.snr.status.timeAssumedRebooted
    ensures Fresh(c.(world := Note(c.world, e)), name)
  {
    var w := c.world;
    var v := Note(w, e);
    assert GoodName(w, name);
    forall other | other in v.history ensures GoodName(v, other) {
      assert GoodName(w, other);
    }
    forall i | 0 <= i < |v.effects| ensures GoodEffect(v, v.effects[i]) {
      if i < |w.effects| { assert GoodEffect(w, w.effects[i]); }
    }
  }

  lemma DeletePodsKeepsSession(c: Session, name: string, copy: NodeCopy)
    requires Fresh(c, name) && Rank(c.snr.status.phase) >= 2
    ensures Fresh(DeletePods(c, name, copy).0, name) && DeletePods(c, name, copy).0.snr == c.snr
  {
    hide Fresh, Running;
    FreshIsRunning(c, name);
    ProceedKeepsSession(c, name);
    var d := Proceed(c);
    NoteKeepsSession(d, name, PodsDeleted(name, copy.name, d.world.clock, d.snr.status.timeAssumedRebooted));
  }

  lemma AddOutOfServiceKeepsSession(c: Session, name: string, copy: NodeCopy)
    requires Fresh(c, name) && Rank(c.snr.status.phase) >= 2
    ensures var d := AddOutOfServiceTaint(c, name, copy).0; Fresh(d, name) && d.snr == c.snr
  {
    hide Fresh, Running, WriteTaints;
    FreshIsRunning(c, name);
    var (d, _, err) := AddTaint(c, copy, OUT_OF_SERVICE);
    WriteTaintsKeepsSession(c, name, copy, copy.node.taints + [OUT_OF_SERVICE.(timeAdded := Some(c.world.clock))]);
    NoteKeepsSession(d, name, OutOfServiceAdded(name, copy.name, d.world.clock, d.snr.status.timeAssumedRebooted));
  }

  lemma RemoveTaintKeepsSession(c: Session, name: string, copy: NodeCopy, taint: Taint)
    requires Fresh(c, name)
    ensures var d := RemoveTaint(c, copy, taint).0; Fresh(d, name) && d.snr == c.snr
  {
    hide Fresh, WriteTaints;
    FreshIsRunning(c, name);
    WriteTaintsKeepsSession(c, name, copy, Without(copy.node.taints, taint));
  }

  lemma RemoveFinalizerKeepsSession(c: Session, name: string)
    requires Fresh(c, name) && c.snr.deleting && (c.snr.timedOut || c.snr.status.phase == Some(FencingCompleted))
    ensures Running(RemoveFinalizer(c, name).0, name)
  {
    var d := c.(snr := c.snr.(finalizer := false));
    assert Fresh(d, name);
    SendKeepsSession(d, name, SetFinalizer(false));
  }

  lemma RecoverNodeKeepsSession(c: Session, name: string, copy: NodeCopy, in_: Inputs)
    requires Fresh(c, name) && c.snr.deleting && (c.snr.timedOut || c.snr.status.phase == Some(FencingCompleted))
    ensures Running(RecoverNode(c, name, copy, in_).0, name)
  {
    hide Fresh, Running, RemoveTaint, RemoveFinalizer;
    RemoveTaintKeepsSession(c, name, copy, NO_SCHEDULE);
    var d := RemoveTaint(c, copy, NO_SCHEDULE).0;
    FreshIsRunning(d, name);
    RemoveFinalizerKeepsSession(d, name);
  }

  lemma FreshIsRunning(c: Session, name: string)
    requires Fresh(c, name)
    ensures Running(c, name)
  {
  }

  lemma AddFinalizerKeepsSession(c: Session, name: string, in_: Inputs)
    requires Running(c, name)
    ensures Running(AddFinalizer(c, name, in_).0, name)
  {
    hide Send;
    var d := c.(snr := c.snr.(finalizer := true));
    assert Running(d, name);
    SendKeepsSession(d, name, SetFinalizer(true));
  }

  /** The first phase: the deadline is set once, together with the step to the second phase. */
  lemma AdvanceToPreReboot(c: Session, name: string, copy: NodeCopy, in_: Inputs)
    requires Fresh(c, name) && c.snr.status.phase == None && c.snr.finalizer && c.snr.status.conditions != NO_CONDITIONS
    ensures var (d, ok) := SetTimeAssumedRebooted(c, copy, in_);
            && Running(d, name)
            && (ok ==> Running(d.(snr := SetPhase(d.snr, PreRebootCompleted)), name))
  {
    hide Proceed, GoodName, RebootDuration;
    ProceedKeepsSession(c, name);
  }

  lemma PrepareRebootKeepsSession(c: Session, name: string, copy: NodeCopy, in_: Inputs)
    requires Fresh(c, name) && c.snr.status.phase == None && c.snr.status.conditions != NO_CONDITIONS
    ensures Running(PrepareReboot(c, name, copy, in_).0, name)
  {
    hide Fresh, Running, AddFinalizer, SetTimeAssumedRebooted, WriteTaints;
    FreshIsRunning(c, name);
    AddFinalizerKeepsSession(c, name, in_);
    WriteTaintsKeepsSession(c, name, copy, copy.node.taints + [NO_SCHEDULE.(timeAdded := Some(c.world.clock))]);
    var (d, copy', _) := AddTaint(c, copy, NO_SCHEDULE);
    if c.snr.finalizer {
      FreshIsRunning(d, name);
      AdvanceToPreReboot(d, name, copy', in_);
    }
  }

  lemma WaitKeepsSession(c: Session, name: string)
    requires Fresh(c, name) && c.snr.status.phase == Some(PreRebootCompleted)
    ensures Running(WaitForNodeRebooted(c).0, name)
    ensures c.snr.status.timeAssumedRebooted.Some?
  {
    hide GoodName;
  }

  lemma UseOutOfServiceKeepsSession(c: Session, name: string, copy: NodeCopy, in_: Inputs)
    requires Fresh(c, name) && Rank(c.snr.status.phase) >= 2
    ensures var d := UseOutOfServiceTaint(c, name, copy, in_).0; Fresh(d, name) && d.snr == c.snr
  {
    hide Fresh, AddOutOfServiceTaint, RemoveTaint, Rank;
    AddOutOfServiceKeepsSession(c, name, copy);
    var (d, copy', _) := AddOutOfServiceTaint(c, name, copy);
    RemoveTaintKeepsSession(d, name, copy', OUT_OF_SERVICE);
  }

  lemma FinishKeepsSession(c: Session, name: string)
    requires Fresh(c, name) && c.snr.status.phase == Some(RebootCompleted)
    ensures Running(c.(snr := UpdateConditions(SetPhase(c.snr, FencingCompleted), FinishedSuccessfully)), name)
  {
    hide GoodName;
  }

  lemma HandleRebootCompletedKeepsSession(c: Session, name: string, copy: NodeCopy, in_: Inputs, strategy: Strategy)
    requires Fresh(c, name) && c.snr.status.phase == Some(RebootCompleted)
    ensures Running(HandleRebootCompleted(c, name, copy, in_, strategy).0, name)
  {
    hide Fresh, Running, UseOutOfServiceTaint, DeletePods;
    UseOutOfServiceKeepsSession(c, name, copy, in_);
    DeletePodsKeepsSession(c, name, copy);
    var d := RemoveResources(c, name, copy, in_, strategy).0;
    FreshIsRunning(d, name);
    FinishKeepsSession(d, name);
  }

  lemma RemediateKeepsSession(c: Session, name: string, copy: NodeCopy, in_: Inputs, strategy: Strategy)
    requires Fresh(c, name) && c.snr.status.conditions != NO_CONDITIONS
    ensures Running(Remediate(c, name, copy, in_, strategy).0, name)
  {
    hide Fresh, Running, PrepareReboot, WaitForNodeRebooted, HandleRebootCompleted, RecoverNode;
    FreshIsRunning(c, name);
    match c.snr.status.phase
    case None => PrepareRebootKeepsSession(c, name, copy, in_);
    case Some(PreRebootCompleted) => WaitKeepsSession(c, name);
    case Some(RebootCompleted) => HandleRebootCompletedKeepsSession(c, name, copy, in_, strategy);
    case Some(FencingCompleted) => if c.snr.deleting { RecoverNodeKeepsSession(c, name, copy, in_); }
    case Some(Unrecognised) =>
  }

  lemma UpdateLastErrorKeepsSession(c: Session, name: string, in_: Inputs, result: Result)
    requires Running(c, name)
    ensures Running(UpdateLastError(c, name, in_, result).0, name)
  {
    hide Send;
    var text := match result.err case Some(t) => t case None => "";
    var d := c.(snr := c.snr.(status := c.snr.status.(lastError := text)));
    assert Running(d, name);
    SendKeepsSession(d, name, SetLastError(text));
  }

  lemma StoppedByNHCKeepsSession(c: Session, name: string, in_: Inputs)
    requires Fresh(c, name) && c.snr.timedOut
    ensures Running(StoppedByNHC(c, name, in_).0, name)
  {
    hide Fresh, Running, RemoveTaint, RemoveFinalizer, RecoverNode, Proceed;
    FreshIsRunning(c, name);
    if !c.snr.deleting {
      ConditionsFit(c, name, TimeoutByNHC);
      RecallKeepsFresh(c, name, UpdateConditions(c.snr, TimeoutByNHC));
      FreshIsRunning(c.(snr := UpdateConditions(c.snr, TimeoutByNHC)), name);
    } else {
      ProceedKeepsSession(c, name);
      var (d, found) := GetNode(c, in_);
      match found
      case Found(copy) =>
        RemoveTaintKeepsSession(d, name, copy, OUT_OF_SERVICE);
        var (e, copy', err) := RemoveTaint(d, copy, OUT_OF_SERVICE);
        FreshIsRunning(e, name);
        RecoverNodeKeepsSession(e, name, copy', in_);
      case Missing => RemoveFinalizerKeepsSession(d, name);
      case Unreadable =>
    }
  }

  lemma ConditionsFit(c: Session, name: string, reason: Reason)
    requires Fresh(c, name) && reason != FinishedSuccessfully
    requires reason == RemediationStarted ==> c.snr.status.phase != Some(FencingCompleted)
    ensures GoodStatus(UpdateConditions(c.snr, reason).status, c.world.clock)
  {
    hide GoodName;
  }

  lemma RemediateNodeKeepsSession(c: Session, name: string, in_: Inputs)
    requires Fresh(c, name)
    ensures Running(RemediateNode(c, name, in_).0, name)
  {
    hide Fresh, Running, Remediate, UpdateLastError, Proceed, GoodStatus;
    var started := if c.snr.status.phase == Some(FencingCompleted) then c else c.(snr := UpdateConditions(c.snr, RemediationStarted));
    if c.snr.status.phase != Some(FencingCompleted) {
      ConditionsFit(c, name, RemediationStarted);
      RecallKeepsFresh(c, name, started.snr);
    }
    ConditionsPresent(started, name);
    FreshIsRunning(started, name);
    ProceedKeepsSession(started, name);
    var (d, found) := GetNode(started, in_);
    FreshIsRunning(d, name);
    match found
    case Missing =>
      ConditionsFit(d, name, SkippedNodeNotFound);
      var skipped := d.(snr := UpdateConditions(d.snr, SkippedNodeNotFound));
      RecallKeepsFresh(d, name, skipped.snr);
      FreshIsRunning(skipped, name);
      UpdateLastErrorKeepsSession(skipped, name, in_, Failed(in_.errorText));
    case Unreadable => UpdateLastErrorKeepsSession(d, name, in_, Failed(in_.errorText));
    case Found(copy) =>
      var strategy := RuntimeStrategy(d.snr.strategy, in_.outOfServiceGA);
      RemediateKeepsSession(d, name, copy, in_, strategy);
      var (e, result) := if strategy == Unsupported then (d, DONE) else Remediate(d, name, copy, in_, strategy);
      UpdateLastErrorKeepsSession(e, name, in_, result);
  }

  lemma ConditionsPresent(c: Session, name: string)
    requires Fresh(c, name) && (c.snr.status.phase.Some? || c.snr.status.conditions.processing.Some?)
    ensures c.snr.status.conditions != NO_CONDITIONS
  {
    hide GoodName;
  }

  lemma BodyKeepsSession(c: Session, name: string, in_: Inputs)
    requires Fresh(c, name)
    ensures Running(Body(c, name, in_).0, name)
  {
    hide Fresh, Running, StoppedByNHC, RemediateNode, Proceed;
    FreshIsRunning(c, name);
    ProceedKeepsSession(c, name);
    var d := Proceed(c);
    FreshIsRunning(d, name);
    DisabledFits(d, name);
    if d.snr.timedOut {
      StoppedByNHCKeepsSession(d, name, in_);
    } else {
      RemediateNodeKeepsSession(d, name, in_);
    }
  }

  lemma DisabledFits(c: Session, name: string)
    requires Fresh(c, name)
    ensures Running(c.(snr := SetDisabled(c.snr)), name)
  {
    hide GoodName;
  }

  /** Every reconcile keeps the invariant. */
  lemma ReconcileKeepsGood(w: World, name: string, i: nat, turns: seq<Turn>, in_: Inputs)
    requires Good(w) && name in w.history && i < |w.history[name]|
    ensures Good(Reconcile(w, name, w.history[name][i], turns, in_).0.world)
  {
    hide Fresh, Body, Send;
    AnySnapshotWillDo(w, name, i, turns);
    var c := Session(w, w.history[name][i], turns);
    BodyKeepsSession(c, name, in_);
    var d := Body(c, name, in_).0;
    SendKeepsSession(d, name, SetStatus(d.snr.status));
  }
}

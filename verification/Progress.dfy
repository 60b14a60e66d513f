/** Left alone, a remediation finishes. */
module Progress {
  import opened Common
  import opened Taints
  import opened Calculator
  import opened Store
  import opened Remediation
  import opened Safety

  /** Nothing keeps this reconcile from making progress. */
  ghost predicate Favourable(s: Snr, in_: Inputs) {
    var strategy := RuntimeStrategy(s.strategy, in_.outOfServiceGA);
    && in_.config == ConfigPresent && in_.nodeRead == NodeFromServer && in_.agentPod && in_.spec.Some? && in_.workers.Some?
    && strategy != Unsupported
    && (strategy == OutOfServiceTaint ==> ResourceDeletionCompleted(in_, s.target))
  }

  /** The SNR is neither stopped nor deleted, and its node can be remediated. */
  ghost predicate Underway(w: World, name: string) {
    && name in w.snrs && name in w.history
    && Good(w) && !w.snrs[name].deleting && !w.snrs[name].timedOut
    && w.snrs[name].target in w.nodes
    && !w.nodes[w.snrs[name].target].excluded && IsRebootCapable(w.nodes[w.snrs[name].target].annotations)
  }

  /** Reconciles that are still needed. */
  function Remaining(s: Snr, now: int): nat {
    match s.status.phase
    case None => if s.finalizer then 4 else 5
    case Some(PreRebootCompleted) =>
      if s.status.timeAssumedRebooted.Some? && s.status.timeAssumedRebooted.value.due > now then 3 else 2
    case Some(RebootCompleted) => 1
    case Some(_) => 0
  }

  /** One reconcile without faults or interference. Before the next one the requested time passes, and others act as they
      like. */
  function Round(w: World, name: string, in_: Inputs, others: seq<Env>): World {
    if name !in w.snrs then w
    else
      var (c, result) := Reconcile(w, name, w.snrs[name], [], in_);
      ActAll(Act(c.world, Tick(if result.after > 0 then result.after else 0)), others)
  }

  // One request at a time.

  /** Memory and server agree on the version and on what matters here. */
  ghost predicate InStep(c: Session, name: string) {
    && c.turns == [] && name in c.world.snrs && name in c.world.history
    && var stored := c.world.snrs[name];
      && stored.version == c.snr.version
      && !stored.deleting && !c.snr.deleting && !stored.timedOut && !c.snr.timedOut
      && stored.strategy == c.snr.strategy && stored.target == c.snr.target
  }

  /** The server changed only in this SNR and in the taints of nodes. */
  ghost predicate Beside(w: World, v: World, name: string) {
    && v.clock == w.clock && v.snrs.Keys == w.snrs.Keys && v.history.Keys == w.history.Keys
    && v.nodes.Keys == w.nodes.Keys
    && (name in w.snrs ==> v.snrs[name].target == w.snrs[name].target && v.snrs[name].strategy == w.snrs[name].strategy)
    && (forall node :: node in w.nodes ==> v.nodes[node].excluded == w.nodes[node].excluded
                                           && v.nodes[node].annotations == w.nodes[node].annotations)
  }

  lemma SendArrives(c: Session, name: string, change: Change)
    requires InStep(c, name)
    ensures var (d, err) := Send(c, name, change);
            && err == NoError && InStep(d, name) && Beside(c.world, d.world, name)
            && d.world.snrs[name] == Changed(c.world.snrs[name], change)
            && d.snr == Decode(c.snr, d.world.snrs[name])
  {
  }

  lemma WriteTaintsArrives(c: Session, name: string, copy: NodeCopy, taints: seq<Taint>)
    requires InStep(c, name) && copy.name in c.world.nodes
    ensures var (d, copy', err) := WriteTaints(c, copy, taints);
            && err == NoError && InStep(d, name) && Beside(c.world, d.world, name)
            && d.world.snrs == c.world.snrs && d.snr == c.snr && copy'.name == copy.name
  {
  }

  /** A new error text is stored; what was stored before then replaces the memory. */
  lemma LastErrorCleared(c: Session, name: string, in_: Inputs, result: Result)
    requires InStep(c, name) && result.err == None
    ensures var (d, result') := UpdateLastError(c, name, in_, result);
            && result' == result && InStep(d, name) && Beside(c.world, d.world, name)
            && d.snr.status.lastError == "" && d.world.snrs[name].finalizer == c.world.snrs[name].finalizer
            && (c.snr.status.lastError == "" ==> d == c)
            && (c.snr.status.lastError != "" ==>
                  d.snr.status == DecodeStatus(c.snr.status.(lastError := ""), c.world.snrs[name].status.(lastError := "")))
  {
    hide Send;
    SendArrives(c.(snr := c.snr.(status := c.snr.status.(lastError := ""))), name, SetLastError(""));
  }

  // The phases.

  lemma PrepareSucceeds(c: Session, name: string, copy: NodeCopy, in_: Inputs)
    requires InStep(c, name) && in_.agentPod && in_.spec.Some? && in_.workers.Some? && copy.name in c.world.nodes && IsRebootCapable(copy.node.annotations)
    requires c.snr.status.phase == None && c.world.snrs[name].status.phase == None
    requires c.world.snrs[name].finalizer == c.snr.finalizer && c.world.snrs[name].status.lastError == c.snr.status.lastError
    ensures var (d, result) := PrepareReboot(c, name, copy, in_);
            && result.err == None && result.after == 0 && InStep(d, name) && Beside(c.world, d.world, name)
            && d.world.snrs[name].status == c.world.snrs[name].status
            && d.world.snrs[name].finalizer
            && d.snr.status.phase == (if c.snr.finalizer then Some(PreRebootCompleted) else None)
            && d.snr.status.lastError == c.snr.status.lastError
  {
    hide Send, WriteTaints;
    if !c.snr.finalizer {
      SendArrives(c.(snr := c.snr.(finalizer := true)), name, SetFinalizer(true));
    } else {
      WriteTaintsArrives(c, name, copy, copy.node.taints + [NO_SCHEDULE.(timeAdded := Some(c.world.clock))]);
    }
  }

  lemma RemovalSucceeds(c: Session, name: string, copy: NodeCopy, in_: Inputs, strategy: Strategy)
    requires InStep(c, name) && copy.name in c.world.nodes
    requires strategy == OutOfServiceTaint ==> ResourceDeletionCompleted(in_, copy.name)
    ensures var (d, result) := RemoveResources(c, name, copy, in_, strategy);
            result == DONE && InStep(d, name) && Beside(c.world, d.world, name) && d.world.snrs == c.world.snrs && d.snr == c.snr
  {
    hide WriteTaints;
    if strategy == OutOfServiceTaint {
      WriteTaintsArrives(c, name, copy, copy.node.taints + [OUT_OF_SERVICE.(timeAdded := Some(c.world.clock))]);
      var (d, copy', _) := AddOutOfServiceTaint(c, name, copy);
      WriteTaintsArrives(d, name, copy', Without(copy'.node.taints, OUT_OF_SERVICE));
    }
  }

  /** What remains after this phase, if the memory is kept. */
  lemma RemediateSucceeds(c: Session, name: string, copy: NodeCopy, in_: Inputs, strategy: Strategy)
    requires InStep(c, name) && in_.agentPod && in_.spec.Some? && in_.workers.Some? && copy.name in c.world.nodes && IsRebootCapable(copy.node.annotations)
    requires c.world.snrs[name].finalizer == c.snr.finalizer && c.world.snrs[name].status.lastError == c.snr.status.lastError
    requires c.snr.status.phase == c.world.snrs[name].status.phase && c.snr.status.phase != Some(Unrecognised)
    requires c.snr.status.phase.Some? ==> c.snr.status.timeAssumedRebooted.Some?
    requires strategy == OutOfServiceTaint ==> ResourceDeletionCompleted(in_, copy.name)
    ensures var (d, result) := Remediate(c, name, copy, in_, strategy);
            && result.err == None && InStep(d, name) && Beside(c.world, d.world, name)
            && d.world.snrs[name].status == c.world.snrs[name].status
            && d.snr.status.lastError == c.snr.status.lastError
            && d.world.snrs[name].finalizer == (c.snr.finalizer || c.snr.status.phase == None)
            && Advanced(c.snr, d.snr.status, c.world.clock, result)
  {
    hide PrepareReboot, RemoveResources;
    match c.snr.status.phase
    case None => PrepareSucceeds(c, name, copy, in_);
    case Some(RebootCompleted) => RemovalSucceeds(c, name, copy, in_, strategy);
    case _ =>
  }

  /** One phase further, or the requested wait reaches the deadline. */
  ghost predicate Advanced(a: Snr, b: Status, now: int, result: Result) {
    match a.status.phase
    case None => b.phase == if a.finalizer then Some(PreRebootCompleted) else None
    case Some(PreRebootCompleted) =>
      if a.status.timeAssumedRebooted.Some? && a.status.timeAssumedRebooted.value.due > now
      then b.phase == a.status.phase && b.timeAssumedRebooted == a.status.timeAssumedRebooted && a.status.timeAssumedRebooted.value.due < now + result.after
      else b.phase == Some(RebootCompleted)
    case Some(RebootCompleted) => b.phase == Some(FencingCompleted)
    case Some(_) => b.phase == a.status.phase
  }

  /** Without a stale error the memory is stored; otherwise the error is cleared and the stored phase kept. */
  lemma FoundSucceeds(c: Session, name: string, copy: NodeCopy, in_: Inputs)
    requires InStep(c, name) && Favourable(c.snr, in_) && copy.name == c.snr.target && copy.name in c.world.nodes && IsRebootCapable(copy.node.annotations) && !copy.node.excluded
    requires c.world.snrs[name].finalizer == c.snr.finalizer && c.world.snrs[name].status.lastError == c.snr.status.lastError
    requires c.snr.status.(conditions := NO_CONDITIONS) == c.world.snrs[name].status.(conditions := NO_CONDITIONS)
    requires c.snr.status.phase != Some(Unrecognised)
    requires c.snr.status.phase.Some? ==> c.snr.status.timeAssumedRebooted.Some?
    ensures var (d, result) := RemediateFound(c, name, copy, in_);
            && InStep(d, name) && Beside(c.world, d.world, name) && result.err == None && d.snr.status.lastError == ""
            && d.world.snrs[name].finalizer == (c.snr.finalizer || c.snr.status.phase == None)
            && (c.snr.status.lastError == "" || c.snr.status.phase == None ==> Advanced(c.snr, d.snr.status, c.world.clock, result))
            && (c.snr.status.lastError != "" && c.snr.status.phase.Some? ==>
                  d.snr.status.phase == c.snr.status.phase && d.snr.status.timeAssumedRebooted == c.snr.status.timeAssumedRebooted)
  {
    hide Remediate, UpdateLastError, RuntimeStrategy, ResourceDeletionCompleted;
    var strategy := RuntimeStrategy(c.snr.strategy, in_.outOfServiceGA);
    RemediateSucceeds(c, name, copy, in_, strategy);
    var (d, result) := Remediate(c, name, copy, in_, strategy);
    LastErrorCleared(d, name, in_, result);
  }

  /** The final update stores the status in memory. */
  lemma ReconcileSucceeds(w: World, name: string, in_: Inputs)
    requires Underway(w, name) && Favourable(w.snrs[name], in_)
    ensures var s, (c, result) := w.snrs[name], Reconcile(w, name, w.snrs[name], [], in_);
            && name in c.world.snrs && name in c.world.history && Beside(w, c.world, name) && result.err == None
            && var t := c.world.snrs[name];
              && t.target == s.target && t.strategy == s.strategy && !t.deleting && !t.timedOut && t.status.lastError == ""
              && t.finalizer == (s.finalizer || s.status.phase == None)
              && (s.status.lastError == "" || s.status.phase == None ==> Advanced(s, t.status, w.clock, result))
              && (s.status.lastError != "" && s.status.phase.Some? ==>
                    t.status.phase == s.status.phase && t.status.timeAssumedRebooted == s.status.timeAssumedRebooted)
  {
    hide Good, Send, Body, RemediateFound, Favourable;
    var s := w.snrs[name];
    LastIsStored(w, name);
    FavourableSame(s, Started(s), in_);
    FoundSucceeds(Session(w, Started(s), []), name, NodeCopy(s.target, w.nodes[s.target]), in_);
    BodyFindsNode(w, name, in_);
    var d := Body(Session(w, s, []), name, in_).0;
    SendArrives(d, name, SetStatus(d.snr.status));
  }

  function Started(s: Snr): Snr {
    if s.status.phase == Some(FencingCompleted) then s else UpdateConditions(s, RemediationStarted)
  }

  lemma BodyFindsNode(w: World, name: string, in_: Inputs)
    requires Underway(w, name) && Favourable(w.snrs[name], in_)
    ensures var s := w.snrs[name];
            Body(Session(w, s, []), name, in_)
            == RemediateFound(Session(w, Started(s), []), name, NodeCopy(s.target, w.nodes[s.target]), in_)
  {
    hide Good, RemediateFound;
  }

  lemma FavourableSame(s: Snr, t: Snr, in_: Inputs)
    requires Favourable(s, in_) && t.strategy == s.strategy && t.target == s.target
    ensures Favourable(t, in_) && in_.config == ConfigPresent && in_.nodeRead == NodeFromServer
  {
  }

  // Rounds.

  lemma ActKeepsSnr(w: World, e: Env, name: string)
    requires Good(w) && name in w.snrs
    ensures Good(Act(w, e)) && w.clock <= Act(w, e).clock && name in Act(w, e).history
    ensures name in Act(w, e).snrs ==> SameDuty(w.snrs[name], Act(w, e).snrs[name])
  {
    hide Good, Act, SameDuty, SameStatuses, Last;
    ActKeepsGood(w, e);
    ActKeepsDuty(w, e, name);
    LastIsStored(w, name);
  }

  lemma ActKeepsDuty(w: World, e: Env, name: string)
    requires name in w.snrs
    ensures name in w.history && name in Act(w, e).snrs ==> SameDuty(w.snrs[name], Act(w, e).snrs[name])
  {
    hide ForeignTaints, OwnTaints;
  }

  /** Everything about progress is unchanged. */
  ghost predicate SameDuty(s: Snr, t: Snr) {
    t.status == s.status && t.finalizer == s.finalizer && t.target == s.target && t.strategy == s.strategy
  }

  lemma ActKeepsGone(w: World, e: Env, name: string)
    requires name in w.history && name !in w.snrs
    ensures name in Act(w, e).history && name !in Act(w, e).snrs
  {
  }

  lemma {:induction false} OthersKeepGone(w: World, es: seq<Env>, name: string)
    requires name in w.history && name !in w.snrs
    ensures name !in ActAll(w, es).snrs
    decreases |es|
  {
    hide Act;
    if es != [] {
      ActKeepsGone(w, es[0], name);
      OthersKeepGone(Act(w, es[0]), es[1..], name);
    }
  }

  /** Others never change the progress of an SNR that survives them. */
  lemma {:induction false} OthersKeepSnr(w: World, es: seq<Env>, name: string)
    requires Good(w) && name in w.snrs
    ensures Good(ActAll(w, es)) && w.clock <= ActAll(w, es).clock
    ensures name in ActAll(w, es).snrs ==> SameDuty(w.snrs[name], ActAll(w, es).snrs[name])
    decreases |es|
  {
    hide Act, Good;
    if es != [] {
      ActKeepsSnr(w, es[0], name);
      var v := Act(w, es[0]);
      if name in v.snrs {
        OthersKeepSnr(v, es[1..], name);
      } else {
        OthersKeepGone(v, es[1..], name);
        StaysGood(v, es[1..]);
      }
    }
  }

  lemma {:induction false} StaysGood(w: World, es: seq<Env>)
    requires Good(w)
    ensures Good(ActAll(w, es)) && w.clock <= ActAll(w, es).clock
    decreases |es|
  {
    hide Act, Good;
    if es != [] {
      ActKeepsGood(w, es[0]);
      StaysGood(Act(w, es[0]), es[1..]);
    }
  }

  /** Every round brings the end nearer. A stale error costs one round, in which it is cleared and nothing is lost. */
  lemma RoundMakesProgress(w: World, name: string, in_: Inputs, others: seq<Env>)
    requires Underway(w, name) && Favourable(w.snrs[name], in_) && name in Round(w, name, in_, others).snrs
    ensures var s, v := w.snrs[name], Round(w, name, in_, others);
            && v.snrs[name].status.lastError == "" && v.snrs[name].target == s.target && v.snrs[name].strategy == s.strategy
            && Remaining(v.snrs[name], v.clock) <= Remaining(s, w.clock)
            && (s.status.lastError == "" && Remaining(s, w.clock) > 0 ==> Remaining(v.snrs[name], v.clock) < Remaining(s, w.clock))
  {
    hide Good, Reconcile, Favourable, ActAll, Remaining, Advanced;
    LastIsStored(w, name);
    ReconcileSucceeds(w, name, in_);
    ReconcileKeepsGood(w, name, |w.history[name]| - 1, [], in_);
    var (c, result) := Reconcile(w, name, w.snrs[name], [], in_);
    var waited := Act(c.world, Tick(if result.after > 0 then result.after else 0));
    ActKeepsGood(c.world, Tick(if result.after > 0 then result.after else 0));
    OthersKeepSnr(waited, others, name);
    var v := ActAll(waited, others);
    assert Advances(w.snrs[name], c.world.snrs[name], w.clock, result);
    RemainingDrops(w.snrs[name], c.world.snrs[name], v.snrs[name], w.clock, v.clock, result);
  }

  /** What a favourable reconcile leaves behind. */
  ghost predicate Advances(s: Snr, t: Snr, now: int, result: Result) {
    && t.status.lastError == "" && t.finalizer == (s.finalizer || s.status.phase == None)
    && (s.status.lastError == "" || s.status.phase == None ==> Advanced(s, t.status, now, result))
    && (s.status.lastError != "" && s.status.phase.Some? ==>
          t.status.phase == s.status.phase && t.status.timeAssumedRebooted == s.status.timeAssumedRebooted)
  }

  lemma RemainingDrops(s: Snr, t: Snr, u: Snr, now: int, later: int, result: Result)
    requires Advances(s, t, now, result) && SameDuty(t, u) && s.status.phase != Some(Unrecognised)
    requires now <= later && (result.after > 0 ==> now + result.after <= later)
    ensures Remaining(u, later) <= Remaining(s, now)
    ensures s.status.lastError == "" && Remaining(s, now) > 0 ==> Remaining(u, later) < Remaining(s, now)
  {
  }

  datatype Visit = Visit(inputs: Inputs, others: seq<Env>)

  function Rounds(w: World, name: string, visits: seq<Visit>): World
    decreases |visits|
  {
    if visits == [] then w else Rounds(Round(w, name, visits[0].inputs, visits[0].others), name, visits[1..])
  }

  /** The reconciles are favourable, and the others leave the remediation under way. */
  ghost predicate Undisturbed(w: World, name: string, visits: seq<Visit>)
    decreases |visits|
  {
    && Underway(w, name)
    && (visits != [] ==>
          && Favourable(w.snrs[name], visits[0].inputs)
          && Undisturbed(Round(w, name, visits[0].inputs, visits[0].others), name, visits[1..]))
  }

  lemma {:induction false} RoundsFinish(w: World, name: string, visits: seq<Visit>)
    requires Undisturbed(w, name, visits)
    requires |visits| >= Remaining(w.snrs[name], w.clock) + if w.snrs[name].status.lastError == "" then 0 else 1
    ensures name in Rounds(w, name, visits).snrs
    ensures Rounds(w, name, visits).snrs[name].status.phase == Some(FencingCompleted)
    decreases |visits|
  {
    hide Good, Round, Favourable;
    if visits == [] {
      LastIsStored(w, name);
    } else {
      RoundMakesProgress(w, name, visits[0].inputs, visits[0].others);
      RoundsFinish(Round(w, name, visits[0].inputs, visits[0].others), name, visits[1..]);
    }
  }

  /** A new SNR is fenced after at most five reconciles, one of which waits for the deadline, whatever others do in between
      as long as they leave the remediation under way; with an error left over from before, after at most six from
      wherever it stands. */
  lemma FencedInFiveReconciles(w: World, name: string, visits: seq<Visit>)
    requires Undisturbed(w, name, visits)
    requires |visits| >= if w.snrs[name].status.lastError == "" then 5 else 6
    ensures name in Rounds(w, name, visits).snrs
    ensures Rounds(w, name, visits).snrs[name].status.phase == Some(FencingCompleted)
  {
    hide Good, Undisturbed, Rounds;
    assert Underway(w, name) by { StartsUnderway(w, name, visits); }
    RoundsFinish(w, name, visits);
  }

  lemma StartsUnderway(w: World, name: string, visits: seq<Visit>)
    requires Undisturbed(w, name, visits)
    ensures Underway(w, name)
  {
  }
}

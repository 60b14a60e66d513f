/** Whole runs of the manager. */
module ManagerRuns {
  import opened Common
  import opened Taints
  import opened Calculator
  import opened Store
  import opened Remediation
  import opened Safety
  import opened NoOrphan
  import opened Growth

  /** Others act, or the manager reconciles an SNR, starting from the stored version with the given index. */
  datatype Step = Others(e: Env) | Manager(name: string, index: nat, turns: seq<Turn>, inputs: Inputs)

  function Take(w: World, s: Step): World {
    match s
    case Others(e) => Act(w, e)
    case Manager(name, i, turns, in_) =>
      if name in w.history && i < |w.history[name]| then Reconcile(w, name, w.history[name][i], turns, in_).0.world else w
  }

  /** No SNRs yet, and no remediation taints. */
  ghost predicate IsStart(w: World) {
    && w.snrs == map[] && w.history == map[] && w.effects == []
    && (forall node :: !Tainted(w, node, NO_SCHEDULE) && !Tainted(w, node, OUT_OF_SERVICE))
  }

  ghost predicate IsRun(worlds: seq<World>, steps: seq<Step>) {
    && |worlds| == |steps| + 1 && IsStart(worlds[0])
    && (forall i :: 0 <= i < |steps| ==> worlds[i + 1] == Take(worlds[i], steps[i]))
  }

  lemma StartIsGood(w: World)
    requires IsStart(w)
    ensures Good(w)
  {
  }

  lemma TakeKeepsGood(w: World, s: Step)
    requires Good(w)
    ensures Good(Take(w, s))
  {
    hide Good, Reconcile, Act;
    match s
    case Others(e) => ActKeepsGood(w, e);
    case Manager(name, i, turns, in_) =>
      if name in w.history && i < |w.history[name]| { ReconcileKeepsGood(w, name, i, turns, in_); }
  }

  lemma {:induction false} RunIsGood(worlds: seq<World>, steps: seq<Step>, k: nat)
    requires IsRun(worlds, steps) && k < |worlds|
    ensures Good(worlds[k])
  {
    hide Take;
    if k > 0 {
      RunIsGood(worlds, steps, k - 1);
      TakeKeepsGood(worlds[k - 1], steps[k - 1]);
      assert worlds[k] == Take(worlds[k - 1], steps[k - 1]);
    }
  }

  lemma TakeGrows(w: World, s: Step)
    ensures Later(w, Take(w, s))
  {
    hide Reconcile, Act, Later;
    Still(w);
    match s
    case Others(e) => ActGrows(w, e);
    case Manager(name, i, turns, in_) =>
      if name in w.history && i < |w.history[name]| { ReconcileTouches(w, name, w.history[name][i], turns, in_); }
  }

  /** Time, the stored versions and the effects on workloads only grow, so what is said of any later history is
      said of everything that was ever stored. */
  lemma {:induction false} RunOnlyGrows(worlds: seq<World>, steps: seq<Step>, k: nat, m: nat)
    requires IsRun(worlds, steps) && k <= m < |worlds|
    ensures Later(worlds[k], worlds[m])
  {
    hide Take, Later, IsStart;
    if k == m {
      Still(worlds[k]);
    } else {
      RunOnlyGrows(worlds, steps, k, m - 1);
      TakeGrows(worlds[m - 1], steps[m - 1]);
      assert worlds[m] == Take(worlds[m - 1], steps[m - 1]);
      LaterTrans(worlds[k], worlds[m - 1], worlds[m]);
    }
  }

  /** The persisted phase moves from nil to Pre-Reboot to Reboot to Fencing-Completed one step at a time and never
      back, and every phase comes with a deadline: in every run, between any two consecutive versions. */
  lemma PhasesInOrder(worlds: seq<World>, steps: seq<Step>, k: nat, name: string, i: nat)
    requires IsRun(worlds, steps) && k < |worlds|
    requires name in worlds[k].history && i + 1 < |worlds[k].history[name]|
    ensures var old_, new_ := worlds[k].history[name][i].status, worlds[k].history[name][i + 1].status;
            && (new_.phase == old_.phase
                || (old_.phase == None && new_.phase == Some(PreRebootCompleted))
                || (old_.phase == Some(PreRebootCompleted) && new_.phase == Some(RebootCompleted))
                || (old_.phase == Some(RebootCompleted) && new_.phase == Some(FencingCompleted)))
            && (new_.phase.Some? ==> new_.timeAssumedRebooted.Some?)
  {
    RunIsGood(worlds, steps, k);
    assert GoodName(worlds[k], name);
    var h := worlds[k].history[name];
    assert GoodSnr(h[i], worlds[k].clock) && GoodSnr(h[i + 1], worlds[k].clock) && Evolves(h[i], h[i + 1]);
  }

  /** The persisted deadline is written once: no later version of an SNR has another one. */
  lemma DeadlineWrittenOnce(worlds: seq<World>, steps: seq<Step>, k: nat, name: string, i: nat, j: nat)
    requires IsRun(worlds, steps) && k < |worlds|
    requires name in worlds[k].history && i <= j < |worlds[k].history[name]|
    requires worlds[k].history[name][i].status.timeAssumedRebooted.Some?
    ensures worlds[k].history[name][j].status.timeAssumedRebooted == worlds[k].history[name][i].status.timeAssumedRebooted
  {
    RunIsGood(worlds, steps, k);
    assert GoodName(worlds[k], name);
    if i < j { HistoryIsOrdered(worlds[k].history[name], worlds[k].clock, i, j); }
  }

  /** Pods are deleted, and the out-of-service taint is added on record, only once the persisted deadline has passed, and
      that deadline was, to the second, the calculated duration after it was computed, which is never less than the
      calculated minimum. */
  lemma WorkloadsAfterDeadline(worlds: seq<World>, steps: seq<Step>, k: nat, e: Effect)
    requires IsRun(worlds, steps) && k < |worlds| && e in worlds[k].effects
    ensures e.deadline.Some? && e.snr in worlds[k].history && worlds[k].history[e.snr] != []
    ensures Last(worlds[k].history[e.snr]).status.timeAssumedRebooted == e.deadline
    ensures var d := e.deadline.value;
            && worlds[k].clock >= e.at >= d.due > d.computedAt + RebootDuration(d.basis) - SECOND
            && d.due > d.computedAt + MinimumRebootDuration(d.basis.spec, d.basis.workers, EffectiveWatchdogTimeout(d.basis.annotations)) - SECOND
  {
    RunIsGood(worlds, steps, k);
    var w := worlds[k];
    var i :| 0 <= i < |w.effects| && w.effects[i] == e;
    assert GoodEffect(w, w.effects[i]);
    assert GoodName(w, e.snr);
    assert GoodSnr(Last(w.history[e.snr]), w.clock);
  }

  /** Succeeded is only ever reported in the last phase, and in the last phase Processing is over. */
  lemma ConditionsFollowPhase(worlds: seq<World>, steps: seq<Step>, k: nat, name: string, i: nat)
    requires IsRun(worlds, steps) && k < |worlds|
    requires name in worlds[k].history && i < |worlds[k].history[name]|
    ensures var s := worlds[k].history[name][i].status;
            && (s.conditions.succeeded == Some(True) ==> s.phase == Some(FencingCompleted))
            && (s.phase == Some(FencingCompleted) ==> s.conditions.processing == Some(False))
  {
    RunIsGood(worlds, steps, k);
    assert GoodName(worlds[k], name);
    assert GoodSnr(worlds[k].history[name][i], worlds[k].clock);
  }

  /** In no run does a reconcile reach a phase that needs the deadline without having one, which would be a nil
      pointer. */
  lemma NeverWithoutDeadline(worlds: seq<World>, steps: seq<Step>, k: nat, name: string, i: nat)
    requires IsRun(worlds, steps) && k < |worlds|
    requires name in worlds[k].history && i < |worlds[k].history[name]|
    requires worlds[k].history[name][i].status.phase.Some?
    ensures worlds[k].history[name][i].status.timeAssumedRebooted.Some?
    ensures worlds[k].history[name][i].status.phase != Some(Unrecognised)
  {
    RunIsGood(worlds, steps, k);
    assert GoodName(worlds[k], name);
    assert GoodSnr(worlds[k].history[name][i], worlds[k].clock);
  }

  // Runs with fresh reads.

  /** The manager reads the current SNR and the current node. */
  ghost predicate ReadsCurrent(w: World, s: Step, ga: bool) {
    s.Manager? ==>
      && s.name in w.snrs && s.name in w.history && s.index + 1 == |w.history[s.name]|
      && s.inputs.nodeRead in {NodeFromServer, NodeUnreadable} && s.inputs.outOfServiceGA == ga
  }

  ghost predicate IsCurrentRun(worlds: seq<World>, steps: seq<Step>, ga: bool) {
    IsRun(worlds, steps) && forall i :: 0 <= i < |steps| ==> ReadsCurrent(worlds[i], steps[i], ga)
  }

  lemma TakeKeepsTidy(w: World, s: Step, ga: bool)
    requires Good(w) && Tidy(w, ga) && ReadsCurrent(w, s, ga)
    ensures Tidy(Take(w, s), ga)
  {
    hide Good, Guarded, Evicted, Reconcile, Preserves, Act;
    match s
    case Others(e) =>
      ActPreserves(w, e, ga);
      PreservesTidy(w, Act(w, e), ga, {});
    case Manager(name, i, turns, in_) =>
      LastIsStored(w, name);
      ReconcileKeepsTidy(w, ga, name, turns, in_);
  }

  lemma {:induction false} RunIsTidy(worlds: seq<World>, steps: seq<Step>, ga: bool, k: nat)
    requires IsCurrentRun(worlds, steps, ga) && k < |worlds|
    ensures Tidy(worlds[k], ga)
  {
    hide Take, Tainted, Good;
    if k > 0 {
      RunIsTidy(worlds, steps, ga, k - 1);
      RunIsGood(worlds, steps, k - 1);
      TakeKeepsTidy(worlds[k - 1], steps[k - 1], ga);
      assert worlds[k] == Take(worlds[k - 1], steps[k - 1]);
    }
  }

  /** No orphan taint: a node with either remediation taint is the target of an SNR that still carries the finalizer;
      for the out-of-service taint, of one whose phase and strategy use it. */
  lemma NoOrphanTaint(worlds: seq<World>, steps: seq<Step>, ga: bool, k: nat, node: string)
    requires IsCurrentRun(worlds, steps, ga) && k < |worlds| && node in worlds[k].nodes
    ensures TaintExists(worlds[k].nodes[node].taints, NO_SCHEDULE) ==> SomeGuard(worlds[k], node)
    ensures TaintExists(worlds[k].nodes[node].taints, OUT_OF_SERVICE) ==> SomeEvictor(worlds[k], ga, node)
  {
    RunIsTidy(worlds, steps, ga, k);
    TidyReasons(worlds[k], ga, node);
  }

  /** Once no SNR with the finalizer targets the node, both taints are gone. */
  lemma FinalizerRemovalMeansClean(worlds: seq<World>, steps: seq<Step>, ga: bool, k: nat, node: string)
    requires IsCurrentRun(worlds, steps, ga) && k < |worlds|
    requires forall name :: name in worlds[k].snrs && worlds[k].snrs[name].finalizer ==> worlds[k].snrs[name].target != node
    ensures !Tainted(worlds[k], node, NO_SCHEDULE) && !Tainted(worlds[k], node, OUT_OF_SERVICE)
  {
    hide TaintExists;
    RunIsTidy(worlds, steps, ga, k);
    TidyReasons(worlds[k], ga, node);
  }

  // Remediations stopped by NHC.

  function EffectsOf(w: World, name: string): multiset<Effect> {
    OfName(w.effects, name)
  }

  function OfName(effects: seq<Effect>, name: string): multiset<Effect> {
    if effects == [] then multiset{}
    else OfName(effects[..|effects| - 1], name) + if effects[|effects| - 1].snr == name then multiset{effects[|effects| - 1]} else multiset{}
  }

  lemma {:induction false} OfNameSame(a: seq<Effect>, b: seq<Effect>, name: string)
    requires a <= b && forall i :: |a| <= i < |b| ==> b[i].snr != name
    ensures OfName(b, name) == OfName(a, name)
  {
    if |a| < |b| { OfNameSame(a, b[..|b| - 1], name); } else { assert a == b; }
  }

  /** The SNR was stopped by NHC, or is gone. */
  ghost predicate Stopped(w: World, name: string) {
    name in w.history && w.history[name] != [] && Last(w.history[name]).timedOut
  }

  lemma StaysStopped(w: World, v: World, name: string)
    requires Good(v) && Later(w, v) && Stopped(w, name)
    ensures Stopped(v, name)
  {
    assert GoodName(v, name);
    var h, a, b := v.history[name], |w.history[name]| - 1, |v.history[name]| - 1;
    if a < b { HistoryIsOrdered(h, v.clock, a, b); }
  }

  lemma SameEffects(w: World, v: World, name: string, other: string)
    requires Touches(w, v, other) && (name == other ==> Quiet(w, v))
    ensures EffectsOf(v, name) == EffectsOf(w, name)
  {
    OfNameSame(w.effects, v.effects, name);
  }

  /** The manager reads the current SNR; what it sees of nodes is arbitrary. */
  ghost predicate ReadsCurrentSnr(w: World, s: Step) {
    s.Manager? ==> s.name in w.snrs && s.name in w.history && s.index + 1 == |w.history[s.name]|
  }

  lemma StepOfStopped(w: World, s: Step, name: string)
    requires Good(w) && Stopped(w, name) && ReadsCurrentSnr(w, s)
    ensures EffectsOf(Take(w, s), name) == EffectsOf(w, name)
  {
    hide Reconcile, Act, Touches, Good, EffectsOf;
    match s
    case Others(e) =>
      ActGrows(w, e);
      QuietTouches(w, Act(w, e), name);
      SameEffects(w, Act(w, e), name, name);
    case Manager(other, i, turns, in_) =>
      ReconcileTouches(w, other, w.history[other][i], turns, in_);
      SameEffects(w, Take(w, s), name, other);
  }

  /** Once NHC has stopped a remediation, no later step deletes pods or adds the out-of-service taint for it. */
  lemma {:induction false} StoppedForGood(worlds: seq<World>, steps: seq<Step>, k: nat, m: nat, name: string)
    requires IsRun(worlds, steps) && k <= m < |worlds| && Stopped(worlds[k], name)
    requires forall i :: k <= i < m ==> ReadsCurrentSnr(worlds[i], steps[i])
    ensures Stopped(worlds[m], name) && EffectsOf(worlds[m], name) == EffectsOf(worlds[k], name)
  {
    hide Take, Stopped, EffectsOf, Good, Later, ReadsCurrentSnr, IsStart;
    if k < m {
      StoppedForGood(worlds, steps, k, m - 1, name);
      RunIsGood(worlds, steps, m - 1);
      StepOfStopped(worlds[m - 1], steps[m - 1], name);
      RunIsGood(worlds, steps, m);
      RunOnlyGrows(worlds, steps, m - 1, m);
      StaysStopped(worlds[m - 1], worlds[m], name);
      assert worlds[m] == Take(worlds[m - 1], steps[m - 1]);
    }
  }
}

/** The agent's side of the remediation: it reboots its own node once. */
module Agent {
  import opened Common
  import opened Store
  import opened Remediation
  import opened Safety
  import opened ManagerRuns

  /** The system reports its uptime in whole seconds, rounded either way. */
  datatype UptimeRead = RoundedDown | RoundedUp | UptimeUnreadable

  function Uptime(bootedAt: int, now: int, read: UptimeRead): int {
    if read == RoundedUp then -WholeSeconds(bootedAt - now) else WholeSeconds(now - bootedAt)
  }

  /** The node has been up for less time than the SNR exists, whose creation time is stored in whole seconds. */
  predicate DidIRebootMyself(created: int, bootedAt: int, now: int, read: UptimeRead) {
    Uptime(bootedAt, now, read) < now - WholeSeconds(created)
  }

  /** What the test tells, exactly: whether the boot, moved by the part of a second that rounding adds or takes away,
      lies after the stored creation time. */
  lemma RebootTestExact(created: int, bootedAt: int, now: int)
    ensures DidIRebootMyself(created, bootedAt, now, RoundedDown) <==> bootedAt + (now - bootedAt) % SECOND > WholeSeconds(created)
    ensures DidIRebootMyself(created, bootedAt, now, RoundedUp) <==> bootedAt - (bootedAt - now) % SECOND > WholeSeconds(created)
  {
  }

  /** A boot a second after the creation is always recognised, one a second before it never counts. If uptime is
      rounded down then any boot after the creation is recognised. */
  lemma RebootTestBounds(created: int, bootedAt: int, now: int, read: UptimeRead)
    requires read != UptimeUnreadable
    ensures bootedAt > WholeSeconds(created) && read == RoundedDown ==> DidIRebootMyself(created, bootedAt, now, read)
    ensures bootedAt >= WholeSeconds(created) + SECOND ==> DidIRebootMyself(created, bootedAt, now, read)
    ensures bootedAt <= WholeSeconds(created) - SECOND ==> !DidIRebootMyself(created, bootedAt, now, read)
  {
    RebootTestExact(created, bootedAt, now);
  }

  /** If uptime is rounded up, a boot is recognised at all later times exactly if it lies a second or more after the stored
      creation time. */
  lemma RoundedUpExact(created: int, bootedAt: int)
    ensures (forall now :: now >= bootedAt ==> DidIRebootMyself(created, bootedAt, now, RoundedUp))
       <==> bootedAt >= WholeSeconds(created) + SECOND
  {
    var stored := WholeSeconds(created);
    if bootedAt >= stored + SECOND {
      forall now | now >= bootedAt ensures DidIRebootMyself(created, bootedAt, now, RoundedUp) {
        RebootTestBounds(created, bootedAt, now, RoundedUp);
      }
    } else {
      RebootTestExact(created, bootedAt, bootedAt + 1);
      assert (-1) % SECOND == SECOND - 1;
    }
  }

  /** If it is rounded down, exactly if it lies after it. */
  lemma RoundedDownExact(created: int, bootedAt: int)
    ensures (forall now :: now >= bootedAt ==> DidIRebootMyself(created, bootedAt, now, RoundedDown))
       <==> bootedAt > WholeSeconds(created)
  {
    if bootedAt > WholeSeconds(created) {
      forall now | now >= bootedAt ensures DidIRebootMyself(created, bootedAt, now, RoundedDown) {
        RebootTestBounds(created, bootedAt, now, RoundedDown);
      }
    } else {
      RebootTestExact(created, bootedAt, bootedAt);
    }
  }

  /** Within that second the test can be wrong either way: half a second before the creation a boot is taken for a
      remedy, half a second after it a boot is overlooked. */
  lemma RebootTestInaccurate()
    ensures DidIRebootMyself(10 * SECOND, 10 * SECOND - SECOND / 2, 11 * SECOND + SECOND / 4, RoundedDown)
    ensures !DidIRebootMyself(10 * SECOND, 10 * SECOND + SECOND / 2, 11 * SECOND + 3 * SECOND / 4, RoundedUp)
  {
    RebootTestExact(10 * SECOND, 10 * SECOND - SECOND / 2, 11 * SECOND + SECOND / 4);
    RebootTestExact(10 * SECOND, 10 * SECOND + SECOND / 2, 11 * SECOND + 3 * SECOND / 4);
  }

  datatype SnrRead = SnrFound(snr: Snr) | SnrMissing | SnrUnreadable

  datatype Decision = NoAction | RebootNow | Error

  /** `target` is the node the SNR resolves to. */
  predicate Due(s: Snr, target: string, me: string) {
    !s.deleting && target == me && s.status.phase == Some(PreRebootCompleted)
  }

  /** The SNR is due and no boot has answered it yet. */
  predicate MustReboot(s: Snr, target: string, me: string, bootedAt: int, now: int, read: UptimeRead) {
    Due(s, target, me) && read != UptimeUnreadable && !DidIRebootMyself(s.created, bootedAt, now, read)
  }

  /** The agent reconciles an SNR it read, which may be outdated. `target` is None if its node cannot be resolved, which
      only happens with a Machine. */
  method ReconcileAgent(snr: SnrRead, target: Option<string>, me: string, bootedAt: int, now: int, read: UptimeRead)
      returns (decision: Decision)
    ensures decision == RebootNow <==>
              && snr.SnrFound? && !snr.snr.deleting && snr.snr.status.phase == Some(PreRebootCompleted) && target == Some(me)
              && read != UptimeUnreadable && Uptime(bootedAt, now, read) >= now - WholeSeconds(snr.snr.created)
    ensures decision == Error <==>
              || snr.SnrUnreadable?
              || (snr.SnrFound? && !snr.snr.deleting && target == None)
              || (&& snr.SnrFound? && !snr.snr.deleting && snr.snr.status.phase == Some(PreRebootCompleted) && target == Some(me)
                  && read == UptimeUnreadable)
  {
    if snr.SnrMissing? || (snr.SnrFound? && snr.snr.deleting) {
      return NoAction;
    } else if snr.SnrUnreadable? {
      return Error;
    }
    if target == None {
      return Error;
    }
    if target.value != me {
      return NoAction;
    }
    match snr.snr.status.phase {
      case Some(PreRebootCompleted) => decision := RebootIfNeeded(snr.snr, bootedAt, now, read);
      case _ => decision := NoAction;
    }
  }

  method RebootIfNeeded(snr: Snr, bootedAt: int, now: int, read: UptimeRead) returns (decision: Decision)
    ensures decision == RebootNow <==> read != UptimeUnreadable && !DidIRebootMyself(snr.created, bootedAt, now, read)
    ensures decision == Error <==> read == UptimeUnreadable
  {
    if read == UptimeUnreadable {
      return Error;
    }
    var shouldAvoidReboot := DidIRebootMyself(snr.created, bootedAt, now, read);
    if shouldAvoidReboot {
      return NoAction;
    }
    return RebootNow;
  }

  // Runs of the manager, the others and the agent of one node.

  datatype Step = Server(step: ManagerRuns.Step) | Boot | Reconcile(name: string, index: nat, read: UptimeRead)

  datatype State = State(world: World, bootedAt: int)

  function Take(s: State, step: Step): State {
    match step
    case Server(m) => s.(world := ManagerRuns.Take(s.world, m))
    case Boot => s.(bootedAt := s.world.clock)
    case Reconcile(_, _, _) => s
  }

  ghost predicate IsRun(states: seq<State>, steps: seq<Step>) {
    && |states| == |steps| + 1 && IsStart(states[0].world)
    && (forall i :: 0 <= i < |steps| ==> states[i + 1] == Take(states[i], steps[i]))
  }

  /** Step `i` is a reconcile of the agent, of some stored version of the SNR, that calls Reboot. */
  ghost predicate CallsReboot(states: seq<State>, steps: seq<Step>, i: nat, me: string, name: string)
    requires |states| == |steps| + 1 && i < |steps|
  {
    var w := states[i].world;
    && steps[i].Reconcile? && steps[i].name == name && name in w.history && steps[i].index < |w.history[name]|
    && MustReboot(w.history[name][steps[i].index], w.history[name][steps[i].index].target, me, states[i].bootedAt, w.clock, steps[i].read)
  }

  lemma {:induction false} WorldIsGood(states: seq<State>, steps: seq<Step>, k: nat)
    requires IsRun(states, steps) && k < |states|
    ensures Good(states[k].world)
  {
    hide Good, ManagerRuns.Take;
    if k > 0 {
      WorldIsGood(states, steps, k - 1);
      assert states[k] == Take(states[k - 1], steps[k - 1]);
      if steps[k - 1].Server? { TakeKeepsGood(states[k - 1].world, steps[k - 1].step); }
    } else {
      StartIsGood(states[0].world);
    }
  }

  /** Every such call is for a version of the SNR in the phase before the reboot that is not being deleted, carries the
      finalizer and has the deadline set. */
  lemma RebootCallIsDue(states: seq<State>, steps: seq<Step>, i: nat, me: string, name: string)
    requires IsRun(states, steps) && i < |steps| && CallsReboot(states, steps, i, me, name)
    ensures var s := states[i].world.history[name][steps[i].index];
            && s.status.phase == Some(PreRebootCompleted)
            && !s.deleting && s.finalizer && s.status.timeAssumedRebooted.Some? && s.target == me
  {
    WorldIsGood(states, steps, i);
    var w := states[i].world;
    assert GoodName(w, name);
    assert GoodSnr(w.history[name][steps[i].index], w.clock);
  }

  /** And no such version is passed over: Reboot is called exactly if the phase is Pre-Reboot, the SNR is not being deleted,
      its node is this one, and the uptime can be read and is no less than the age of the SNR. That is the case for
      every boot a second or more before the stored creation time. */
  lemma DueIsRebooted(states: seq<State>, steps: seq<Step>, i: nat, me: string, name: string)
    requires IsRun(states, steps) && i < |steps| && steps[i].Reconcile? && steps[i].name == name
    requires name in states[i].world.history && steps[i].index < |states[i].world.history[name]|
    ensures var s, now, read := states[i].world.history[name][steps[i].index], states[i].world.clock, steps[i].read;
            var due := !s.deleting && s.target == me && s.status.phase == Some(PreRebootCompleted) && read != UptimeUnreadable;
            && (CallsReboot(states, steps, i, me, name) <==> due && Uptime(states[i].bootedAt, now, read) >= now - WholeSeconds(s.created))
            && (due && states[i].bootedAt <= WholeSeconds(s.created) - SECOND ==> CallsReboot(states, steps, i, me, name))
  {
    if steps[i].read != UptimeUnreadable {
      RebootTestBounds(states[i].world.history[name][steps[i].index].created, states[i].bootedAt, states[i].world.clock, steps[i].read);
    }
  }

  lemma {:induction false} BootedSince(states: seq<State>, steps: seq<Step>, k: nat, i: nat)
    requires IsRun(states, steps) && k < i <= |steps| && steps[k] == Boot
    ensures states[k].world.clock <= states[i].bootedAt <= states[i].world.clock
  {
    assert states[i] == Take(states[i - 1], steps[i - 1]);
    if k < i - 1 {
      BootedSince(states, steps, k, i - 1);
      if steps[i - 1].Server? { TakeGrows(states[i - 1].world, steps[i - 1].step); }
    } else {
      assert steps[k] == Boot;
    }
  }

  /** Once the node has booted after the SNR was created, no later reconcile calls Reboot for that SNR, however stale the
      version it reads. After the creation means after its stored time, and if uptime is rounded up, at least a second
      after it: the two lemmas above show that no earlier boot will do. */
  lemma AtMostOneReboot(states: seq<State>, steps: seq<Step>, k: nat, i: nat, me: string, name: string)
    requires IsRun(states, steps) && k < i < |steps| && steps[k] == Boot
    requires name in states[i].world.history && states[i].world.history[name] != []
    requires WholeSeconds(states[i].world.history[name][0].created) < states[k].world.clock
    requires steps[i].Reconcile? && steps[i].read == RoundedUp ==>
               WholeSeconds(states[i].world.history[name][0].created) + SECOND <= states[k].world.clock
    ensures !CallsReboot(states, steps, i, me, name)
  {
    WorldIsGood(states, steps, i);
    BootedSince(states, steps, k, i);
    var w := states[i].world;
    assert GoodName(w, name);
    var h := w.history[name];
    if steps[i].Reconcile? && steps[i].index < |h| && steps[i].read != UptimeUnreadable {
      var j := steps[i].index;
      if j > 0 { HistoryIsOrdered(h, w.clock, 0, j); }
      RebootTestBounds(h[j].created, states[i].bootedAt, w.clock, steps[i].read);
    }
  }
}

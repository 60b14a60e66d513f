/** The rebooter on top of the watchdog, called concurrently by the API check and by the reconciler. */
module Rebooter {
  import opened Common
  import opened Watchdog

  const TIME_TO_ASSUME_REBOOT_HAS_STARTED := 30 * SECOND

  datatype Outcome = SoftwareReboot | Waiting | UnexpectedStatus | Panicked

  /** A watchdog that was never fed has the zero time as its last feeding time, which is long ago. */
  predicate IsStuck(lastFood: Option<int>, now: int) {
    lastFood.Some? ==> now - lastFood.value > TIME_TO_ASSUME_REBOOT_HAS_STARTED
  }

  /** A call of Reboot that nobody disturbs. */
  function RebootOutcome(w: State, now: int): Outcome {
    match w.status
    case Malfunction => SoftwareReboot
    case Disarmed => SoftwareReboot
    case Armed => if w.cancelSet then Waiting else Panicked
    case Triggered => if IsStuck(w.lastFood, now) then SoftwareReboot else Waiting
  }

  class WatchdogRebooter {
    const wd: SynchronizedWatchdog?

    constructor (wd: SynchronizedWatchdog?)
      ensures this.wd == wd
    {
      this.wd := wd;
    }

    /** Without a watchdog there is only the software reboot; otherwise stop the feeding, and
        escalate if the reset is overdue. */
    method Reboot(now: int) returns (outcome: Outcome)
      modifies wd
      ensures wd == null ==> outcome == SoftwareReboot
      ensures wd != null ==> outcome == RebootOutcome(old(wd.View()), now)
      ensures wd != null ==>
                (outcome == SoftwareReboot <==>
                 || old(wd.status) in {Malfunction, Disarmed}
                 || (old(wd.status) == Triggered &&
                     (old(wd.lastFoodTime).Some? ==> now > old(wd.lastFoodTime).value + 30 * SECOND)))
      ensures wd != null ==> (outcome == Panicked <==> Panics(old(wd.View()), Stop(now)))
      ensures wd != null && outcome != Panicked ==> wd.View() == Next(old(wd.View()), Stop(now))
    {
      if wd == null {
        return SoftwareReboot;
      } else if wd.status == Malfunction {
        return SoftwareReboot;
      }
      match wd.status {
        case Triggered =>
          var stuck := IsWatchdogRebootStuck(now);
          if stuck {
            return SoftwareReboot;
          }
          return Waiting;
        case Disarmed =>
          return SoftwareReboot;
        case Armed =>
          var panicked := wd.StopFeeding(now);
          return if panicked then Panicked else Waiting;
      }
    }

    method IsWatchdogRebootStuck(now: int) returns (stuck: bool)
      requires wd != null
      ensures stuck <==> IsStuck(wd.lastFoodTime, now)
    {
      var lastFoodTime := wd.lastFoodTime;
      stuck := match lastFoodTime
        case None => true
        case Some(t) => now - t > TIME_TO_ASSUME_REBOOT_HAS_STARTED;
    }
  }

  // Concurrent callers. Between its two readings of the status, its Stop, and its reading of the
  // last feeding time, a caller holds no lock.

  datatype Caller = Idle | NotMalfunctioning | ReadTriggered | ReadArmed

  /** A step of the watchdog's own goroutines, or the next step of one of the callers. */
  datatype Event = Device(step: Step) | Call(id: nat, now: int)

  datatype System = System(wd: State, callers: map<nat, Caller>)

  function CallerAt(s: System, id: nat): Caller {
    if id in s.callers then s.callers[id] else Idle
  }

  /** The step the event makes on the watchdog, if any. */
  function DeviceStep(s: System, e: Event): Option<Step> {
    match e
    case Device(step) => Some(step)
    case Call(id, now) => if CallerAt(s, id) == ReadArmed then Some(Stop(now)) else None
  }

  /** What the event makes its caller return, if the call ends with it. */
  function Returned(s: System, e: Event): Option<Outcome> {
    match e
    case Device(_) => None
    case Call(id, now) =>
      match CallerAt(s, id)
      case Idle => if s.wd.status == Malfunction then Some(SoftwareReboot) else None
      case NotMalfunctioning =>
        (match s.wd.status
         case Disarmed => Some(SoftwareReboot)
         case Malfunction => Some(UnexpectedStatus)
         case Armed => None
         case Triggered => None)
      case ReadTriggered => Some(if IsStuck(s.wd.lastFood, now) then SoftwareReboot else Waiting)
      case ReadArmed => Some(Waiting)
  }

  function MoveCaller(s: System, id: nat): Caller {
    match CallerAt(s, id)
    case Idle => if s.wd.status == Malfunction then Idle else NotMalfunctioning
    case NotMalfunctioning =>
      if s.wd.status == Triggered then ReadTriggered
      else if s.wd.status == Armed then ReadArmed
      else Idle
    case ReadTriggered => Idle
    case ReadArmed => Idle
  }

  function Apply(s: System, e: Event): System {
    var wd := match DeviceStep(s, e) case Some(step) => Next(s.wd, step) case None => s.wd;
    System(wd, if e.Call? then s.callers[e.id := MoveCaller(s, e.id)] else s.callers)
  }

  function TimeOf(e: Event): int {
    match e case Device(step) => step.now case Call(_, now) => now
  }

  /** Callers stop the watchdog only through Reboot, and never in the moment between arming and the
      publication of the cancel function. */
  ghost predicate IsRun(systems: seq<System>, events: seq<Event>) {
    && |systems| == |events| + 1
    && systems[0] == System(Initial, map[])
    && (forall i :: 0 <= i < |events| ==>
          && systems[i + 1] == Apply(systems[i], events[i])
          && (events[i].Device? ==> !events[i].step.Stop?)
          && (var step := DeviceStep(systems[i], events[i]); step.Some? ==> CanHappen(systems[i].wd, step.value)))
    && (forall i, j :: 0 <= i < j < |events| ==> TimeOf(events[i]) <= TimeOf(events[j]))
  }

  /** The watchdog's share of the first `n` events is a run of the watchdog. `at` tells which of its
      states belongs to each system state. */
  ghost function DeviceSteps(systems: seq<System>, events: seq<Event>, n: nat): seq<Step>
    requires |systems| == |events| + 1 && n <= |events|
  {
    if n == 0 then [] else
      var before := DeviceSteps(systems, events, n - 1);
      match DeviceStep(systems[n - 1], events[n - 1])
      case Some(step) => before + [step]
      case None => before
  }

  ghost function DeviceStates(systems: seq<System>, events: seq<Event>, n: nat): seq<State>
    requires |systems| == |events| + 1 && n <= |events|
  {
    if n == 0 then [systems[0].wd] else
      var before := DeviceStates(systems, events, n - 1);
      match DeviceStep(systems[n - 1], events[n - 1])
      case Some(_) => before + [systems[n].wd]
      case None => before
  }

  lemma {:induction false} ProjectsToWatchdogRun(systems: seq<System>, events: seq<Event>, n: nat)
    requires IsRun(systems, events) && n <= |events|
    ensures var states := DeviceStates(systems, events, n);
            var steps := DeviceSteps(systems, events, n);
            && Watchdog.IsRun(states, steps)
            && states[|steps|] == systems[n].wd
            && (forall i :: 0 <= i < |steps| && n < |events| ==> steps[i].now <= TimeOf(events[n]))
  {
    if n > 0 {
      ProjectsToWatchdogRun(systems, events, n - 1);
      var event := events[n - 1];
      assert systems[n] == Apply(systems[n - 1], event);
      var before := DeviceSteps(systems, events, n - 1);
      if n < |events| {
        assert TimeOf(event) <= TimeOf(events[n]);
      }
      var step := DeviceStep(systems[n - 1], event);
      if step.Some? {
        var states, steps := DeviceStates(systems, events, n), DeviceSteps(systems, events, n);
        forall i | 0 <= i < |steps|
          ensures CanHappen(states[i], steps[i]) && states[i + 1] == Next(states[i], steps[i])
        {
          if i < |before| {
            var earlier := DeviceStates(systems, events, n - 1);
            assert states[i] == earlier[i] && states[i + 1] == earlier[i + 1];
          }
        }
      }
    }
  }

  lemma {:induction false} StatesGrow(systems: seq<System>, events: seq<Event>, m: nat, n: nat)
    requires IsRun(systems, events) && m <= n <= |events|
    ensures DeviceSteps(systems, events, m) <= DeviceSteps(systems, events, n)
    ensures DeviceStates(systems, events, m) <= DeviceStates(systems, events, n)
  {
    if m < n { StatesGrow(systems, events, m, n - 1); }
  }

  /** Once triggered, no event of any caller or goroutine feeds, disarms or re-arms the watchdog. */
  lemma TriggeredForGood(systems: seq<System>, events: seq<Event>, m: nat, n: nat)
    requires IsRun(systems, events) && m <= n <= |events|
    requires systems[m].wd.status == Triggered
    ensures systems[n].wd.status == Triggered
    ensures systems[n].wd.lastFood == systems[m].wd.lastFood
    ensures systems[n].wd.hardware == systems[m].wd.hardware
  {
    ProjectsToWatchdogRun(systems, events, m);
    ProjectsToWatchdogRun(systems, events, n);
    StatesGrow(systems, events, m, n);
    var states, steps := DeviceStates(systems, events, n), DeviceSteps(systems, events, n);
    TriggerIsFinal(states, steps, |DeviceSteps(systems, events, m)|, |steps|);
  }

  /** Unless the agent is shut down in between, a call that saw the watchdog armed leaves it
      triggered, even if other callers are under way, and the node is reset at most one timeout
      after the call. */
  lemma RebootTriggers(systems: seq<System>, events: seq<Event>, m: nat, n: nat)
    requires IsRun(systems, events) && m < n < |events|
    requires events[m].Call? && CallerAt(systems[m], events[m].id) == NotMalfunctioning && systems[m].wd.status == Armed
    requires events[n].Call? && CallerAt(systems[n], events[n].id) == ReadArmed
    requires forall k :: m <= k < n ==> !(events[k].Device? && events[k].step.Shutdown?)
    ensures systems[n + 1].wd.status == Triggered
    ensures systems[n + 1].wd.hardware.Some?
    ensures systems[n + 1].wd.hardware.value <= events[n].now + systems[n + 1].wd.timeout
  {
    StaysArmed(systems, events, m, n);
    ProjectsToWatchdogRun(systems, events, n + 1);
    var states, steps := DeviceStates(systems, events, n + 1), DeviceSteps(systems, events, n + 1);
    assert systems[n + 1] == Apply(systems[n], events[n]);
    ProjectsToWatchdogRun(systems, events, n);
    assert steps == DeviceSteps(systems, events, n) + [Stop(events[n].now)];
    RunIsSound(states, steps, |steps| - 1);
  }

  lemma {:induction false} StaysArmed(systems: seq<System>, events: seq<Event>, m: nat, n: nat)
    requires IsRun(systems, events) && m <= n <= |events|
    requires systems[m].wd.status == Armed
    requires forall k :: m <= k < n ==> !(events[k].Device? && events[k].step.Shutdown?)
    ensures systems[n].wd.status in {Armed, Triggered}
  {
    if m < n {
      StaysArmed(systems, events, m, n - 1);
      assert systems[n] == Apply(systems[n - 1], events[n - 1]);
      ArmedWasStarted(systems, events, n - 1);
    }
  }

  lemma ArmedWasStarted(systems: seq<System>, events: seq<Event>, n: nat)
    requires IsRun(systems, events) && n <= |events|
    requires systems[n].wd.status in {Armed, Triggered}
    ensures systems[n].wd.started
  {
    ProjectsToWatchdogRun(systems, events, n);
    var states, steps := DeviceStates(systems, events, n), DeviceSteps(systems, events, n);
    if |steps| > 0 { RunIsSound(states, steps, |steps| - 1); }
  }

  /** Event `i` feeds the watchdog. */
  ghost predicate Feeding(systems: seq<System>, events: seq<Event>, i: nat)
    requires |systems| == |events| + 1 && i < |events|
  {
    events[i].Device? && events[i].step.FeedTick? && events[i].step.fed && systems[i].wd.status == Armed
  }

  /** More than thirty seconds have passed since every feeding before event `n`. */
  ghost predicate StarvedFor30s(systems: seq<System>, events: seq<Event>, n: nat)
    requires |systems| == |events| + 1 && n < |events|
  {
    forall i :: 0 <= i < n && Feeding(systems, events, i) ==> TimeOf(events[n]) - TimeOf(events[i]) > 30 * SECOND
  }

  /** The field that remembers the last feeding says what the events say. */
  lemma {:induction false} LastFoodByEvents(systems: seq<System>, events: seq<Event>, n: nat, now: int)
    requires IsRun(systems, events) && n <= |events|
    requires forall i :: 0 <= i < n ==> TimeOf(events[i]) <= now
    ensures IsStuck(systems[n].wd.lastFood, now) <==>
              forall i :: 0 <= i < n && Feeding(systems, events, i) ==> now - TimeOf(events[i]) > 30 * SECOND
  {
    if n > 0 {
      var late := TimeOf(events[n - 1]);
      LastFoodByEvents(systems, events, n - 1, now);
      assert systems[n] == Apply(systems[n - 1], events[n - 1]);
      if Feeding(systems, events, n - 1) {
        assert systems[n].wd.lastFood == Some(late);
        assert forall i :: 0 <= i < n - 1 ==> TimeOf(events[i]) <= late;
      } else {
        assert systems[n].wd.lastFood == systems[n - 1].wd.lastFood;
      }
    }
  }

  /** When a call ends with a software reboot, by the events alone: it first read a malfunction, or then a disarmed watchdog,
      or it read the trigger and more than thirty seconds have passed since every feeding. A watchdog that was never
      fed is escalated at once. On a triggered watchdog a call that has read the trigger ends either with this or by
      waiting, and no event feeds the watchdog any more. */
  lemma EscalationIsExact(systems: seq<System>, events: seq<Event>, n: nat)
    requires IsRun(systems, events) && n < |events| && events[n].Call?
    ensures var caller, status := CallerAt(systems[n], events[n].id), systems[n].wd.status;
            && (Returned(systems[n], events[n]) == Some(SoftwareReboot) <==>
                  || (caller == Idle && status == Malfunction)
                  || (caller == NotMalfunctioning && status == Disarmed)
                  || (caller == ReadTriggered && StarvedFor30s(systems, events, n)))
            && (caller == ReadTriggered ==> Returned(systems[n], events[n]) in {Some(SoftwareReboot), Some(Waiting)})
  {
    LastFoodByEvents(systems, events, n, events[n].now);
  }

  lemma NoFeedingAfterTrigger(systems: seq<System>, events: seq<Event>, m: nat, n: nat)
    requires IsRun(systems, events) && m <= n < |events| && systems[m].wd.status == Triggered
    ensures !Feeding(systems, events, n)
  {
    TriggeredForGood(systems, events, m, n);
  }

  /** The single-threaded method is what a caller does when nobody interferes. */
  lemma UndisturbedCall(w: State, callers: map<nat, Caller>, id: nat, now: int)
    requires !Panics(w, Stop(now)) && (id in callers ==> callers[id] == Idle)
    ensures var s0 := System(w, callers);
            var s1, s2 := Apply(s0, Call(id, now)), Apply(Apply(s0, Call(id, now)), Call(id, now));
            var s3 := Apply(s2, Call(id, now));
            || (Returned(s0, Call(id, now)) == Some(RebootOutcome(w, now)) && s1.wd == Next(w, Stop(now)))
            || (Returned(s1, Call(id, now)) == Some(RebootOutcome(w, now)) && s2.wd == Next(w, Stop(now)))
            || (Returned(s2, Call(id, now)) == Some(RebootOutcome(w, now)) && s3.wd == Next(w, Stop(now)))
  {
  }
}

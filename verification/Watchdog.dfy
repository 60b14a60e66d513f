/** The watchdog wrapper: mutex-protected steps of several goroutines over a hardware timer. */
module Watchdog {

  import opened Common

  datatype Status = Disarmed | Armed | Triggered | Malfunction

  /** How far the goroutine that runs Start has come. */
  datatype Starter = NotStarted | Initialised | Feeding | Finished

  /** What opening the device leads to. A device whose timeout cannot be read is closed again, but
      that may fail too and leave the hardware counting. */
  datatype StartResult = Opened(timeout: int) | NotOpened | Unreadable(counting: Option<int>)

  /** Is the software reboot enabled, and can the setting be parsed at all? */
  datatype Setting = Enabled | NotEnabled | Unparsable

  /** A disarm writes the magic character and closes the device. If it fails, the write may still
      have restarted the hardware timer. */
  datatype DisarmResult = Closed | NotClosed(restarted: bool)

  /** `hardware` is the time at which the hardware will reset the node if nobody touches it. */
  datatype State = State(
    status: Status,
    timeout: int,
    lastFood: Option<int>,
    started: bool,
    cancelSet: bool,
    starter: Starter,
    hardware: Option<int>)

  const Initial := State(Disarmed, 0, None, false, false, NotStarted, None)

  /** One atomic step of one of the goroutines, at a given time. */
  datatype Step =
    | Init(now: int, result: StartResult, setting: Setting)
    | BeginFeeding(now: int)
    | FeedTick(now: int, fed: bool)
    | Stop(now: int)
    | Shutdown(now: int, disarm: DisarmResult)

  /** The cancel function is published without the mutex, after the status: calling Stop in between
      calls a nil function. */
  predicate Panics(w: State, s: Step) {
    s.Stop? && w.status == Armed && !w.cancelSet
  }

  /** A step can happen: Start proceeds in its own order, and there are ticks only once the feeding
      goroutine exists. Stop and further calls of Start can come at any time. */
  predicate CanHappen(w: State, s: Step) {
    match s
    case Init(_, _, _) => true
    case BeginFeeding(_) => w.starter == Initialised
    case FeedTick(_, _) => w.cancelSet
    case Stop(_) => !Panics(w, s)
    case Shutdown(_, _) => w.starter == Feeding
  }

  function Next(w: State, s: Step): State {
    match s
    case Init(now, result, setting) =>
      if w.started then w
      else if result.Opened? then
        w.(started := true, timeout := result.timeout, status := Armed, starter := Initialised,
           hardware := Some(now + result.timeout))
      else
        w.(started := true,
           status := if setting == Setting.Enabled then Malfunction else w.status,
           starter := Finished,
           hardware := if result.Unreadable? then result.counting else w.hardware)
    case BeginFeeding(_) =>
      if w.status != Armed then w.(starter := Finished) else w.(cancelSet := true, starter := Feeding)
    case FeedTick(now, fed) =>
      if w.status == Armed && fed then w.(lastFood := Some(now), hardware := Some(now + w.timeout)) else w
    case Stop(_) =>
      if w.status == Armed then w.(status := Triggered) else w
    case Shutdown(now, disarm) =>
      var done := w.(starter := Finished);
      if w.status != Armed then done
      else match disarm
           case Closed => done.(status := Disarmed, hardware := None)
           case NotClosed(restarted) => if restarted then done.(hardware := Some(now + w.timeout)) else done
  }

  class SynchronizedWatchdog {
    var status: Status
    var timeout: int
    var lastFoodTime: Option<int>
    var started: bool
    var stop: bool                 // the cancel function is set
    ghost var starter: Starter
    ghost var hardware: Option<int>

    ghost function View(): State
      reads this
    {
      State(status, timeout, lastFoodTime, started, stop, starter, hardware)
    }

    constructor ()
      ensures View() == Initial
    {
      status, timeout, lastFoodTime, started, stop := Disarmed, 0, None, false, false;
      starter, hardware := NotStarted, None;
    }

    /** The first part of Start. `err` is true if the watchdog was started before, or cannot start
        while the software reboot is not an alternative. */
    method InitDevice(now: int, result: StartResult, setting: Setting) returns (err: bool)
      modifies this
      ensures View() == Next(old(View()), Init(now, result, setting))
      ensures err <==> old(started) || (!result.Opened? && setting != Setting.Enabled)
    {
      if started {
        return true;
      }
      started := true;
      if result.Opened? {
        timeout := result.timeout;
        status := Armed;
        starter, hardware := Initialised, Some(now + result.timeout);
        return false;
      }
      starter := Finished;
      if result.Unreadable? {
        hardware := result.counting;
      }
      if setting != Setting.Enabled {
        return true;
      }
      status := Malfunction;
      return false;
    }

    method StartFeeding(now: int)
      requires CanHappen(View(), BeginFeeding(now))
      modifies this
      ensures View() == Next(old(View()), BeginFeeding(now))
    {
      if status != Armed {
        starter := Finished;
        return;
      }
      stop := true;
      starter := Feeding;
    }

    method Tick(now: int, fed: bool)
      requires CanHappen(View(), FeedTick(now, fed))
      modifies this
      ensures View() == Next(old(View()), FeedTick(now, fed))
    {
      if status != Armed {
        return;
      }
      if fed {
        hardware := Some(now + timeout);
        lastFoodTime := Some(now);
      }
    }

    /** Calling the cancel function before it is published panics, and the status stays. */
    method StopFeeding(now: int) returns (panicked: bool)
      modifies this
      ensures panicked <==> Panics(old(View()), Stop(now))
      ensures View() == if panicked then old(View()) else Next(old(View()), Stop(now))
    {
      if status == Armed {
        if !stop {
          return true;
        }
        status := Triggered;
      }
      return false;
    }

    method ShutDown(now: int, disarm: DisarmResult)
      requires CanHappen(View(), Shutdown(now, disarm))
      modifies this
      ensures View() == Next(old(View()), Shutdown(now, disarm))
    {
      starter := Finished;
      if status == Armed {
        if disarm.Closed? {
          hardware := None;
          status := Disarmed;
        } else if disarm.restarted {
          hardware := Some(now + timeout);
        }
      }
    }
  }

  // Runs: any interleaving of enabled steps, with a clock that does not run backwards.

  ghost predicate IsRun(states: seq<State>, steps: seq<Step>) {
    && |states| == |steps| + 1
    && states[0] == Initial
    && (forall i :: 0 <= i < |steps| ==> CanHappen(states[i], steps[i]) && states[i + 1] == Next(states[i], steps[i]))
    && (forall i, j :: 0 <= i < j < |steps| ==> steps[i].now <= steps[j].now)
  }

  /** At time `now`: an armed or triggered watchdog has hardware that resets the node within one
      timeout; feeding exists only after a successful start. */
  ghost predicate Sound(w: State, now: int) {
    && (w.status in {Armed, Triggered} ==> w.started && w.hardware.Some? && w.hardware.value <= now + w.timeout)
    && (!w.started ==> w.status == Disarmed && w.starter == NotStarted)
    && (w.cancelSet ==> w.starter in {Feeding, Finished})
    && (w.starter == Initialised ==> w.status == Armed)
    && (w.starter == Feeding ==> w.cancelSet)
    && (w.status == Triggered ==> w.cancelSet)
  }

  lemma {:induction false} RunIsSound(states: seq<State>, steps: seq<Step>, i: nat)
    requires IsRun(states, steps) && i < |steps|
    ensures Sound(states[i], steps[i].now)
    ensures Sound(states[i + 1], steps[i].now)
  {
    if i > 0 { RunIsSound(states, steps, i - 1); }
    assert states[i + 1] == Next(states[i], steps[i]);
  }

  /** Triggered is absorbing: from then on nobody feeds, disarms or restarts the hardware, and the
      last feeding time is frozen. */
  lemma {:induction false} TriggerIsFinal(states: seq<State>, steps: seq<Step>, i: nat, j: nat)
    requires IsRun(states, steps) && i <= j < |states|
    requires states[i].status == Triggered
    ensures states[j].status == Triggered
    ensures states[j].hardware == states[i].hardware
    ensures states[j].lastFood == states[i].lastFood
    ensures states[j].timeout == states[i].timeout
  {
    if i < j {
      TriggerIsFinal(states, steps, i, j - 1);
      if i > 0 { RunIsSound(states, steps, i - 1); }
      assert states[j] == Next(states[j - 1], steps[j - 1]);
      if j >= 2 { RunIsSound(states, steps, j - 2); }
    }
  }

  /** After a Stop on an armed watchdog the node is reset at a fixed time, at most one timeout
      later, whatever happens afterwards. */
  lemma StopResetsNode(states: seq<State>, steps: seq<Step>, i: nat, j: nat)
    requires IsRun(states, steps) && i < j < |states|
    requires steps[i].Stop? && states[i].status == Armed
    ensures states[j].status == Triggered
    ensures states[j].hardware.Some? && states[j].hardware == states[i].hardware
    ensures states[j].hardware.value <= steps[i].now + states[j].timeout
  {
    RunIsSound(states, steps, i);
    assert states[i + 1] == Next(states[i], steps[i]);
    TriggerIsFinal(states, steps, i + 1, j);
  }

  /** Arming happens once: after the first Start a watchdog that is not armed stays so, however
      often Start is called again. */
  lemma {:induction false} NeverRearmed(states: seq<State>, steps: seq<Step>, i: nat, j: nat)
    requires IsRun(states, steps) && i <= j < |states|
    requires states[i].started && states[i].status != Armed
    ensures states[j].started && states[j].status == states[i].status
    ensures states[j].hardware == states[i].hardware
  {
    if i < j {
      NeverRearmed(states, steps, i, j - 1);
      assert states[j] == Next(states[j - 1], steps[j - 1]);
      if j >= 2 { RunIsSound(states, steps, j - 2); }
    }
  }

  // What the state says about the events.

  /** Step `i` feeds the watchdog. */
  ghost predicate Feeds(states: seq<State>, steps: seq<Step>, i: nat)
    requires |states| == |steps| + 1 && i < |steps|
  {
    steps[i].FeedTick? && steps[i].fed && states[i].status == Armed
  }

  /** Step `i` is the last one before state `j` that feeds the watchdog. */
  ghost predicate LastFeed(states: seq<State>, steps: seq<Step>, i: nat, j: nat)
    requires |states| == |steps| + 1 && j < |states|
  {
    i < j && Feeds(states, steps, i) && forall x :: i < x < j ==> !Feeds(states, steps, x)
  }

  /** The last feeding time is that of the last feeding, and there is none before the first one. */
  lemma {:induction false} LastFoodIsLastFeed(states: seq<State>, steps: seq<Step>, j: nat)
    requires IsRun(states, steps) && j < |states|
    ensures states[j].lastFood == None <==> forall x :: 0 <= x < j ==> !Feeds(states, steps, x)
    ensures forall i: nat :: LastFeed(states, steps, i, j) ==> states[j].lastFood == Some(steps[i].now)
  {
    if j > 0 {
      LastFoodIsLastFeed(states, steps, j - 1);
      assert states[j] == Next(states[j - 1], steps[j - 1]);
      assert states[j].lastFood == if Feeds(states, steps, j - 1) then Some(steps[j - 1].now) else states[j - 1].lastFood;
      forall i: nat | LastFeed(states, steps, i, j) ensures states[j].lastFood == Some(steps[i].now) {
        if i < j - 1 {
          assert !Feeds(states, steps, j - 1);
          assert LastFeed(states, steps, i, j - 1);
        }
      }
    }
  }

  /** Step `i` makes the hardware count from the beginning: the device is opened, fed, or left open by a failed disarm. */
  ghost predicate Restarts(states: seq<State>, steps: seq<Step>, i: nat)
    requires |states| == |steps| + 1 && i < |steps|
  {
    match steps[i]
    case Init(_, result, _) => !states[i].started && result.Opened?
    case Shutdown(_, disarm) => states[i].status == Armed && disarm == NotClosed(true)
    case _ => Feeds(states, steps, i)
  }

  ghost predicate LastRestart(states: seq<State>, steps: seq<Step>, i: nat, j: nat)
    requires |states| == |steps| + 1 && j < |states|
  {
    i < j && Restarts(states, steps, i) && forall x :: i < x < j ==> !Restarts(states, steps, x)
  }

  /** The hardware of an armed or triggered watchdog resets the node exactly one timeout after its last restart. */
  lemma {:induction false} ResetAfterLastRestart(states: seq<State>, steps: seq<Step>, i: nat, j: nat)
    requires IsRun(states, steps) && j < |states| && LastRestart(states, steps, i, j) && states[j].status in {Armed, Triggered}
    ensures states[j].hardware == Some(steps[i].now + states[j].timeout)
  {
    assert states[j] == Next(states[j - 1], steps[j - 1]);
    if i < j - 1 {
      assert !Restarts(states, steps, j - 1);
      if j >= 2 { RunIsSound(states, steps, j - 2); }
      ResetAfterLastRestart(states, steps, i, j - 1);
    }
  }

  /** Step `i` is the first attempt to start. */
  ghost predicate FirstInit(steps: seq<Step>, i: nat) {
    i < |steps| && steps[i].Init? && forall x :: 0 <= x < i ==> !steps[x].Init?
  }

  /** The step takes an armed watchdog out of service: it is stopped, or disarmed at shutdown. */
  predicate Ends(step: Step) {
    step.Stop? || (step.Shutdown? && step.disarm == Closed)
  }

  lemma {:induction false} NotStartedYet(states: seq<State>, steps: seq<Step>, j: nat)
    requires IsRun(states, steps) && j < |states| && forall x :: 0 <= x < j ==> !steps[x].Init?
    ensures states[j] == Initial
  {
    if j > 0 {
      NotStartedYet(states, steps, j - 1);
      assert CanHappen(states[j - 1], steps[j - 1]) && states[j] == Next(states[j - 1], steps[j - 1]);
    }
  }

  /** Once the device was opened the watchdog is armed until it is stopped or disarmed. */
  lemma {:induction false} ArmedUntilEnded(states: seq<State>, steps: seq<Step>, i: nat, j: nat)
    requires IsRun(states, steps) && FirstInit(steps, i) && i < j < |states| && steps[i].result.Opened?
    requires forall x :: i < x < j ==> !Ends(steps[x])
    ensures states[j].status == Armed && states[j].timeout == steps[i].result.timeout && states[j].started
  {
    assert states[j] == Next(states[j - 1], steps[j - 1]);
    if i == j - 1 {
      NotStartedYet(states, steps, i);
    } else {
      ArmedUntilEnded(states, steps, i, j - 1);
      assert !Ends(steps[j - 1]);
    }
  }

  /** The status, by the events: what the first start made of it, and what first ended that. */
  lemma StatusByEvents(states: seq<State>, steps: seq<Step>, i: nat, j: nat)
    requires IsRun(states, steps) && FirstInit(steps, i) && i < j < |states|
    ensures !steps[i].result.Opened? ==> states[j].status == if steps[i].setting == Setting.Enabled then Malfunction else Disarmed
    ensures forall e :: steps[i].result.Opened? && i < e < j && Ends(steps[e]) && (forall x :: i < x < e ==> !Ends(steps[x])) ==>
              states[j].status == if steps[e].Stop? then Triggered else Disarmed
  {
    if !steps[i].result.Opened? {
      NotStartedYet(states, steps, i);
      assert states[i + 1] == Next(states[i], steps[i]);
      NeverRearmed(states, steps, i + 1, j);
    } else {
      forall e | i < e < j && Ends(steps[e]) && (forall x :: i < x < e ==> !Ends(steps[x]))
        ensures states[j].status == if steps[e].Stop? then Triggered else Disarmed
      {
        ArmedUntilEnded(states, steps, i, e);
        assert states[e + 1] == Next(states[e], steps[e]);
        NeverRearmed(states, steps, e + 1, j);
      }
    }
  }
}

/** The manager's reconcile as it runs: it changes the SNR and the node in memory step by step, and sends requests. */
module Manager {
  import opened Common
  import opened Taints
  import opened Calculator
  import opened Store
  import opened Remediation
  import opened Safety
  import opened Growth
  import opened Eviction
  import ManagerRuns

  class Reconciler {
    var server: World
    var turns: seq<Turn>
    var snr: Snr
    var node: NodeCopy

    ghost function State(): Session
      reads this
    {
      Session(server, snr, turns)
    }

    constructor (server: World, turns: seq<Turn>, snr: Snr)
      ensures State() == Session(server, snr, turns)
    {
      this.server, this.turns, this.snr := server, turns, snr;
      this.node := NodeCopy("", Node([], false, map[]));
    }

    // Requests.

    /** Others act until the server looks at the request. */
    method Request() returns (fate: Fate)
      modifies `server, `turns
      ensures State() == Proceed(old(State())) && fate == NextFate(old(State()))
    {
      if turns == [] {
        return Served;
      }
      fate := turns[0].fate;
      var others := turns[0].others;
      turns := turns[1..];
      var i := 0;
      ghost var start := server;
      assert others[0..] == others;
      while i < |others|
        invariant 0 <= i <= |others|
        invariant turns == old(turns)[1..]
        invariant ActAll(server, others[i..]) == ActAll(start, others)
      {
        assert others[i..][1..] == others[i + 1..];
        server := Act(server, others[i]);
        i := i + 1;
      }
    }

    method Update(name: string, change: Change) returns (err: ApiError)
      modifies `server, `turns, `snr
      ensures (State(), err) == Send(old(State()), name, change)
      ensures server.nodes == Proceed(old(State())).world.nodes && server.effects == Proceed(old(State())).world.effects
    {
      hide Proceed, Changed, Decode;
      var fate := Request();
      if fate == Refused {
        return OtherError;
      }
      if name !in server.snrs || name !in server.history {
        return NotFound;
      }
      if !change.SetLastError? && server.snrs[name].version != snr.version {
        return Conflict;
      }
      var updated := Changed(server.snrs[name], change);
      server := Persist(server, name, updated);
      if fate == AnswerLost {
        return OtherError;
      }
      snr := Decode(snr, updated);
      return NoError;
    }

    /** Sends the taints; only an answer refreshes the copy in memory. */
    method Patch(taints: seq<Taint>) returns (err: ApiError)
      modifies `server, `turns, `node
      ensures (State(), node, err) == WriteTaints(old(State()), old(node), taints)
      ensures err == NoError ==> node.name in server.nodes && node.node == server.nodes[node.name] && node.node.taints == taints
      ensures err != NoError ==> node == old(node)
      ensures forall other :: other != node.name ==>
                (other in server.nodes <==> other in Proceed(old(State())).world.nodes)
                && (other in server.nodes ==> server.nodes[other] == Proceed(old(State())).world.nodes[other])
    {
      hide Proceed;
      var fate := Request();
      if fate == Refused {
        return OtherError;
      }
      if node.name !in server.nodes {
        return NotFound;
      }
      server := server.(nodes := server.nodes[node.name := server.nodes[node.name].(taints := taints)]);
      if fate == AnswerLost {
        return OtherError;
      }
      node := node.(node := server.nodes[node.name]);
      return NoError;
    }

    method Remove(taint: Taint) returns (err: ApiError)
      modifies `server, `turns, `node
      ensures (State(), node, err) == RemoveTaint(old(State()), old(node), taint)
      ensures err == NoError ==> !TaintExists(node.node.taints, taint)
      ensures node.node.taints == old(node).node.taints || node.node.taints == Without(old(node).node.taints, taint)
    {
      hide WriteTaints, Without;
      WithoutIsExact(node.node.taints, taint);
      WrittenIsRead(State(), node, Without(node.node.taints, taint));
      var exists_ := HasTaint(node.node.taints, taint);
      if !exists_ {
        return NoError;
      }
      var taints, deleted := DeleteTaint(node.node.taints, taint);
      err := Patch(taints);
    }

    method Add(taint: Taint) returns (err: ApiError)
      modifies `server, `turns, `node
      ensures (State(), node, err) == AddTaint(old(State()), old(node), taint)
      ensures err == NoError ==> TaintExists(node.node.taints, taint)
      ensures err == NoError && !TaintExists(old(node).node.taints, taint) ==>
                node.node.taints == old(node).node.taints + [Taint(taint.key, taint.value, taint.effect, Some(old(server).clock))]
    {
      hide WriteTaints;
      var added := taint.(timeAdded := Some(server.clock));
      AppendedExists(node.node.taints, added, taint);
      WrittenIsRead(State(), node, node.node.taints + [added]);
      var exists_ := HasTaint(node.node.taints, taint);
      if exists_ {
        return NoError;
      }
      err := Patch(node.node.taints + [added]);
    }

    /** The taint takes effect when it reaches the server, even if the answer is lost. */
    method AddOutOfService(name: string) returns (err: ApiError)
      modifies `server, `turns, `node
      ensures (State(), node, err) == AddOutOfServiceTaint(old(State()), name, old(node))
      ensures err == NoError ==> TaintExists(node.node.taints, OUT_OF_SERVICE)
    {
      hide AddTaint, TaintExists;
      var target := node.name;
      var present := HasTaint(node.node.taints, OUT_OF_SERVICE);
      var lost := turns != [] && turns[0].fate == AnswerLost;
      err := Add(OUT_OF_SERVICE);
      if !present && (err == NoError || (err == OtherError && lost)) {
        server := Note(server, OutOfServiceAdded(name, target, server.clock, snr.status.timeAssumedRebooted));
      }
    }

    method DeletePodsOfNode(name: string) returns (ok: bool)
      modifies `server, `turns
      ensures (State(), ok) == DeletePods(old(State()), name, node)
      ensures server.effects == old(server).effects + [PodsDeleted(name, node.name, server.clock, snr.status.timeAssumedRebooted)]
    {
      ProceedGrows(State());
      hide Proceed;
      var fate := Request();
      server := Note(server, PodsDeleted(name, node.name, server.clock, snr.status.timeAssumedRebooted));
      return fate == Served;
    }

    method DropFinalizer(name: string) returns (err: ApiError)
      modifies `server, `turns, `snr
      ensures (State(), err) == RemoveFinalizer(old(State()), name)
      ensures err == NoError ==> name !in server.snrs || !server.snrs[name].finalizer
      ensures err in {NotFound, Conflict} ==> server == Proceed(old(State())).world
    {
      DropsOrKeeps(State().(snr := snr.(finalizer := false)), name);
      snr := snr.(finalizer := false);
      err := Update(name, SetFinalizer(false));
    }

    method PutFinalizer(name: string, in_: Inputs) returns (result: Result)
      modifies `server, `turns, `snr
      ensures (State(), result) == AddFinalizer(old(State()), name, in_)
      ensures server.nodes in {old(server).nodes, Proceed(old(State())).world.nodes}
      ensures old(snr).deleting ==> result == DONE && State() == old(State())
      ensures !old(snr).deleting && old(turns) == [] && name in old(server).snrs && name in old(server).history ==>
                if old(server).snrs[name].version == old(snr).version
                then result == Result(true, 0, None) && name in server.snrs && server.snrs[name].finalizer
                else result == Result(false, SECOND, None) && server == old(server)
    {
      hide Send;
      if turns == [] && name in server.snrs && name in server.history { PutsOrRetries(State().(snr := snr.(finalizer := true)), name); }
      if snr.deleting {
        return DONE;
      }
      snr := snr.(finalizer := true);
      var err := Update(name, SetFinalizer(true));
      match err {
        case NoError => result := Result(true, 0, None);
        case Conflict => result := Result(false, SECOND, None);
        case _ => result := Failed(in_.errorText);
      }
    }

    /** Reads the node the SNR names into memory. */
    method GetNodeFromSnr(in_: Inputs) returns (found: NodeResult)
      modifies `server, `turns, `node
      ensures (State(), found) == GetNode(old(State()), in_)
      ensures found.Found? ==> node == found.copy
    {
      hide Proceed;
      var fate := Request();
      if fate != Served {
        return Unreadable;
      }
      match in_.nodeRead {
        case NodeUnreadable => return Unreadable;
        case NodeMissing => return Missing;
        case NodeFromCache(name, spec) => node := NodeCopy(name, spec);
        case NodeFromServer =>
          if snr.target !in server.nodes {
            return Missing;
          }
          node := NodeCopy(snr.target, server.nodes[snr.target]);
      }
      return Found(node);
    }

    method UpdateStatusLastError(name: string, in_: Inputs, outcome: Result) returns (result: Result)
      modifies `server, `turns, `snr
      ensures (State(), result) == UpdateLastError(old(State()), name, in_, outcome)
      ensures (outcome.err == None && old(snr).status.lastError == "") || outcome.err == Some(old(snr).status.lastError) ==>
                State() == old(State()) && result == outcome
      ensures outcome.err == None && result == outcome ==> snr.status.lastError == ""
      ensures Quiet(old(server), server)
    {
      hide Send, Quiet;
      LastErrorGrows(State(), name, in_, outcome);
      ErrorDecoded(State(), name, in_, outcome);
      var text := if outcome.err.Some? then outcome.err.value else "";
      if snr.status.lastError == text {
        return outcome;
      }
      snr := snr.(status := snr.status.(lastError := text));
      var err := Update(name, SetLastError(text));
      return if err == NoError then outcome else Failed(in_.errorText);
    }

    // The phases.

    /** The finalizer is only given up once the taint is off the node. */
    method Recover(name: string, in_: Inputs) returns (result: Result)
      modifies this
      ensures (State(), result) == RecoverNode(old(State()), name, old(node), in_)
      ensures result == DONE ==> !TaintExists(node.node.taints, NO_SCHEDULE)
      ensures result == DONE && old(snr).finalizer ==> name !in server.snrs || !server.snrs[name].finalizer
      ensures TaintExists(node.node.taints, NO_SCHEDULE) ==> snr == old(snr) && server.snrs == Proceed(old(State())).world.snrs
      ensures TaintExists(node.node.taints, OUT_OF_SERVICE) ==> TaintExists(old(node).node.taints, OUT_OF_SERVICE)
    {
      hide RemoveTaint, RemoveFinalizer, TaintExists, Without, Proceed;
      RefusedRemoval(State(), node, NO_SCHEDULE);
      OthersStay(node.node.taints, NO_SCHEDULE, OUT_OF_SERVICE);
      var err := Remove(NO_SCHEDULE);
      if err != NoError {
        return Failed(in_.errorText);
      }
      if snr.finalizer {
        err := DropFinalizer(name);
        if err != NoError {
          return Failed(in_.errorText);
        }
      }
      return DONE;
    }

    /** A deadline is never moved; a new one is the calculated duration from now, to the second. */
    method ScheduleReboot(in_: Inputs) returns (ok: bool)
      modifies `server, `turns, `snr
      ensures (State(), ok) == SetTimeAssumedRebooted(old(State()), node, in_)
      ensures old(snr).status.timeAssumedRebooted.Some? ==> ok && State() == old(State())
      ensures snr.status.phase == old(snr).status.phase && snr.finalizer == old(snr).finalizer
      ensures ok ==> snr.status.timeAssumedRebooted.Some?
      ensures ok && old(snr).status.timeAssumedRebooted == None ==>
                in_.spec.Some? && in_.workers.Some? &&
                var minimum := MinimumRebootDuration(in_.spec.value, in_.workers.value, EffectiveWatchdogTimeout(node.node.annotations));
                snr.status.timeAssumedRebooted.value.due > server.clock + minimum - SECOND
    {
      hide Proceed, MinimumRebootDuration;
      if snr.status.timeAssumedRebooted.Some? {
        return true;
      }
      var fate := Request();
      if fate != Served {
        return false;
      }
      var calculator := new RebootCalculator();
      if in_.spec.Some? {
        calculator.SetConfig(in_.spec.value);
      }
      var rebootDuration := calculator.GetRebootDuration(node.node.annotations, in_.workers);
      if rebootDuration == None {
        return false;
      }
      var now, basis := server.clock, Basis(in_.spec.value, node.node.annotations, in_.workers.value);
      snr := snr.(status := snr.status.(timeAssumedRebooted := Some(Deadline(WholeSeconds(now + rebootDuration.value), now, basis))));
      return true;
    }

    /** The phase comes last: with the finalizer, the taint and the deadline in place. */
    method HandleFencingStarted(name: string, in_: Inputs) returns (result: Result)
      modifies this
      ensures (State(), result) == PrepareReboot(old(State()), name, old(node), in_)
      ensures old(snr).finalizer && result == DONE ==>
                && snr.status.phase == Some(PreRebootCompleted) && snr.finalizer
                && TaintExists(node.node.taints, NO_SCHEDULE) && snr.status.timeAssumedRebooted.Some?
      ensures old(snr).finalizer && result != DONE ==> snr.status.phase == old(snr).status.phase
      ensures !old(snr).finalizer ==> node == old(node) && server.nodes in {old(server).nodes, Proceed(old(State())).world.nodes}
    {
      hide AddFinalizer, AddTaint, SetTimeAssumedRebooted, TaintExists;
      if !in_.agentPod || !IsRebootCapable(node.node.annotations) {
        return Failed("Node is not capable to reboot itself");
      }
      if !snr.finalizer {
        result := PutFinalizer(name, in_);
        return;
      }
      var err := Add(NO_SCHEDULE);
      if err != NoError {
        return Failed(in_.errorText);
      }
      var ok := ScheduleReboot(in_);
      if !ok {
        return Failed(in_.errorText);
      }
      snr := snr.(status := snr.status.(phase := Some(PreRebootCompleted)));
      return DONE;
    }

    method HandlePreRebootCompleted() returns (result: Result)
      modifies `snr
      ensures (State(), result) == WaitForNodeRebooted(old(State()))
      ensures snr == old(snr) || snr == SetPhase(old(snr), RebootCompleted)
      ensures snr.status.timeAssumedRebooted.Some? ==>
                var due := snr.status.timeAssumedRebooted.value.due;
                if due <= server.clock then result == DONE && snr.status.phase == Some(RebootCompleted)
                else snr == old(snr) && server.clock + result.after == due + SECOND && result.err == None
      ensures snr.status.timeAssumedRebooted == None ==> snr == old(snr) && result.err.Some?
    {
      if snr.status.timeAssumedRebooted == None {
        return Failed("nil pointer");
      }
      var due := snr.status.timeAssumedRebooted.value.due;
      if due > server.clock {
        return Result(false, due - server.clock + SECOND, None);
      }
      snr := snr.(status := snr.status.(phase := Some(RebootCompleted)));
      return DONE;
    }

    method IsResourceDeletionCompleted(in_: Inputs) returns (completed: bool)
      ensures completed == ResourceDeletionCompleted(in_, node.name)
    {
      if in_.pods == None {
        return false;
      }
      for i := 0 to |in_.pods.value|
        invariant forall j :: 0 <= j < i ==> in_.pods.value[j] != Pod(node.name, true)
      {
        if in_.pods.value[i].node == node.name && in_.pods.value[i].terminating {
          return false;
        }
      }
      if in_.attachments == None {
        return false;
      }
      for i := 0 to |in_.attachments.value|
        invariant forall j :: 0 <= j < i ==> in_.attachments.value[j] != node.name
      {
        if in_.attachments.value[i] == node.name {
          return false;
        }
      }
      return true;
    }

    /** Finishes only with the taint off the node again, and nothing left to wait for, or no sense in waiting. */
    method EvictWithTaint(name: string, in_: Inputs) returns (result: Result)
      modifies `server, `turns, `node
      ensures (State(), result) == UseOutOfServiceTaint(old(State()), name, old(node), in_)
      ensures result == DONE ==>
                && !TaintExists(node.node.taints, OUT_OF_SERVICE)
                && (ResourceDeletionCompleted(in_, old(node).name) || (snr.deleting && ResourceDeletionExpired(snr, server.clock)))
      ensures result.after > 0 ==>
                && result.after == 5 * SECOND && result.err == None && TaintExists(node.node.taints, OUT_OF_SERVICE)
                && !ResourceDeletionCompleted(in_, old(node).name)
                && (snr.status.timeAssumedRebooted.Some? ==> server.clock < snr.status.timeAssumedRebooted.value.due + 60 * SECOND)
    {
      hide AddOutOfServiceTaint, RemoveTaint, ResourceDeletionCompleted, TaintExists, Without;
      AddOutOfServiceTaintKeepsName(State(), name, node);
      var err := AddOutOfService(name);
      if err != NoError {
        return Failed(in_.errorText);
      }
      var completed := IsResourceDeletionCompleted(in_);
      if !completed {
        var expired := ResourceDeletionExpired(snr, server.clock);
        if !expired {
          return Result(false, 5 * SECOND, None);
        } else if !snr.deleting {
          return Failed("Not ready to delete out-of-service taint");
        }
      }
      TaintsGrow(State(), node, OUT_OF_SERVICE);
      err := Remove(OUT_OF_SERVICE);
      return if err == NoError then DONE else Failed(in_.errorText);
    }

    method HandleRebootCompletedPhase(name: string, in_: Inputs, strategy: Strategy) returns (result: Result)
      modifies this
      ensures (State(), result) == HandleRebootCompleted(old(State()), name, old(node), in_, strategy)
      ensures result == DONE ==> snr.status.phase == Some(FencingCompleted) && snr.status.conditions.succeeded == Some(True)
      ensures result == DONE && strategy == OutOfServiceTaint ==> !TaintExists(node.node.taints, OUT_OF_SERVICE)
      ensures strategy != OutOfServiceTaint ==>
                server.effects == old(server).effects + [PodsDeleted(name, node.name, server.clock, snr.status.timeAssumedRebooted)]
      ensures result != DONE ==> snr == old(snr)
    {
      hide UseOutOfServiceTaint, DeletePods, TaintExists;
      if strategy == OutOfServiceTaint {
        result := EvictWithTaint(name, in_);
      } else {
        var ok := DeletePodsOfNode(name);
        result := if ok then DONE else Failed(in_.errorText);
      }
      if result != DONE {
        return;
      }
      snr := snr.(status := snr.status.(phase := Some(FencingCompleted)));
      SetConditions(FinishedSuccessfully);
    }

    method SetConditions(reason: Reason)
      modifies `snr
      ensures snr == UpdateConditions(old(snr), reason)
      ensures var disabled := old(snr).status.conditions.disabled;
              && (reason == RemediationStarted ==> snr.status.conditions == Conditions(Some(True), Some(Unknown), disabled))
              && (reason == FinishedSuccessfully ==> snr.status.conditions == Conditions(Some(False), Some(True), disabled))
              && (reason in {TimeoutByNHC, SkippedNodeNotFound} ==> snr.status.conditions == Conditions(Some(False), Some(False), disabled))
      ensures snr.status == old(snr).status.(conditions := snr.status.conditions)
    {
      var processing, succeeded: Truth;
      match reason {
        case RemediationStarted => processing, succeeded := True, Unknown;
        case FinishedSuccessfully => processing, succeeded := False, True;
        case TimeoutByNHC => processing, succeeded := False, False;
        case SkippedNodeNotFound => processing, succeeded := False, False;
      }
      var current := snr.status.conditions;
      if current.processing == Some(processing) && current.succeeded == Some(succeeded) {
        return;
      }
      snr := snr.(status := snr.status.(conditions := snr.status.conditions.(processing := Some(processing))));
      snr := snr.(status := snr.status.(conditions := snr.status.conditions.(succeeded := Some(succeeded))));
    }

    method RemediateWithResourceRemoval(name: string, in_: Inputs, strategy: Strategy) returns (result: Result)
      modifies this
      ensures (State(), result) == Remediate(old(State()), name, old(node), in_, strategy)
      ensures Touches(old(server), server, name)
      ensures old(snr).status.phase != Some(RebootCompleted) ==> Quiet(old(server), server)
    {
      hide PrepareReboot, WaitForNodeRebooted, HandleRebootCompleted, RecoverNode, Touches, Quiet;
      RemediateTouches(State(), name, node, in_, strategy);
      if snr.status.phase != Some(RebootCompleted) { OnlyAfterReboot(State(), name, node, in_, strategy); }
      match snr.status.phase {
        case None => result := HandleFencingStarted(name, in_);
        case Some(PreRebootCompleted) => result := HandlePreRebootCompleted();
        case Some(RebootCompleted) => result := HandleRebootCompletedPhase(name, in_, strategy);
        case Some(FencingCompleted) =>
          result := DONE;
          if snr.deleting {
            result := Recover(name, in_);
          }
        case Some(Unrecognised) => result := Failed("unknown phase");
      }
    }

    // The reconcile.

    /** Touches no workloads, and gives up the finalizer only once both taints are off the node. */
    method CleanUpStopped(name: string, in_: Inputs) returns (result: Result)
      modifies this
      ensures (State(), result) == StoppedByNHC(old(State()), name, in_)
      ensures Quiet(old(server), server)
      ensures GetNode(old(State()), in_).1.Found? && old(snr).finalizer && !snr.finalizer ==>
                !TaintExists(node.node.taints, OUT_OF_SERVICE) && !TaintExists(node.node.taints, NO_SCHEDULE)
      ensures result == DONE && old(snr).deleting && old(snr).finalizer ==> name !in server.snrs || !server.snrs[name].finalizer
    {
      hide GetNode, RemoveTaint, RecoverNode, RemoveFinalizer, UpdateConditions, Quiet, TaintExists, Without, Proceed;
      StoppedGrows(State(), name, in_);
      GetNodeMemory(State(), in_);
      ConditionsOnly(snr, TimeoutByNHC);
      if !snr.deleting {
        SetConditions(TimeoutByNHC);
        return DONE;
      }
      var found := GetNodeFromSnr(in_);
      match found {
        case Found(_) =>
          var err := Remove(OUT_OF_SERVICE);
          if err != NoError {
            return Failed(in_.errorText);
          }
          result := Recover(name, in_);
        case Missing =>
          var err := DropFinalizer(name);
          result := if err == NoError then DONE else Failed(in_.errorText);
        case Unreadable => result := Failed(in_.errorText);
      }
    }

    method RemediateTarget(name: string, in_: Inputs) returns (result: Result)
      modifies this
      ensures (State(), result) == RemediateNode(old(State()), name, in_)
      ensures Touches(old(server), server, name)
      ensures !GetNode(old(State()), in_).1.Found? || GetNode(old(State()), in_).1.copy.node.excluded ==> Quiet(old(server), server)
    {
      hide GetNode, Remediate, UpdateLastError, UpdateConditions, RuntimeStrategy, Touches, Quiet;
      RemediateNodeTouches(State(), name, in_);
      if !GetNode(State(), in_).1.Found? || GetNode(State(), in_).1.copy.node.excluded { SkippedIsQuiet(State(), name, in_); }
      if snr.status.phase != Some(FencingCompleted) {
        SetConditions(RemediationStarted);
      }
      var found := GetNodeFromSnr(in_);
      if !found.Found? {
        if found.Missing? {
          SetConditions(SkippedNodeNotFound);
        }
        result := UpdateStatusLastError(name, in_, Failed(in_.errorText));
        return;
      }
      if node.node.excluded {
        return DONE;
      }
      var strategy := RuntimeStrategy(snr.strategy, in_.outOfServiceGA);
      var outcome := DONE;
      if strategy != Unsupported {
        outcome := RemediateWithResourceRemoval(name, in_, strategy);
      }
      result := UpdateStatusLastError(name, in_, outcome);
    }

    method RunBody(name: string, in_: Inputs) returns (result: Result)
      modifies this
      ensures (State(), result) == Body(old(State()), name, in_)
      ensures Touches(old(server), server, name)
      ensures in_.config != ConfigPresent ==> Quiet(old(server), server) && snr.status.phase == old(snr).status.phase
    {
      hide Proceed, StoppedByNHC, RemediateNode, Touches, Quiet;
      BodyTouches(State(), name, in_);
      ProceedGrows(State());
      var fate := Request();
      if fate != Served || in_.config == ConfigUnreadable {
        return Failed(in_.errorText);
      } else if in_.config == ConfigMissing {
        snr := snr.(status := snr.status.(conditions := snr.status.conditions.(disabled := Some(True))));
        return DONE;
      }
      if snr.timedOut {
        result := CleanUpStopped(name, in_);
      } else {
        result := RemediateTarget(name, in_);
      }
    }

    /** The whole reconcile of an SNR that was read before; an SNR that is gone leaves nothing to do. From any stored
        version, however stale, it is a step of a run, keeps the invariant of runs, and has effects on record only for
        its own SNR, none for one that NHC stopped. Unless it writes a cached node back, every out-of-service taint
        it sets is on record. */
    method ReconcileManager(name: string, in_: Inputs) returns (result: Result)
      modifies this
      ensures (State(), result) == Reconcile(old(server), name, old(snr), old(turns), in_)
      ensures forall i: nat :: StoredAs(old(server), name, i, old(snr)) ==>
                && server == ManagerRuns.Take(old(server), ManagerRuns.Step.Manager(name, i, old(turns), in_))
                && (Good(old(server)) ==> Good(server))
      ensures Touches(old(server), server, name)
      ensures old(snr).timedOut ==> Quiet(old(server), server)
      ensures !WritesBack(old(server), old(snr), in_) ==> Noted(old(server), server)
    {
      hide Body, Send, Good, Touches, Quiet, Noted, WritesBack;
      if !WritesBack(server, snr, in_) { ReconcileNoted(server, name, snr, turns, in_); }
      ReconcileTouches(server, name, snr, turns, in_);
      StoredIsStep(server, name, snr, turns, in_);
      result := RunBody(name, in_);
      var err := Update(name, SetStatus(snr.status));
      if err == Conflict {
        var minRequeue := SECOND;
        if result.after > 0 && minRequeue > result.after {
          minRequeue := result.after;
        }
        if result.err == None {
          result := result.(after := minRequeue);
        }
      } else if err != NoError {
        result := Failed(in_.errorText);
      }
    }
  }

  /** The SNR is the stored version with the given index. */
  ghost predicate StoredAs(w: World, name: string, i: nat, s: Snr) {
    name in w.history && i < |w.history[name]| && w.history[name][i] == s
  }

  lemma StoredIsStep(w: World, name: string, s: Snr, turns: seq<Turn>, in_: Inputs)
    ensures forall i: nat :: StoredAs(w, name, i, s) ==>
              && Reconcile(w, name, s, turns, in_).0.world == ManagerRuns.Take(w, ManagerRuns.Step.Manager(name, i, turns, in_))
              && (Good(w) ==> Good(Reconcile(w, name, s, turns, in_).0.world))
  {
    hide Good, Reconcile;
    forall i: nat | StoredAs(w, name, i, s) && Good(w) ensures Good(Reconcile(w, name, s, turns, in_).0.world) {
      ReconcileKeepsGood(w, name, i, turns, in_);
    }
  }

  /** An answered removal has removed the finalizer; one that was turned down has changed nothing. */
  lemma DropsOrKeeps(c: Session, name: string)
    ensures var (d, err) := Send(c, name, SetFinalizer(false));
            && (err == NoError ==> name !in d.world.snrs || !d.world.snrs[name].finalizer)
            && (err in {NotFound, Conflict} ==> d.world == Proceed(c).world)
  {
    hide Proceed, Decode;
  }

  /** Nobody disturbs the request: it is served for the current version, and turned down for any other. */
  lemma PutsOrRetries(c: Session, name: string)
    requires c.turns == [] && name in c.world.snrs && name in c.world.history
    ensures var (d, err) := Send(c, name, SetFinalizer(true));
            if c.world.snrs[name].version == c.snr.version
            then err == NoError && name in d.world.snrs && d.world.snrs[name].finalizer
            else err == Conflict && d.world == c.world
  {
    hide Decode;
  }

  lemma ErrorDecoded(c: Session, name: string, in_: Inputs, outcome: Result)
    ensures var (d, result) := UpdateLastError(c, name, in_, outcome);
            outcome.err == None && result == outcome ==> d.snr.status.lastError == ""
  {
    hide Proceed;
    ProceedMemory(c.(snr := c.snr.(status := c.snr.status.(lastError := ""))));
  }

  /** Only after the reboot does a reconcile touch workloads. */
  lemma OnlyAfterReboot(c: Session, name: string, copy: NodeCopy, in_: Inputs, strategy: Strategy)
    requires c.snr.status.phase != Some(RebootCompleted)
    ensures Quiet(c.world, Remediate(c, name, copy, in_, strategy).0.world)
  {
    hide PrepareReboot, RecoverNode, Quiet;
    Still(c.world);
    PrepareGrows(c, name, copy, in_);
    RecoverGrows(c, name, copy, in_);
  }

  /** A node that is missing, unreadable or excluded is left alone. */
  lemma SkippedIsQuiet(c: Session, name: string, in_: Inputs)
    requires !GetNode(c, in_).1.Found? || GetNode(c, in_).1.copy.node.excluded
    ensures Quiet(c.world, RemediateNode(c, name, in_).0.world)
  {
    hide Proceed, UpdateLastError, Quiet, UpdateConditions;
    var started := if c.snr.status.phase == Some(FencingCompleted) then c else c.(snr := UpdateConditions(c.snr, RemediationStarted));
    ProceedGrows(started);
    assert started.snr.target == c.snr.target by { ConditionsOnly(c.snr, RemediationStarted); }
    SameTurns(c, started);
    var (d, found) := GetNode(started, in_);
    var skipped := if found.Missing? then d.(snr := UpdateConditions(d.snr, SkippedNodeNotFound)) else d;
    LastErrorGrows(skipped, name, in_, Failed(in_.errorText));
    QuietTrans(c.world, d.world, UpdateLastError(skipped, name, in_, Failed(in_.errorText)).0.world);
  }

  lemma GetNodeMemory(c: Session, in_: Inputs)
    ensures GetNode(c, in_).0.snr == c.snr
  {
    hide Proceed;
    ProceedMemory(c);
  }

  /** What others do does not depend on the memory. */
  lemma SameTurns(c: Session, d: Session)
    requires c.world == d.world && c.turns == d.turns
    ensures Proceed(c).world == Proceed(d).world && Proceed(c).snr == c.snr && Proceed(d).snr == d.snr && NextFate(c) == NextFate(d)
  {
  }

  lemma ConditionsOnly(s: Snr, reason: Reason)
    ensures UpdateConditions(s, reason).finalizer == s.finalizer && UpdateConditions(s, reason).target == s.target
  {
  }

  /** A taint that stays was there, and nothing but the request happened. */
  lemma RefusedRemoval(c: Session, copy: NodeCopy, taint: Taint)
    ensures var (d, _, err) := RemoveTaint(c, copy, taint);
            err != NoError ==> d.world.snrs == Proceed(c).world.snrs && d.snr == c.snr
  {
    hide Proceed;
    ProceedMemory(c);
  }

  /** What a write was answered with is what was written. */
  lemma WrittenIsRead(c: Session, copy: NodeCopy, taints: seq<Taint>)
    ensures var (_, copy', err) := WriteTaints(c, copy, taints);
            if err == NoError then copy'.node.taints == taints else copy' == copy
  {
    hide Proceed;
  }

  lemma AddOutOfServiceTaintKeepsName(c: Session, name: string, copy: NodeCopy)
    ensures AddOutOfServiceTaint(c, name, copy).1.name == copy.name
  {
    hide Proceed;
  }
}

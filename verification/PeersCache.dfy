/** The cached addresses of the peers, and the refreshes that replace them. */
module PeersCache {
  import opened Common

  datatype Pod = Pod(node: string, ips: seq<string>)

  datatype NodesRead = NodesListed(nodes: seq<string>) | NodesNotFound | NodesFailed

  datatype PodsRead = PodsListed(pods: seq<Pod>) | PodsFailed

  /** The first pod on the node decides, whether it has an address or not. */
  function PrimaryIP(pods: seq<Pod>, node: string): Option<string> {
    if pods == [] then None
    else if pods[0].node == node then
      if pods[0].ips == [] || pods[0].ips[0] == "" then None else Some(pods[0].ips[0])
    else PrimaryIP(pods[1..], node)
  }

  function Addresses(nodes: seq<string>, pods: seq<Pod>): seq<string> {
    if nodes == [] then []
    else
      var front, last := Addresses(nodes[..|nodes| - 1], pods), PrimaryIP(pods, nodes[|nodes| - 1]);
      if last.Some? then front + [last.value] else front
  }

  ghost predicate AllFound(nodes: seq<string>, pods: seq<Pod>) {
    forall i :: 0 <= i < |nodes| ==> PrimaryIP(pods, nodes[i]).Some?
  }

  /** The primary address of one node. */
  method FindPrimaryIP(pods: seq<Pod>, node: string) returns (ip: Option<string>)
    ensures ip == PrimaryIP(pods, node)
  {
    assert pods[0..] == pods;
    for i := 0 to |pods|
      invariant PrimaryIP(pods, node) == PrimaryIP(pods[i..], node)
    {
      assert pods[i..][1..] == pods[i + 1..];
      if pods[i].node == node {
        if |pods[i].ips| == 0 || pods[i].ips[0] == "" {
          return None;
        }
        return Some(pods[i].ips[0]);
      }
    }
    return None;
  }

  method MapNodesToPrimaryPodIPs(nodes: seq<string>, pods: seq<Pod>) returns (addresses: seq<string>, failed: bool)
    ensures addresses == Addresses(nodes, pods)
    ensures !failed <==> AllFound(nodes, pods)
  {
    addresses, failed := [], false;
    for i := 0 to |nodes|
      invariant addresses == Addresses(nodes[..i], pods)
      invariant !failed <==> AllFound(nodes[..i], pods)
    {
      assert nodes[..i + 1][..i] == nodes[..i];
      var ip := FindPrimaryIP(pods, nodes[i]);
      match ip {
        case Some(address) => addresses := addresses + [address];
        case None =>
          failed := true;
          assert nodes[..i + 1][i] == nodes[i];
      }
    }
    assert nodes[..|nodes|] == nodes;
  }

  /** No error means exactly that every node contributed one non-empty address, in the order of the nodes. */
  lemma {:induction false} MappingIsComplete(nodes: seq<string>, pods: seq<Pod>)
    ensures |Addresses(nodes, pods)| <= |nodes|
    ensures AllFound(nodes, pods) <==> |Addresses(nodes, pods)| == |nodes|
    ensures AllFound(nodes, pods) ==>
              forall i :: 0 <= i < |nodes| ==> Addresses(nodes, pods)[i] == PrimaryIP(pods, nodes[i]).value != ""
  {
    if nodes != [] {
      var front := nodes[..|nodes| - 1];
      MappingIsComplete(front, pods);
      PrimaryIsNotEmpty(pods, nodes[|nodes| - 1]);
      assert AllFound(nodes, pods) <==> AllFound(front, pods) && PrimaryIP(pods, nodes[|nodes| - 1]).Some? by {
        assert forall i :: 0 <= i < |front| ==> front[i] == nodes[i];
      }
    }
  }

  /** The primary address of a node is the first address of the first pod on it, if there is one and it is not empty. */
  lemma {:induction false} PrimaryIsFirst(pods: seq<Pod>, node: string, i: nat)
    requires i < |pods| && pods[i].node == node && forall j :: 0 <= j < i ==> pods[j].node != node
    ensures PrimaryIP(pods, node) == if |pods[i].ips| > 0 && pods[i].ips[0] != "" then Some(pods[i].ips[0]) else None
  {
    if i > 0 { PrimaryIsFirst(pods[1..], node, i - 1); }
  }

  lemma {:induction false} NoPodNoAddress(pods: seq<Pod>, node: string)
    requires forall j :: 0 <= j < |pods| ==> pods[j].node != node
    ensures PrimaryIP(pods, node) == None
  {
    if pods != [] { NoPodNoAddress(pods[1..], node); }
  }

  lemma {:induction false} PrimaryIsNotEmpty(pods: seq<Pod>, node: string)
    ensures PrimaryIP(pods, node) != Some("")
  {
    if pods != [] { PrimaryIsNotEmpty(pods[1..], node); }
  }

  // One refresh.

  /** The periodic refresh is authoritative; the one for the isolation check is not when it finds nothing. */
  datatype Mode = Periodic | IsolationCheck

  function Updated(mode: Mode, cache: seq<string>, addresses: seq<string>): seq<string> {
    if mode == IsolationCheck && addresses == [] && cache != [] then cache else addresses
  }

  /** What a refresh has to store, or None if it gives up before. */
  function Found(nodes: NodesRead, pods: PodsRead): Option<seq<string>> {
    match nodes
    case NodesFailed => None
    case NodesNotFound => Some([])
    case NodesListed(names) =>
      if names == [] then Some([])
      else match pods
           case PodsFailed => None
           case PodsListed(listed) => Some(Addresses(names, listed))
  }

  /** The refresh reports an error: on failed reads, on no nodes found, and on incomplete addresses. */
  ghost predicate Reports(nodes: NodesRead, pods: PodsRead) {
    match nodes
    case NodesFailed => true
    case NodesNotFound => true
    case NodesListed(names) => names != [] && (pods.PodsFailed? || !AllFound(names, pods.pods))
  }

  datatype Role = Worker | ControlPlane

  class Peers {
    var workerPeersAddresses: seq<string>
    var controlPlanePeersAddresses: seq<string>
    var refreshing: bool             // the one token of the semaphore is taken
    var selectorInitialized: bool

    constructor ()
      ensures workerPeersAddresses == controlPlanePeersAddresses == [] && !refreshing && !selectorInitialized
    {
      workerPeersAddresses, controlPlanePeersAddresses, refreshing, selectorInitialized := [], [], false, false;
    }

    /** What to store, if the reads get that far. */
    method ReadPeers(nodes: NodesRead, pods: PodsRead) returns (addresses: Option<seq<string>>, failed: bool)
      ensures addresses == Found(nodes, pods)
      ensures failed <==> Reports(nodes, pods)
    {
      if nodes == NodesFailed {
        return None, true;
      }
      var found := [];
      failed := nodes == NodesNotFound;
      if nodes.NodesListed? && |nodes.nodes| > 0 {
        if pods == PodsFailed {
          return None, true;
        }
        found, failed := MapNodesToPrimaryPodIPs(nodes.nodes, pods.pods);
      }
      return Some(found), failed;
    }

    method UpdateWorkerPeers(nodes: NodesRead, pods: PodsRead) returns (failed: bool)
      modifies `workerPeersAddresses
      ensures workerPeersAddresses == (match Found(nodes, pods) case None => old(workerPeersAddresses) case Some(found) => found)
      ensures failed <==> Reports(nodes, pods)
    {
      var addresses;
      addresses, failed := ReadPeers(nodes, pods);
      if addresses.Some? {
        workerPeersAddresses := addresses.value;
      }
    }

    /** A refresh with nobody acting in between. `done` says that its context is over at the start, and `takesToken` which
        of two ready branches it then takes. It is blocked exactly while the token is taken and its context goes on.
        Otherwise it returns the token on every path. */
    method UpdateControlPlanePeersWithSetter(mode: Mode, done: bool, takesToken: bool, nodes: NodesRead, pods: PodsRead)
        returns (blocked: bool, failed: bool)
      modifies `controlPlanePeersAddresses, `refreshing
      ensures blocked <==> old(refreshing) && !done
      ensures refreshing == old(refreshing)
      ensures !blocked ==> (failed <==> done || Reports(nodes, pods))
      ensures controlPlanePeersAddresses ==
              if blocked || done || Found(nodes, pods) == None then old(controlPlanePeersAddresses)
              else Updated(mode, old(controlPlanePeersAddresses), Found(nodes, pods).value)
    {
      if refreshing && !done {
        return true, false;
      }
      blocked := false;
      if refreshing || (done && !takesToken) {
        return false, true;
      }
      refreshing := true;
      if done {
        refreshing := false;
        return false, true;
      }
      var addresses;
      addresses, failed := ReadPeers(nodes, pods);
      if addresses.Some? {
        if !(mode == IsolationCheck && |addresses.value| == 0 && |controlPlanePeersAddresses| > 0) {
          controlPlanePeersAddresses := addresses.value;
        }
      }
      refreshing := false;
    }

    /** The reactive refresh never turns a non-empty cache empty. */
    method RefreshControlPlanePeersForIsolationCheck(done: bool, takesToken: bool, nodes: NodesRead, pods: PodsRead)
        returns (blocked: bool, failed: bool)
      modifies `controlPlanePeersAddresses, `refreshing
      ensures blocked <==> selectorInitialized && old(refreshing) && !done
      ensures refreshing == old(refreshing)
      ensures !selectorInitialized ==> failed && controlPlanePeersAddresses == old(controlPlanePeersAddresses)
      ensures old(controlPlanePeersAddresses) != [] ==> controlPlanePeersAddresses != []
      ensures controlPlanePeersAddresses != old(controlPlanePeersAddresses) ==> Found(nodes, pods) == Some(controlPlanePeersAddresses)
    {
      if !selectorInitialized {
        return false, true;
      }
      blocked, failed := UpdateControlPlanePeersWithSetter(IsolationCheck, done, takesToken, nodes, pods);
    }

    /** The caller gets a copy of its own. */
    method GetPeersAddresses(role: Role) returns (addresses: array<string>)
      ensures fresh(addresses)
      ensures addresses[..] == if role == Worker then workerPeersAddresses else controlPlanePeersAddresses
    {
      var cached := if role == Worker then workerPeersAddresses else controlPlanePeersAddresses;
      addresses := new string[|cached|];
      for i := 0 to |cached|
        invariant addresses[..i] == cached[..i]
      {
        addresses[i] := cached[i];
      }
    }
  }

  // Any number of refreshes at the same time.

  /** Where a refresh stands. From `Admitted` on it holds the token. */
  datatype Stage =
    | Idle
    | Waiting(mode: Mode)
    | Admitted(mode: Mode)
    | Listing(mode: Mode)
    | NodesKnown(mode: Mode, nodes: seq<string>, readAt: int)
    | Ready(mode: Mode, addresses: seq<string>, readAt: int)
    | Leaving

  /** The cache of control-plane peers; `readAt` is the time of the read it comes from. */
  datatype State = State(clock: int, cache: seq<string>, readAt: int, token: Option<nat>, refreshes: map<nat, Stage>)

  datatype Step =
    | Tick(duration: nat)
    | Begin(id: nat, mode: Mode)
    | Acquire(id: nat)
    | GiveUp(id: nat)                          // the context ends while waiting
    | FindDone(id: nat)                        // the context had ended when the token came
    | Continue(id: nat)
    | ListNodes(id: nat, nodes: NodesRead)
    | ListPods(id: nat, pods: PodsRead)
    | StoreAddresses(id: nat)
    | Release(id: nat)

  function StageOf(s: State, id: nat): Stage {
    if id in s.refreshes then s.refreshes[id] else Idle
  }

  predicate Holds(stage: Stage) {
    !stage.Idle? && !stage.Waiting?
  }

  predicate CanHappen(s: State, step: Step) {
    match step
    case Tick(_) => true
    case Begin(id, _) => StageOf(s, id).Idle?
    case Acquire(id) => StageOf(s, id).Waiting? && s.token == None
    case GiveUp(id) => StageOf(s, id).Waiting?
    case FindDone(id) => StageOf(s, id).Admitted?
    case Continue(id) => StageOf(s, id).Admitted?
    case ListNodes(id, _) => StageOf(s, id).Listing?
    case ListPods(id, _) => StageOf(s, id).NodesKnown?
    case StoreAddresses(id) => StageOf(s, id).Ready?
    case Release(id) => StageOf(s, id).Leaving?
  }

  function Move(s: State, id: nat, stage: Stage): State {
    s.(refreshes := s.refreshes[id := stage])
  }

  function Next(s: State, step: Step): State
    requires CanHappen(s, step)
  {
    match step
    case Tick(d) => s.(clock := s.clock + d)
    case Begin(id, mode) => Move(s, id, Waiting(mode))
    case Acquire(id) => Move(s, id, Admitted(StageOf(s, id).mode)).(token := Some(id))
    case GiveUp(id) => Move(s, id, Idle)
    case FindDone(id) => Move(s, id, Idle).(token := None)
    case Continue(id) => Move(s, id, Listing(StageOf(s, id).mode))
    case ListNodes(id, nodes) =>
      var mode := StageOf(s, id).mode;
      Move(s, id, match nodes
                  case NodesFailed => Leaving
                  case NodesNotFound => Ready(mode, [], s.clock)
                  case NodesListed(names) => if names == [] then Ready(mode, [], s.clock) else NodesKnown(mode, names, s.clock))
    case ListPods(id, pods) =>
      var stage := StageOf(s, id);
      Move(s, id, match pods
                  case PodsFailed => Leaving
                  case PodsListed(listed) => Ready(stage.mode, Addresses(stage.nodes, listed), stage.readAt))
    case StoreAddresses(id) =>
      var stage := StageOf(s, id);
      var kept := stage.mode == IsolationCheck && stage.addresses == [] && s.cache != [];
      Move(s, id, Leaving).(cache := Updated(stage.mode, s.cache, stage.addresses), readAt := if kept then s.readAt else stage.readAt)
    case Release(id) => Move(s, id, Idle).(token := None)
  }

  ghost predicate IsRun(states: seq<State>, steps: seq<Step>) {
    && |states| == |steps| + 1
    && states[0].token == None && states[0].refreshes == map[] && states[0].cache == [] && states[0].readAt <= states[0].clock
    && (forall i :: 0 <= i < |steps| ==> CanHappen(states[i], steps[i]) && states[i + 1] == Next(states[i], steps[i]))
  }

  /** The token is with exactly the refresh that is past waiting, and what it has read is not older than the cache. */
  ghost predicate Ordered(s: State) {
    && (forall id: nat :: Holds(StageOf(s, id)) <==> s.token == Some(id))
    && s.readAt <= s.clock
    && (forall id: nat :: (StageOf(s, id).NodesKnown? || StageOf(s, id).Ready?) ==> s.readAt <= StageOf(s, id).readAt <= s.clock)
  }

  lemma NextKeepsOrdered(s: State, step: Step)
    requires Ordered(s) && CanHappen(s, step)
    ensures Ordered(Next(s, step))
    ensures s.readAt <= Next(s, step).readAt
  {
  }

  lemma {:induction false} RunIsOrdered(states: seq<State>, steps: seq<Step>, k: nat)
    requires IsRun(states, steps) && k < |states|
    ensures Ordered(states[k])
  {
    if k > 0 {
      RunIsOrdered(states, steps, k - 1);
      NextKeepsOrdered(states[k - 1], steps[k - 1]);
      assert states[k] == Next(states[k - 1], steps[k - 1]);
    }
  }

  /** At most one refresh is past waiting at any time; and when none is, the token is free, so every way out has
      returned it. */
  lemma OneRefreshAtATime(states: seq<State>, steps: seq<Step>, k: nat)
    requires IsRun(states, steps) && k < |states|
    ensures forall a, b :: Holds(StageOf(states[k], a)) && Holds(StageOf(states[k], b)) ==> a == b
    ensures states[k].token == None <==> forall id :: !Holds(StageOf(states[k], id))
  {
    RunIsOrdered(states, steps, k);
    if states[k].token.Some? { assert Holds(StageOf(states[k], states[k].token.value)); }
  }

  /** The cache never goes back to an older read. */
  lemma {:induction false} NewerReadsWin(states: seq<State>, steps: seq<Step>, i: nat, j: nat)
    requires IsRun(states, steps) && i <= j < |states|
    ensures states[i].readAt <= states[j].readAt
  {
    if i < j {
      NewerReadsWin(states, steps, i, j - 1);
      RunIsOrdered(states, steps, j - 1);
      NextKeepsOrdered(states[j - 1], steps[j - 1]);
      assert states[j] == Next(states[j - 1], steps[j - 1]);
    }
  }

  /** Step `k` stores what a periodic refresh has read. */
  ghost predicate PeriodicStore(states: seq<State>, steps: seq<Step>, k: nat)
    requires |states| == |steps| + 1 && k < |steps|
  {
    steps[k].StoreAddresses? && StageOf(states[k], steps[k].id).Ready? && StageOf(states[k], steps[k].id).mode == Periodic
  }

  /** What a store leaves in the cache: of a periodic refresh exactly what it found, be it nothing; of one for the isolation
      check the same, unless it found nothing. */
  lemma StoredExactly(states: seq<State>, steps: seq<Step>, k: nat)
    requires IsRun(states, steps) && k < |steps| && steps[k].StoreAddresses?
    ensures var stage := StageOf(states[k], steps[k].id);
            && stage.Ready?
            && (stage.mode == Periodic || stage.addresses != [] ==> states[k + 1].cache == stage.addresses && states[k + 1].readAt == stage.readAt)
            && (stage.mode == IsolationCheck && stage.addresses == [] && states[k].cache != [] ==> states[k + 1].cache == states[k].cache)
  {
    assert CanHappen(states[k], steps[k]) && states[k + 1] == Next(states[k], steps[k]);
  }

  /** As long as only refreshes for the isolation check store, known peers stay known. */
  lemma {:induction false} KnownPeersStay(states: seq<State>, steps: seq<Step>, i: nat, j: nat)
    requires IsRun(states, steps) && i <= j < |states| && states[i].cache != []
    requires forall k :: i <= k < j ==> !PeriodicStore(states, steps, k)
    ensures states[j].cache != []
  {
    if i < j {
      KnownPeersStay(states, steps, i, j - 1);
      assert states[j] == Next(states[j - 1], steps[j - 1]);
      assert !PeriodicStore(states, steps, j - 1);
    }
  }

  /** How many steps of its own a holder is from returning the token, at most. */
  function StepsLeft(stage: Stage): nat {
    match stage
    case Admitted(_) => 5
    case Listing(_) => 4
    case NodesKnown(_, _, _) => 3
    case Ready(_, _, _) => 2
    case Leaving => 1
    case _ => 0
  }

  function By(step: Step): Option<nat> {
    if step.Tick? then None else Some(step.id)
  }

  /** A holder can always move, and every move of its own brings it nearer to returning the token: no refresh can
      block the others for good. */
  lemma HolderMovesOn(s: State, id: nat)
    requires Ordered(s) && s.token == Some(id)
    ensures exists step :: By(step) == Some(id) && CanHappen(s, step)
    ensures forall step :: By(step) == Some(id) && CanHappen(s, step) ==>
              && StepsLeft(StageOf(Next(s, step), id)) < StepsLeft(StageOf(s, id))
              && (StepsLeft(StageOf(Next(s, step), id)) == 0 ==> Next(s, step).token == None)
  {
    assert Holds(StageOf(s, id));
    var step := match StageOf(s, id)
      case Admitted(_) => Continue(id)
      case Listing(_) => ListNodes(id, NodesFailed)
      case NodesKnown(_, _, _) => ListPods(id, PodsFailed)
      case Ready(_, _, _) => StoreAddresses(id)
      case _ => Release(id);
    assert By(step) == Some(id) && CanHappen(s, step);
  }

  /** A refresh that nobody disturbs. */
  function Alone(s: State, id: nat, mode: Mode, nodes: NodesRead, pods: PodsRead): State
    requires s.token == None && StageOf(s, id).Idle?
  {
    var listing := Next(Next(Next(s, Begin(id, mode)), Acquire(id)), Continue(id));
    var listed := Next(listing, ListNodes(id, nodes));
    var read := if StageOf(listed, id).NodesKnown? then Next(listed, ListPods(id, pods)) else listed;
    var stored := if StageOf(read, id).Ready? then Next(read, StoreAddresses(id)) else read;
    Next(stored, Release(id))
  }

  /** It leaves the cache as the method above does, and the token free. */
  lemma UndisturbedRefresh(s: State, id: nat, mode: Mode, nodes: NodesRead, pods: PodsRead)
    requires s.token == None && StageOf(s, id).Idle?
    ensures var t := Alone(s, id, mode, nodes, pods);
            && t.token == None && StageOf(t, id).Idle?
            && t.cache == if Found(nodes, pods) == None then s.cache else Updated(mode, s.cache, Found(nodes, pods).value)
  {
    hide Addresses;
  }
}

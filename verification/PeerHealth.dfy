/** What a peer answers when it is asked about a node, and why no asker is cleared while its SNR exists. */
module PeerHealth {
  import opened Common
  import opened Batches
  import opened PeerQuery
  import opened ApiCheck

  datatype OwnerRef = OwnerRef(kind: string, name: string)

  /** A remediation resource as the peers list it. */
  datatype Remediation = Remediation(name: string, nodeName: Option<string>, owners: seq<OwnerRef>)

  /** The answer to the lookup of its Machine, if the scan needs one. */
  datatype MachineRead = MachineNode(node: string) | NoNodeRef | MachineUnreadable

  datatype Item = Item(snr: Remediation, machine: MachineRead)

  /** The first owner of a kind. */
  function Owner(owners: seq<OwnerRef>, kind: string): (found: Option<OwnerRef>)
    ensures found.Some? <==> exists i :: 0 <= i < |owners| && owners[i].kind == kind
    ensures found.Some? ==> found.value.kind == kind && found.value in owners
  {
    if owners == [] then None
    else if owners[0].kind == kind then Some(owners[0])
    else
      assert forall i :: 0 < i < |owners| ==> owners[i] == owners[1..][i - 1];
      Owner(owners[1..], kind)
  }

  /** From the annotation, even if it is empty, or else the name of the resource. */
  function NodeNameDirect(r: Remediation): string {
    match r.nodeName
    case Some(node) => node
    case None => r.name
  }

  /** None if the Machine or its node cannot be found. A NodeHealthCheck owner goes before a Machine. */
  function NodeName(item: Item): Option<string> {
    if Owner(item.snr.owners, "NodeHealthCheck").Some? then Some(NodeNameDirect(item.snr))
    else if Owner(item.snr.owners, "Machine").Some? then
      match item.machine
      case MachineNode(node) => Some(node)
      case _ => None
    else Some(NodeNameDirect(item.snr))
  }

  function IsSnrMatching(item: Item, nodeName: string, machineName: string): Option<bool> {
    var machine := Owner(item.snr.owners, "Machine");
    if machine.Some? && machine.value.name == machineName then Some(true)
    else match NodeName(item)
         case None => None
         case Some(node) => Some(node == nodeName)
  }

  predicate SomeMatch(items: seq<Item>, nodeName: string, machineName: string) {
    exists i :: 0 <= i < |items| && IsSnrMatching(items[i], nodeName, machineName) == Some(true)
  }

  /** The answer, given the list, or None if listing fails or takes too long. */
  function Answer(nodeName: string, machineName: string, list: Option<seq<Item>>): int {
    if nodeName == "" then REQUEST_FAILED
    else match list
         case None => API_ERROR
         case Some(items) => if SomeMatch(items, nodeName, machineName) then UNHEALTHY else HEALTHY
  }

  /** The scan skips what it cannot resolve and stops at the first match. */
  method IsHealthy(nodeName: string, machineName: string, list: Option<seq<Item>>) returns (answer: int)
    ensures answer == Answer(nodeName, machineName, list)
  {
    if nodeName == "" {
      return REQUEST_FAILED;
    }
    if list == None {
      return API_ERROR;
    }
    var items := list.value;
    for i := 0 to |items|
      invariant forall j :: 0 <= j < i ==> IsSnrMatching(items[j], nodeName, machineName) != Some(true)
    {
      var matches := IsSnrMatching(items[i], nodeName, machineName);
      if matches == None {
        continue;
      }
      if matches.value {
        return UNHEALTHY;
      }
    }
    return HEALTHY;
  }

  /** The resource names its node without the help of a Machine. */
  predicate Names(r: Remediation, nodeName: string) {
    && (r.nodeName == Some(nodeName) || (r.nodeName == None && r.name == nodeName))
    && (Owner(r.owners, "NodeHealthCheck").Some? || Owner(r.owners, "Machine") == None)
  }

  /** The list was taken while such a resource existed. */
  ghost predicate Informed(items: seq<Item>, nodeName: string) {
    exists i :: 0 <= i < |items| && Names(items[i].snr, nodeName)
  }

  /** A peer whose list was taken while the SNR existed says Unhealthy, or that it could not list; whatever else is on the
      list, whatever Machine lookups fail, and whatever machine name it was asked for. */
  lemma InformedPeer(nodeName: string, machineName: string, list: Option<seq<Item>>)
    requires nodeName != "" && (list.Some? ==> Informed(list.value, nodeName))
    ensures Answer(nodeName, machineName, list) == if list.Some? then UNHEALTHY else API_ERROR
  {
    if list.Some? {
      var i :| 0 <= i < |list.value| && Names(list.value[i].snr, nodeName);
      assert IsSnrMatching(list.value[i], nodeName, machineName) == Some(true);
    }
  }

  /** The resource is about the node: it names it, its Machine runs on it, or it is owned by the very Machine. */
  ghost predicate About(item: Item, nodeName: string, machineName: string) {
    || Names(item.snr, nodeName)
    || (&& (exists i :: 0 <= i < |item.snr.owners| && item.snr.owners[i].kind == "Machine")
        && (forall i :: 0 <= i < |item.snr.owners| ==> item.snr.owners[i].kind != "NodeHealthCheck")
        && item.machine == MachineNode(nodeName))
    || Owner(item.snr.owners, "Machine") == Some(OwnerRef("Machine", machineName))
  }

  /** A peer accuses a node exactly for a resource that is about it, and clears it exactly if it listed none. */
  lemma AccusedForAReason(nodeName: string, machineName: string, list: Option<seq<Item>>)
    ensures Answer(nodeName, machineName, list) == REQUEST_FAILED <==> nodeName == ""
    ensures Answer(nodeName, machineName, list) == API_ERROR <==> nodeName != "" && list == None
    ensures Answer(nodeName, machineName, list) == UNHEALTHY <==>
              nodeName != "" && list.Some? && (exists i :: 0 <= i < |list.value| && About(list.value[i], nodeName, machineName))
    ensures Answer(nodeName, machineName, list) == HEALTHY <==>
              nodeName != "" && list.Some? && (forall i :: 0 <= i < |list.value| ==> !About(list.value[i], nodeName, machineName))
  {
    if list.Some? {
      forall i | 0 <= i < |list.value|
        ensures About(list.value[i], nodeName, machineName) <==> IsSnrMatching(list.value[i], nodeName, machineName) == Some(true)
      {
        MatchingMeansAbout(list.value[i], nodeName, machineName);
      }
    }
  }

  lemma MatchingMeansAbout(item: Item, nodeName: string, machineName: string)
    ensures About(item, nodeName, machineName) <==> IsSnrMatching(item, nodeName, machineName) == Some(true)
  {
  }

  // The asker.

  ghost predicate InformedReply(reply: int, nodeName: string) {
    || reply == REQUEST_FAILED
    || (exists machineName, list: Option<seq<Item>> ::
          reply == Answer(nodeName, machineName, list) && (list.Some? ==> Informed(list.value, nodeName)))
  }

  /** Every peer is informed, or does not answer. */
  ghost predicate InformedRound(round: PeerRound, nodeName: string) {
    forall i :: 0 <= i < |round.replies| ==> InformedReply(round.replies[i], nodeName)
  }

  lemma NobodySaysHealthy(round: PeerRound, nodeName: string)
    requires nodeName != "" && InformedRound(round, nodeName)
    ensures HEALTHY !in round.replies
  {
    forall i | 0 <= i < |round.replies| ensures round.replies[i] != HEALTHY {
      assert InformedReply(round.replies[i], nodeName);
      if round.replies[i] != REQUEST_FAILED {
        var machineName, list: Option<seq<Item>> :| round.replies[i] == Answer(nodeName, machineName, list) && (list.Some? ==> Informed(list.value, nodeName));
        InformedPeer(nodeName, machineName, list);
      }
    }
  }

  /** A query that only informed peers answer never ends with "CR not found", and never resets the error count. */
  lemma InformedQuery(cfg: Config, m: Monitor, round: PeerRound, nodeName: string)
    requires round.Valid() && nodeName != "" && InformedRound(round, nodeName)
    ensures AskWorkers(cfg, m, round).1.reason != HealthyBecauseCRNotFound
    ensures AskWorkers(cfg, m, round).0.errorCount == m.errorCount + 1
  {
    hide InformedRound, FirstDecisive, Batch, LastAnswer, NrOfBatches;
    NobodySaysHealthy(round, nodeName);
    if Queries(cfg, m, round) {
      HealthyVerdict(cfg, m, round);
    }
  }

  /** Checks `from` up to `to` found no API server, and only informed peers answered. */
  ghost predicate InformedStretch(run: seq<Check>, nodeName: string, from: nat, to: nat)
    requires from <= to <= |run|
  {
    forall k :: from <= k < to ==> !run[k].readyz && InformedRound(run[k].workers, nodeName)
  }

  /** During such a stretch the error count goes up by one with every check. */
  lemma {:induction false} StreakNeverReset(cfg: Config, isControlPlane: bool, start: Monitor, run: seq<Check>, nodeName: string, from: nat, to: nat)
    requires ValidRun(run) && from <= to <= |run| && nodeName != "" && InformedStretch(run, nodeName, from, to)
    ensures MemoryAt(cfg, isControlPlane, start, run, to).errorCount == MemoryAt(cfg, isControlPlane, start, run, from).errorCount + to - from
  {
    hide InformedRound, NrOfBatches, AskWorkers, ControlPlanePeersStatus;
    if from < to {
      assert InformedStretch(run, nodeName, from, to - 1);
      StreakNeverReset(cfg, isControlPlane, start, run, nodeName, from, to - 1);
      InformedQuery(cfg, MemoryAt(cfg, isControlPlane, start, run, to - 1), run[to - 1].workers, nodeName);
    }
  }

  /** So an unhealthy worker cannot escape: once the stretch is as long as the threshold, the first query in which an
      asked peer says Unhealthy calls Reboot. */
  lemma InformedStretchReboots(cfg: Config, start: Monitor, run: seq<Check>, nodeName: string, from: nat, k: nat)
    requires ValidRun(run) && from <= k < |run| && nodeName != "" && InformedStretch(run, nodeName, from, k + 1)
    requires MemoryAt(cfg, false, start, run, from).errorCount >= 0 && k + 1 - from >= cfg.maxErrorsThreshold
    requires 0 < |run[k].workers.replies| && cfg.minPeersForRemediation <= |run[k].workers.replies|
    requires UNHEALTHY in AskedReplies(run[k].workers.replies, RoundsAsked(run[k].workers.replies))
    ensures Reboots(cfg, false, start, run, k)
  {
    hide InformedRound, NrOfBatches, MemoryAt, LastAnswer, FirstDecisive, Batch;
    assert InformedStretch(run, nodeName, from, k);
    StreakNeverReset(cfg, false, start, run, nodeName, from, k);
    var m := MemoryAt(cfg, false, start, run, k);
    NobodySaysHealthy(run[k].workers, nodeName);
    UnhealthyVerdict(cfg, m, run[k].workers);
    HealthFollowsReason(cfg, m, run[k].workers);
  }
}

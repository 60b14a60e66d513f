/** The peers and the manager agree: while a remediation is stored, no peer that lists the store clears its node. */
module Agreement {
  import opened Common
  import opened PeerQuery
  import opened PeerHealth
  import opened Store
  import opened Safety
  import opened ManagerRuns

  /** The list holds every stored SNR, under the name of its node; SNRs of Machines are not part of the store. */
  ghost predicate ListOf(items: seq<Item>, w: World) {
    forall name :: name in w.snrs ==> exists i :: 0 <= i < |items| && items[i].snr.name == name && Names(items[i].snr, w.snrs[name].target)
  }

  /** An SNR keeps its target as long as it is stored. */
  lemma TargetStays(worlds: seq<World>, steps: seq<Step>, k: nat, m: nat, name: string)
    requires IsRun(worlds, steps) && k <= m < |worlds| && name in worlds[k].snrs && name in worlds[m].snrs
    ensures worlds[m].snrs[name].target == worlds[k].snrs[name].target
  {
    hide IsStart, GoodHistory;
    RunIsGood(worlds, steps, k);
    RunIsGood(worlds, steps, m);
    RunOnlyGrows(worlds, steps, k, m);
    LastIsStored(worlds[k], name);
    LastIsStored(worlds[m], name);
    assert GoodName(worlds[m], name);
    var h, i, j := worlds[m].history[name], |worlds[k].history[name]| - 1, |worlds[m].history[name]| - 1;
    if i < j { HistoryIsOrdered(h, worlds[m].clock, i, j); }
  }

  /** A list taken after the SNR was created, and while it is stored, is informed. */
  lemma ListedAfterCreation(worlds: seq<World>, steps: seq<Step>, k: nat, m: nat, name: string, items: seq<Item>)
    requires IsRun(worlds, steps) && k <= m < |worlds| && name in worlds[k].snrs && name in worlds[m].snrs
    requires ListOf(items, worlds[m])
    ensures Informed(items, worlds[k].snrs[name].target)
  {
    TargetStays(worlds, steps, k, m, name);
    var i :| 0 <= i < |items| && items[i].snr.name == name && Names(items[i].snr, worlds[m].snrs[name].target);
  }

  /** The reply of a peer that could not be asked, could not list, or listed the store at some time since state `k`. */
  ghost predicate RepliedSince(reply: int, node: string, worlds: seq<World>, k: nat, name: string) {
    || reply == REQUEST_FAILED
    || (exists machineName :: reply == Answer(node, machineName, None))
    || (exists machineName, items, m: nat ::
          && k <= m < |worlds| && name in worlds[m].snrs && ListOf(items, worlds[m])
          && reply == Answer(node, machineName, Some(items)))
  }

  /** In every run: once the SNR exists, a query whose replies come from such peers never ends with "CR not found", and
      never resets the error count of the node. */
  lemma NeverCleared(worlds: seq<World>, steps: seq<Step>, k: nat, name: string, cfg: Config, m: Monitor, round: PeerRound)
    requires IsRun(worlds, steps) && k < |worlds| && name in worlds[k].snrs && worlds[k].snrs[name].target != ""
    requires round.Valid()
    requires forall i :: 0 <= i < |round.replies| ==> RepliedSince(round.replies[i], worlds[k].snrs[name].target, worlds, k, name)
    ensures AskWorkers(cfg, m, round).1.reason != HealthyBecauseCRNotFound
    ensures AskWorkers(cfg, m, round).0.errorCount == m.errorCount + 1
  {
    hide IsRun, AskWorkers, Informed, ListOf;
    var node := worlds[k].snrs[name].target;
    forall i | 0 <= i < |round.replies| ensures InformedReply(round.replies[i], node) {
      assert RepliedSince(round.replies[i], node, worlds, k, name);
      if machineName :| round.replies[i] == Answer(node, machineName, None) {
        assert InformedReply(round.replies[i], node);
      } else if round.replies[i] != REQUEST_FAILED {
        var machineName, items, l: nat :|
          && k <= l < |worlds| && name in worlds[l].snrs && ListOf(items, worlds[l])
          && round.replies[i] == Answer(node, machineName, Some(items));
        ListedAfterCreation(worlds, steps, k, l, name, items);
      }
    }
    InformedQuery(cfg, m, round, node);
  }
}

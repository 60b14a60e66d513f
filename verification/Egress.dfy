/** The network-policy exception for the endpoint health check, and the cached resolution of its address. */
module Egress {
  import opened Common
  import opened Sorting

  datatype IPBlock = IPBlock(cidr: string, except: seq<string>)

  /** The selectors of a peer are of no interest here; they are carried along. */
  datatype Peer = Peer(ipBlock: Option<IPBlock>, selectors: string)

  datatype Rule = Rule(ports: seq<int>, to: seq<Peer>)

  predicate IsEndpointRule(rule: Rule) {
    |rule.ports| == 0 && |rule.to| == 1 && rule.to[0].ipBlock.Some?
  }

  function EndpointRule(cidr: string): Rule {
    Rule([], [Peer(Some(IPBlock(cidr, [])), "")])
  }

  /** The addresses of the endpoint rules, in the order of the rules. */
  function EndpointCidrs(egress: seq<Rule>): seq<string> {
    if egress == [] then []
    else
      var front, last := EndpointCidrs(egress[..|egress| - 1]), egress[|egress| - 1];
      if IsEndpointRule(last) then front + [last.to[0].ipBlock.value.cidr] else front
  }

  /** All other rules, in their order. */
  function OtherRules(egress: seq<Rule>): seq<Rule> {
    if egress == [] then []
    else
      var front, last := OtherRules(egress[..|egress| - 1]), egress[|egress| - 1];
      if IsEndpointRule(last) then front else front + [last]
  }

  function EndpointRules(cidrs: seq<string>): seq<Rule> {
    seq(|cidrs|, i requires 0 <= i < |cidrs| => EndpointRule(cidrs[i]))
  }

  function Replaced(egress: seq<Rule>, cidrs: seq<string>): seq<Rule> {
    OtherRules(egress) + EndpointRules(cidrs)
  }

  method EndpointCidrsFromEgress(egress: seq<Rule>) returns (cidrs: seq<string>)
    ensures cidrs == Sort(EndpointCidrs(egress))
  {
    cidrs := [];
    for i := 0 to |egress|
      invariant cidrs == EndpointCidrs(egress[..i])
    {
      assert egress[..i + 1][..i] == egress[..i];
      if IsEndpointRule(egress[i]) {
        cidrs := cidrs + [egress[i].to[0].ipBlock.value.cidr];
      }
    }
    assert egress[..|egress|] == egress;
    cidrs := Sort(cidrs);
  }

  method ReplaceEndpointCidrRules(egress: seq<Rule>, cidrs: seq<string>) returns (kept: seq<Rule>)
    ensures kept == Replaced(egress, cidrs)
  {
    kept := [];
    for i := 0 to |egress|
      invariant kept == OtherRules(egress[..i])
    {
      assert egress[..i + 1][..i] == egress[..i];
      if !IsEndpointRule(egress[i]) {
        kept := kept + [egress[i]];
      }
    }
    assert egress[..|egress|] == egress;
    for i := 0 to |cidrs|
      invariant kept == OtherRules(egress) + EndpointRules(cidrs[..i])
    {
      assert EndpointRules(cidrs[..i + 1]) == EndpointRules(cidrs[..i]) + [EndpointRule(cidrs[i])];
      kept := kept + [EndpointRule(cidrs[i])];
    }
    assert cidrs[..|cidrs|] == cidrs;
  }

  method SameCidrs(a: seq<string>, b: seq<string>) returns (same: bool)
    ensures same <==> a == b
  {
    if |a| != |b| {
      return false;
    }
    for i := 0 to |a|
      invariant a[..i] == b[..i]
    {
      if a[i] != b[i] {
        return false;
      }
    }
    return true;
  }

  lemma {:induction false} OtherRulesOnly(egress: seq<Rule>)
    ensures EndpointCidrs(OtherRules(egress)) == []
    ensures OtherRules(OtherRules(egress)) == OtherRules(egress)
  {
    if egress != [] {
      var front := egress[..|egress| - 1];
      OtherRulesOnly(front);
      var rest := OtherRules(front);
      assert (rest + [egress[|egress| - 1]])[..|rest|] == rest;
    }
  }

  lemma {:induction false} AppendedRules(egress: seq<Rule>, cidrs: seq<string>)
    ensures EndpointCidrs(egress + EndpointRules(cidrs)) == EndpointCidrs(egress) + cidrs
    ensures OtherRules(egress + EndpointRules(cidrs)) == OtherRules(egress)
  {
    if cidrs == [] {
      assert egress + EndpointRules(cidrs) == egress;
    } else {
      var front, last := cidrs[..|cidrs| - 1], cidrs[|cidrs| - 1];
      var all := egress + EndpointRules(cidrs);
      assert all[..|all| - 1] == egress + EndpointRules(front);
      AppendedRules(egress, front);
      assert cidrs == front + [last];
    }
  }

  /** Reading back what was written yields exactly the addresses, if they were sorted, and the other rules keep their
      content and order. */
  lemma ReadBack(egress: seq<Rule>, cidrs: seq<string>)
    ensures EndpointCidrs(Replaced(egress, cidrs)) == cidrs
    ensures Sorted(cidrs) ==> Sort(EndpointCidrs(Replaced(egress, cidrs))) == cidrs
    ensures OtherRules(Replaced(egress, cidrs)) == OtherRules(egress)
  {
    OtherRulesOnly(egress);
    AppendedRules(OtherRules(egress), cidrs);
    SortIgnoresOrder(cidrs, cidrs);
  }

  /** A rule belongs to the endpoint if it names one address block and nothing else. */
  ghost predicate NamesOneBlock(rule: Rule) {
    rule.ports == [] && exists peer :: rule.to == [peer] && peer.ipBlock.Some?
  }

  /** Exactly the other rules survive a replacement. */
  lemma {:induction false} OthersSurvive(egress: seq<Rule>, rule: Rule)
    ensures rule in OtherRules(egress) <==> rule in egress && !NamesOneBlock(rule)
  {
    assert IsEndpointRule(rule) <==> NamesOneBlock(rule) by {
      if IsEndpointRule(rule) { assert rule.to == [rule.to[0]]; }
    }
    if egress != [] {
      var front, last := egress[..|egress| - 1], egress[|egress| - 1];
      OthersSurvive(front, rule);
      assert egress == front + [last];
    }
  }

  /** Replacing twice is replacing once, whatever came first. */
  lemma ReplacedOnce(egress: seq<Rule>, before: seq<string>, cidrs: seq<string>)
    ensures Replaced(Replaced(egress, before), cidrs) == Replaced(egress, cidrs)
  {
    ReadBack(egress, before);
  }

  /** With unsorted addresses every update would write again, forever: being sorted is exactly what makes it converge. */
  lemma ConvergesExactly(egress: seq<Rule>, cidrs: seq<string>)
    ensures Sort(EndpointCidrs(Replaced(egress, cidrs))) == cidrs <==> Sorted(cidrs)
  {
    ReadBack(egress, cidrs);
    SortIsSorted(cidrs);
  }

  /** What becomes of the update of the policy. */
  datatype UpdateFate = Stored | Rejected | AnswerLost

  class EndpointPolicy {
    const namespace: string
    var egress: seq<Rule>

    constructor (namespace: string, egress: seq<Rule>)
      ensures this.namespace == namespace && this.egress == egress
    {
      this.namespace, this.egress := namespace, egress;
    }

    /** Brings the stored exception up to date. `resolved` is None if the name does not resolve. */
    method EnsureUpToDate(resolved: Option<seq<string>>, readable: bool, fate: UpdateFate) returns (patched: bool)
      requires resolved.Some? ==> Sorted(resolved.value)
      modifies `egress
      ensures OtherRules(egress) == OtherRules(old(egress))
      ensures egress != old(egress) ==> resolved.Some? && egress == Replaced(old(egress), resolved.value)
      ensures patched ==> resolved.Some? && Sort(EndpointCidrs(egress)) == resolved.value != Sort(EndpointCidrs(old(egress)))
      ensures namespace != "" && resolved.Some? && readable && fate == Stored ==> Sort(EndpointCidrs(egress)) == resolved.value
      ensures resolved.Some? && Sort(EndpointCidrs(old(egress))) == resolved.value ==> !patched && egress == old(egress)
      ensures namespace == "" || resolved == None || !readable || fate == Rejected ==> !patched && egress == old(egress)
    {
      if namespace == "" {
        return false;
      }
      if resolved == None {
        return false;
      }
      if !readable {
        return false;
      }
      var current := EndpointCidrsFromEgress(egress);
      var same := SameCidrs(current, resolved.value);
      if same {
        return false;
      }
      ReadBack(egress, resolved.value);
      var updated := ReplaceEndpointCidrRules(egress, resolved.value);
      match fate {
        case Rejected => return false;
        case AnswerLost =>
          egress := updated;
          return false;
        case Stored =>
          egress := updated;
          return true;
      }
    }
  }

  // Resolution.

  /** An address, after unwrapping an IPv4 address in IPv6 form. */
  datatype IP = V4(text: string) | V6(text: string)

  function ToCidr(ip: IP): string {
    match ip
    case V4(text) => text + "/32"
    case V6(text) => text + "/128"
  }

  function ToCidrs(ips: seq<IP>): (cidrs: seq<string>)
    ensures |cidrs| == |ips|
  {
    if ips == [] then [] else ToCidrs(ips[..|ips| - 1]) + [ToCidr(ips[|ips| - 1])]
  }

  lemma {:induction false} CidrOfEach(ips: seq<IP>, i: nat)
    requires i < |ips|
    ensures ToCidr(ips[i]) in ToCidrs(ips)
  {
    if i < |ips| - 1 { CidrOfEach(ips[..|ips| - 1], i); }
  }

  method IpsToSortedCidrs(ips: seq<IP>) returns (cidrs: seq<string>)
    ensures cidrs == Sort(ToCidrs(ips)) && Sorted(cidrs) && |cidrs| == |ips|
    ensures forall i :: 0 <= i < |ips| ==> (if ips[i].V4? then ips[i].text + "/32" else ips[i].text + "/128") in cidrs
  {
    cidrs := [];
    for i := 0 to |ips|
      invariant cidrs == ToCidrs(ips[..i])
    {
      assert ips[..i + 1][..i] == ips[..i];
      cidrs := cidrs + [ToCidr(ips[i])];
    }
    assert ips[..|ips|] == ips;
    SortIsSorted(cidrs);
    ghost var unsorted := cidrs;
    cidrs := Sort(cidrs);
    SameLength(cidrs, unsorted);
    forall i | 0 <= i < |ips| ensures ToCidr(ips[i]) in cidrs {
      CidrOfEach(ips, i);
      assert ToCidr(ips[i]) in multiset(unsorted);
    }
  }

  lemma {:induction false} ToCidrsAt(ips: seq<IP>, i: nat)
    requires i < |ips|
    ensures multiset(ToCidrs(ips)) == multiset(ToCidrs(ips[..i] + ips[i + 1..])) + multiset{ToCidr(ips[i])}
  {
    hide ToCidr;
    var rest, front := ips[..i] + ips[i + 1..], ips[..|ips| - 1];
    if i == |ips| - 1 {
      assert rest == front;
    } else {
      ToCidrsAt(front, i);
      LastStays(ips, i);
    }
  }

  lemma LastStays<T>(s: seq<T>, i: nat)
    requires i < |s| - 1
    ensures var rest, front := s[..i] + s[i + 1..], s[..|s| - 1];
            rest[..|rest| - 1] == front[..i] + front[i + 1..] && rest[|rest| - 1] == s[|s| - 1] && front[i] == s[i]
  {
  }

  /** The result does not depend on the order in which the addresses come. */
  lemma {:induction false} CidrsIgnoreOrder(a: seq<IP>, b: seq<IP>)
    requires multiset(a) == multiset(b)
    ensures multiset(ToCidrs(a)) == multiset(ToCidrs(b)) && Sort(ToCidrs(a)) == Sort(ToCidrs(b))
    decreases |a|
  {
    hide ToCidr, Sort;
    SameLength(a, b);
    if a != [] {
      var front, last := a[..|a| - 1], a[|a| - 1];
      assert a == front + [last] && last in multiset(b);
      var i :| 0 <= i < |b| && b[i] == last;
      var rest := b[..i] + b[i + 1..];
      RemoveAt(b, i);
      Cancel(multiset(front), multiset(rest), last);
      CidrsIgnoreOrder(front, rest);
      ToCidrsAt(b, i);
    }
    SortIgnoresOrder(ToCidrs(a), ToCidrs(b));
  }

  // The cache of the last resolution.

  datatype Cache = Cache(url: string, cidrs: seq<string>)

  /** One call: the URL, and what it resolves to, or None if that fails. */
  datatype Lookup = Lookup(url: string, resolved: Option<seq<string>>)

  function ApplyFallback(lookup: Lookup, cache: Cache): (seq<string>, Cache) {
    match lookup.resolved
    case Some(cidrs) => (cidrs, Cache(lookup.url, cidrs))
    case None => (if cache.url == lookup.url then cache.cidrs else [], cache)
  }

  class CachedCidrResolver {
    var lastURL: string
    var lastCidrs: seq<string>

    ghost function Memory(): Cache
      reads this
    {
      Cache(lastURL, lastCidrs)
    }

    constructor ()
      ensures Memory() == Cache("", [])
    {
      lastURL, lastCidrs := "", [];
    }

    method Resolve(lookup: Lookup) returns (cidrs: seq<string>, failed: bool)
      modifies this
      ensures (cidrs, Memory()) == ApplyFallback(lookup, old(Memory()))
      ensures failed <==> lookup.resolved == None
    {
      match lookup.resolved {
        case Some(resolved) =>
          lastURL, lastCidrs := lookup.url, resolved;
          return resolved, false;
        case None =>
          if lastURL == lookup.url {
            return lastCidrs, true;
          }
          return [], true;
      }
    }
  }

  /** The cache after a history of calls, oldest first. */
  function CacheAfter(history: seq<Lookup>): Cache {
    if history == [] then Cache("", [])
    else ApplyFallback(history[|history| - 1], CacheAfter(history[..|history| - 1])).1
  }

  /** Call `i` was the last one of the history that succeeded. */
  ghost predicate LastSuccess(history: seq<Lookup>, i: nat) {
    && i < |history| && history[i].resolved.Some?
    && (forall j :: i < j < |history| ==> history[j].resolved == None)
  }

  /** The cache equals the last success, if there was one. */
  lemma {:induction false} CacheIsLastSuccess(history: seq<Lookup>, i: nat)
    requires LastSuccess(history, i)
    ensures CacheAfter(history) == Cache(history[i].url, history[i].resolved.value)
  {
    if i < |history| - 1 {
      var front := history[..|history| - 1];
      assert LastSuccess(front, i);
      CacheIsLastSuccess(front, i);
    }
  }

  lemma {:induction false} CacheWithoutSuccess(history: seq<Lookup>)
    requires forall j :: 0 <= j < |history| ==> history[j].resolved == None
    ensures CacheAfter(history) == Cache("", [])
  {
    if history != [] { CacheWithoutSuccess(history[..|history| - 1]); }
  }

  /** A call that fails yields the addresses of the last success if that was for this very URL, and no others. */
  lemma FallbackIsOwn(history: seq<Lookup>, url: string)
    ensures var answer := ApplyFallback(Lookup(url, None), CacheAfter(history)).0;
            && (answer != [] ==> exists i: nat :: LastSuccess(history, i) && history[i] == Lookup(url, Some(answer)))
            && (forall i: nat :: LastSuccess(history, i) && history[i].url == url ==> history[i].resolved == Some(answer))
  {
    forall i: nat | LastSuccess(history, i) && history[i].url == url
      ensures history[i].resolved == Some(ApplyFallback(Lookup(url, None), CacheAfter(history)).0)
    {
      CacheIsLastSuccess(history, i);
    }
    if i :| 0 <= i < |history| && history[i].resolved.Some? {
      var last := FindLast(history, i);
      CacheIsLastSuccess(history, last);
    } else {
      CacheWithoutSuccess(history);
    }
  }

  lemma {:induction false} FindLast(history: seq<Lookup>, i: nat) returns (last: nat)
    requires i < |history| && history[i].resolved.Some?
    ensures LastSuccess(history, last)
    decreases |history| - i
  {
    if j :| i < j < |history| && history[j].resolved.Some? {
      last := FindLast(history, j);
    } else {
      last := i;
    }
  }
}

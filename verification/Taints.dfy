/** Node taints. */
module Taints {
  import opened Common

  datatype Taint = Taint(key: string, value: string, effect: string, timeAdded: Option<int>)

  const NO_SCHEDULE := Taint("remediation.medik8s.io/self-node-remediation", "", "NoSchedule", None)
  const OUT_OF_SERVICE := Taint("node.kubernetes.io/out-of-service", "nodeshutdown", "NoExecute", None)

  /** Same key and same effect; value and time do not count. */
  predicate Matches(a: Taint, b: Taint) {
    a.key == b.key && a.effect == b.effect
  }

  predicate TaintExists(taints: seq<Taint>, taint: Taint) {
    exists i :: 0 <= i < |taints| && Matches(taints[i], taint)
  }

  /** A taint with this key and effect, whatever else it says. */
  ghost predicate Bears(taints: seq<Taint>, key: string, effect: string) {
    exists taint :: taint in taints && taint.key == key && taint.effect == effect
  }

  lemma ExistsIsBears(taints: seq<Taint>, taint: Taint)
    ensures TaintExists(taints, taint) <==> Bears(taints, taint.key, taint.effect)
  {
    if TaintExists(taints, taint) {
      var i :| 0 <= i < |taints| && Matches(taints[i], taint);
      assert taints[i] in taints;
    }
  }

  /** The taints that do not match, in their order. */
  function Without(taints: seq<Taint>, taint: Taint): seq<Taint> {
    if taints == [] then []
    else
      var front := Without(taints[..|taints| - 1], taint);
      if Matches(taints[|taints| - 1], taint) then front else front + [taints[|taints| - 1]]
  }

  method HasTaint(taints: seq<Taint>, taint: Taint) returns (found: bool)
    ensures found <==> TaintExists(taints, taint)
  {
    for i := 0 to |taints|
      invariant forall j :: 0 <= j < i ==> !Matches(taints[j], taint)
    {
      if Matches(taints[i], taint) {
        return true;
      }
    }
    return false;
  }

  method DeleteTaint(taints: seq<Taint>, taint: Taint) returns (rest: seq<Taint>, deleted: bool)
    ensures rest == Without(taints, taint)
    ensures deleted <==> TaintExists(taints, taint)
  {
    rest, deleted := [], false;
    for i := 0 to |taints|
      invariant rest == Without(taints[..i], taint)
      invariant deleted <==> exists j :: 0 <= j < i && Matches(taints[j], taint)
    {
      assert taints[..i + 1][..i] == taints[..i];
      if Matches(taint, taints[i]) {
        deleted := true;
      } else {
        rest := rest + [taints[i]];
      }
    }
    assert taints[..|taints|] == taints;
  }

  /** Deleting removes every matching taint and no other. */
  lemma {:induction false} WithoutIsExact(taints: seq<Taint>, taint: Taint)
    ensures !TaintExists(Without(taints, taint), taint)
    ensures forall t :: t in Without(taints, taint) <==> t in taints && !Matches(t, taint)
  {
    if taints != [] {
      var front, last := taints[..|taints| - 1], taints[|taints| - 1];
      WithoutIsExact(front, taint);
      assert taints == front + [last];
    }
  }

  /** So one of the two remediation taints never comes or goes with the other. */
  lemma OthersStay(taints: seq<Taint>, taint: Taint, other: Taint)
    requires !Matches(taint, other)
    ensures TaintExists(Without(taints, taint), other) <==> TaintExists(taints, other)
  {
    var rest := Without(taints, taint);
    WithoutIsExact(taints, taint);
    if TaintExists(taints, other) {
      var i :| 0 <= i < |taints| && Matches(taints[i], other);
      assert taints[i] in rest;
      var j :| 0 <= j < |rest| && rest[j] == taints[i];
    }
    if TaintExists(rest, other) {
      var i :| 0 <= i < |rest| && Matches(rest[i], other);
      assert rest[i] in taints;
      var j :| 0 <= j < |taints| && taints[j] == rest[i];
    }
  }

  lemma AppendedExists(taints: seq<Taint>, added: Taint, other: Taint)
    ensures TaintExists(taints + [added], other) <==> TaintExists(taints, other) || Matches(added, other)
  {
    var more := taints + [added];
    if TaintExists(taints, other) {
      var i :| 0 <= i < |taints| && Matches(taints[i], other);
      assert Matches(more[i], other);
    }
    if Matches(added, other) {
      assert Matches(more[|taints|], other);
    }
  }
}

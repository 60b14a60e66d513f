/** The batch scheme that both sides of the fencing protocol rely on: the agent asks its peers
    batch by batch, and the reboot-duration calculator counts the batches an agent will need. */
module Batches {

  const MIN_NODES_IN_BATCH := 3
  const MAX_BATCHES_AFTER_FIRST := 10

  /** The size of every full batch after the first one. A negative dividend can only give a
      quotient below the minimum, whatever the rounding. */
  function LaterBatch(total: int): (size: int)
    ensures size >= MIN_NODES_IN_BATCH
  {
    var tenth := (total - MIN_NODES_IN_BATCH) / MAX_BATCHES_AFTER_FIRST;
    if tenth < MIN_NODES_IN_BATCH then MIN_NODES_IN_BATCH else tenth
  }

  /** The number of nodes to ask next, of `total`, when `remaining` have not been asked. */
  function NextBatchSize(total: int, remaining: int): (size: int)
    ensures size <= remaining
    ensures remaining > 0 ==> size >= 1
    ensures remaining >= MIN_NODES_IN_BATCH ==> size >= MIN_NODES_IN_BATCH
  {
    var size := if total == remaining then MIN_NODES_IN_BATCH else LaterBatch(total);
    if remaining < size then remaining else size
  }

  function CeilDiv(a: nat, b: int): (q: nat)
    requires b > 0
    ensures (q - 1) * b < a <= q * b
  {
    CeilDivBounds(a, b);
    (a + b - 1) / b
  }

  lemma CeilDivBounds(a: nat, b: int)
    requires b > 0
    ensures var q := (a + b - 1) / b; q >= 0 && (q - 1) * b < a <= q * b
  {
    var q, r := (a + b - 1) / b, (a + b - 1) % b;
    assert a + b - 1 == q * b + r && 0 <= r < b;
    assert (q - 1) * b == q * b - b;
    if q < 0 { assert q * b <= -b by { MulLeq(q, -1, b); } }
  }

  lemma MulLeq(a: int, b: int, c: int)
    requires a <= b && c >= 0
    ensures a * c <= b * c
  {
    assert (b - a) * c >= 0;
    assert (b - a) * c == b * c - a * c;
  }

  /** A quotient is pinned down by its two bounds. */
  lemma CeilDivUnique(a: nat, b: int, q: int)
    requires b > 0 && (q - 1) * b < a <= q * b
    ensures CeilDiv(a, b) == q
  {
    var p := CeilDiv(a, b);
    if p < q { MulLeq(p, q - 1, b); }
    if q < p { MulLeq(q, p - 1, b); }
  }

  /** The number of batches, in closed form. */
  function NrOfBatches(total: int): (count: nat)
  {
    if total <= 0 then 0
    else if total <= MIN_NODES_IN_BATCH then 1
    else 1 + CeilDiv(total - MIN_NODES_IN_BATCH, LaterBatch(total))
  }

  /** How many nodes the first `rounds` batches of `total` nodes cover. */
  function Asked(total: nat, rounds: nat): (asked: nat)
    ensures asked <= total
    ensures rounds == 0 ==> asked == 0
  {
    if rounds == 0 then 0 else
      MulLeq(0, rounds - 1, LaterBatch(total));
      var wanted := MIN_NODES_IN_BATCH + (rounds - 1) * LaterBatch(total);
      if wanted < total then wanted else total
  }

  /** One more round extends the covered prefix by exactly the next batch size. */
  lemma NextRound(total: nat, rounds: nat)
    requires Asked(total, rounds) < total
    ensures Asked(total, rounds + 1) == Asked(total, rounds) + NextBatchSize(total, total - Asked(total, rounds))
    ensures Asked(total, rounds) < Asked(total, rounds + 1)
  {
    var s := LaterBatch(total);
    if rounds > 0 {
      MulLeq(0, rounds - 1, s);
      assert rounds * s == (rounds - 1) * s + s;
    }
  }

  /** A prefix of fewer than NrOfBatches rounds leaves somebody unasked, and no shorter
      prefix asks everybody. */
  lemma {:induction false} RoundsNeeded(total: nat, rounds: nat)
    ensures Asked(total, rounds) == total <==> NrOfBatches(total) <= rounds
  {
    if total > MIN_NODES_IN_BATCH && rounds > 0 {
      var s, q := LaterBatch(total), CeilDiv(total - MIN_NODES_IN_BATCH, LaterBatch(total));
      MulLeq(0, rounds - 1, s);
      if q <= rounds - 1 {
        MulLeq(q, rounds - 1, s);
      } else {
        MulLeq(rounds - 1, q - 1, s);
      }
    }
  }

  /** The counting loop computes the closed form. */
  method GetNrOfBatches(total: int) returns (count: nat)
    ensures count == NrOfBatches(total)
  {
    var remaining := total;
    count := 0;
    while remaining > 0
      invariant total <= 0 ==> count == 0 && remaining == total
      invariant total > 0 ==> remaining == total - Asked(total, count)
      invariant total > 0 ==> count == 0 || Asked(total, count - 1) < total
      decreases remaining
    {
      NextRound(total, count);
      count := count + 1;
      var batchSize := NextBatchSize(total, remaining);
      remaining := remaining - batchSize;
    }
    if total > 0 {
      RoundsNeeded(total, count);
      RoundsNeeded(total, count - 1);
    }
  }

  /** Above the first 33 nodes the batch count is 11 plus what the remainder of the division
      by ten adds. */
  lemma LargeClusterForm(total: nat)
    requires LaterBatch(total) * MAX_BATCHES_AFTER_FIRST <= total - MIN_NODES_IN_BATCH
    ensures var s := LaterBatch(total);
            var r := (total - MIN_NODES_IN_BATCH) - s * MAX_BATCHES_AFTER_FIRST;
            0 <= r < MAX_BATCHES_AFTER_FIRST && NrOfBatches(total) == 11 + CeilDiv(r, s)
  {
    var s := LaterBatch(total);
    var a := total - MIN_NODES_IN_BATCH;
    var r := a - s * MAX_BATCHES_AFTER_FIRST;
    var q := CeilDiv(r, s);
    assert (q + 10) * s == q * s + 10 * s;
    assert (q + 9) * s == (q - 1) * s + 10 * s;
    CeilDivUnique(a, s, q + 10);
  }

  /** No cluster needs more than 14 batches, and none of 93 nodes or more needs more than 12. */
  lemma TightBatchBound(total: int)
    ensures NrOfBatches(total) <= 14
    ensures total >= 93 ==> NrOfBatches(total) <= 12
  {
    if total >= 33 {
      LargeClusterForm(total);
      var s := LaterBatch(total);
      var r := (total - MIN_NODES_IN_BATCH) - s * MAX_BATCHES_AFTER_FIRST;
      var q := CeilDiv(r, s);
      if q >= 4 { MulLeq(3, q - 1, s); }
      if total >= 93 && q >= 2 { MulLeq(1, q - 1, s); }
    }
  }

  /** Both bounds are attained. */
  lemma BatchBoundAttained()
    ensures NrOfBatches(42) == 14
    ensures NrOfBatches(94) == 12
  {
    CeilDivUnique(39, 3, 13);
    CeilDivUnique(91, 9, 11);
  }

  /** A worker asks every worker but itself, so its own batch count is taken at one node less
      than the calculator's. The count is not monotone: one node less can cost up to three
      batches more, and never saves more than one. */
  lemma NeighbourBatches(total: int)
    ensures NrOfBatches(total - 1) <= NrOfBatches(total) + 3
    ensures NrOfBatches(total) <= NrOfBatches(total - 1) + 1
  {
    if total >= 34 {
      TightBatchBound(total - 1);
      LargeClusterForm(total);
      LargeClusterForm(total - 1);
      var s, s' := LaterBatch(total), LaterBatch(total - 1);
      var r := (total - MIN_NODES_IN_BATCH) - s * MAX_BATCHES_AFTER_FIRST;
      var r' := (total - 1 - MIN_NODES_IN_BATCH) - s' * MAX_BATCHES_AFTER_FIRST;
      if s == s' {
        CeilDivStep(r', s);
      } else {
        CeilDivUnique(0, s, 0);
      }
    } else if total > 4 {
      assert LaterBatch(total) == 3 == LaterBatch(total - 1);
      CeilDivStep(total - 4, 3);
    } else if total == 4 {
      CeilDivUnique(1, 3, 1);
    }
  }

  lemma CeilDivStep(a: nat, b: int)
    requires b >= 3
    ensures CeilDiv(a, b) <= CeilDiv(a + 1, b) <= CeilDiv(a, b) + 1
  {
    var p, q := CeilDiv(a, b), CeilDiv(a + 1, b);
    if q < p { MulLeq(q, p - 1, b); }
    if p + 1 < q { MulLeq(p + 1, q - 1, b); }
  }

  /** The three extra batches occur: 43 workers are counted as 11 batches, while the agent on
      any of them asks its 42 peers in 14. */
  lemma NeighbourBatchesAttained()
    ensures NrOfBatches(43) == 11 && NrOfBatches(42) == 14
  {
    CeilDivUnique(40, 4, 10);
    CeilDivUnique(39, 3, 13);
  }
}

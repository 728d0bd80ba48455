/** The bar that shows how many controls of a group failed and passed
    (control/controldisplay/group_counter_graph.go, group.go).  Segment sizes are exact rationals. */
module CounterGraph {
  import opened ControlExecution

  const SEGMENTS := 10

  /** A bar, or the panic of repeating a character a negative number of times. */
  datatype Graph = Bar(fail: nat, pass: nat, spaces: nat) | NegativeRepeat

  /** n divided by the size of a segment, rounded up. */
  function Segments(n: nat, maxTotal: nat): (k: nat)
    requires maxTotal > 0
  {
    (n * SEGMENTS + maxTotal - 1) / maxTotal
  }

  function BuildGraphString(fail: int, pass: int, spaces: int): Graph {
    if fail < 0 || pass < 0 || spaces < 0 then NegativeRepeat else Bar(fail, pass, spaces)
  }

  /** Segments is the least number of segments that make up n. */
  lemma SegmentsCover(n: nat, maxTotal: nat, k: nat)
    requires maxTotal > 0
    ensures Segments(n, maxTotal) <= k <==> n * SEGMENTS <= k * maxTotal
  {
    var s := Segments(n, maxTotal);
    var x := n * SEGMENTS + maxTotal - 1;
    DivMod(x, maxTotal);
    assert s * maxTotal <= x < s * maxTotal + maxTotal;
    if s <= k {
      Times(s, k, maxTotal);
    } else {
      Times(k + 1, s, maxTotal);
      assert (k + 1) * maxTotal == k * maxTotal + maxTotal;
    }
  }

  lemma DivMod(x: nat, m: nat)
    requires m > 0
    ensures (x / m) * m <= x < (x / m) * m + m
  {
    assert x == m * (x / m) + x % m;
  }

  lemma Times(a: nat, b: nat, m: nat)
    requires a <= b
    ensures a * m <= b * m
  {
  }

  method Render(failedControls: nat, totalControls: nat, maxTotalControls: nat) returns (graph: Graph)
    requires failedControls <= totalControls
    ensures maxTotalControls == 0 ==> graph == Bar(0, 0, SEGMENTS)
    ensures graph.Bar? <==> maxTotalControls == 0 || totalControls <= maxTotalControls
    ensures graph.Bar? ==> graph.fail + graph.pass + graph.spaces == SEGMENTS
    ensures graph.Bar? && maxTotalControls > 0 ==>
              && (forall k: nat :: graph.fail <= k <==> failedControls * SEGMENTS <= k * maxTotalControls)
              && (graph.fail == 0 <==> failedControls == 0)
              && (graph.pass == 0 <==> failedControls == totalControls || graph.fail == SEGMENTS)
              && (forall k: nat :: k > graph.fail ==>
                    (graph.fail + graph.pass <= k <==> totalControls * SEGMENTS <= k * maxTotalControls))
  {
    if maxTotalControls == 0 {
      graph := BuildGraphString(0, 0, SEGMENTS);
      return;
    }
    hide Segments;
    var failSegments;
    if failedControls == 0 {
      failSegments := 0;
    } else {
      failSegments := Segments(failedControls, maxTotalControls);
    }
    var totalSegments := Segments(totalControls, maxTotalControls);
    SegmentFacts(failedControls, totalControls, maxTotalControls);
    var passSegments: int := totalSegments - failSegments;
    if passSegments == 0 && failedControls < totalControls && totalSegments < SEGMENTS {
      passSegments := passSegments + 1;
      totalSegments := totalSegments + 1;
    }
    var spaces := SEGMENTS - totalSegments;
    graph := BuildGraphString(failSegments, passSegments, spaces);
  }

  lemma SegmentFacts(failed: nat, total: nat, maxTotal: nat)
    requires maxTotal > 0 && failed <= total
    ensures Segments(0, maxTotal) == 0 && (Segments(failed, maxTotal) == 0 <==> failed == 0)
    ensures Segments(failed, maxTotal) <= Segments(total, maxTotal)
    ensures Segments(total, maxTotal) <= SEGMENTS <==> total <= maxTotal
    ensures failed == total ==> Segments(failed, maxTotal) == Segments(total, maxTotal)
    ensures forall k: nat :: Segments(failed, maxTotal) <= k <==> failed * SEGMENTS <= k * maxTotal
    ensures forall k: nat :: Segments(total, maxTotal) <= k <==> total * SEGMENTS <= k * maxTotal
  {
    hide Segments;
    forall k: nat
      ensures Segments(failed, maxTotal) <= k <==> failed * SEGMENTS <= k * maxTotal
      ensures Segments(total, maxTotal) <= k <==> total * SEGMENTS <= k * maxTotal
    {
      SegmentsCover(failed, maxTotal, k);
      SegmentsCover(total, maxTotal, k);
    }
    SegmentsCover(0, maxTotal, 0);
    SegmentsCover(failed, maxTotal, 0);
    SegmentsCover(failed, maxTotal, Segments(total, maxTotal));
    SegmentsCover(total, maxTotal, Segments(total, maxTotal));
    SegmentsCover(total, maxTotal, SEGMENTS);
  }

  // ---------- The bars of a finished execution ----------

  lemma CountsWithin(a: Summary, b: Summary)
    requires forall st :: Count(a, st) <= Count(b, st)
    ensures TotalCount(a) <= TotalCount(b)
  {
    assert Count(a, Alarm) <= Count(b, Alarm) && Count(a, Error) <= Count(b, Error) && Count(a, Info) <= Count(b, Info);
    assert Count(a, Ok) <= Count(b, Ok) && Count(a, Skip) <= Count(b, Skip);
  }

  /** The bar of a group is rendered with its failures and its total against the root's total, which are
      within each other whenever no report is climbing; so it is never a panic. */
  lemma GroupFitsRoot(t: Tree, actions: seq<Action>, g: nat)
    requires WellFormed(t) && Legal(t, Init(t), actions) && g < |t.parent| && Settled(After(t, Init(t), actions))
    ensures var s := After(t, Init(t), actions);
            Failures(s.counts[g]) <= TotalCount(s.counts[g]) <= TotalCount(s.counts[0])
  {
    hide Legal, After, Count, Settled;
    var s := After(t, Init(t), actions);
    forall st ensures Count(s.counts[g], st) <= Count(s.counts[0], st) {
      GroupWithinRoot(t, actions, g, st);
    }
    CountsWithin(s.counts[g], s.counts[0]);
  }
}

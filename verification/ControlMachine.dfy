/** The machine that executes a built tree of result groups: its groups are numbered in the order they are
    created, and its runs listed in the order they are dispatched
    (control/controlexecute/result_group.go, control/controlexecute/execution_tree.go). */
module ControlMachine {
  import opened ControlExecution
  import opened ControlTree

  function Size(g: GroupTree): (n: nat)
    ensures n > 0
    decreases g, 1
  {
    1 + SizeUpTo(g, |g.groups|)
  }

  /** The groups below the first n subgroups, with these. */
  function SizeUpTo(g: GroupTree, n: nat): nat
    requires n <= |g.groups|
    decreases g, 0, n
  {
    if n == 0 then 0 else SizeUpTo(g, n - 1) + Size(g.groups[n - 1])
  }

  /** The parent of each group of g, when g has number base and its own parent is p. */
  function Parents(g: GroupTree, p: nat, base: nat): (r: seq<nat>)
    ensures |r| == Size(g) && r[0] == p && forall i :: 0 < i < |r| ==> base <= r[i] < base + i
    decreases g, 1
  {
    ParentsUpTo(g, p, base, |g.groups|)
  }

  function ParentsUpTo(g: GroupTree, p: nat, base: nat, n: nat): (r: seq<nat>)
    requires n <= |g.groups|
    ensures |r| == 1 + SizeUpTo(g, n) && r[0] == p && forall i :: 0 < i < |r| ==> base <= r[i] < base + i
    decreases g, 0, n
  {
    if n == 0 then [p]
    else ParentsUpTo(g, p, base, n - 1) + Parents(g.groups[n - 1], base, base + 1 + SizeUpTo(g, n - 1))
  }

  /** The group of each run of g, in the order of dispatch. */
  function RunGroups(g: GroupTree, base: nat): (r: seq<nat>)
    ensures |r| == |Order(g)| && forall i :: 0 <= i < |r| ==> base <= r[i] < base + Size(g)
    decreases g, 1
  {
    RunGroupsUpTo(g, base, |g.groups|)
  }

  function RunGroupsUpTo(g: GroupTree, base: nat, n: nat): (r: seq<nat>)
    requires n <= |g.groups|
    ensures |r| == |OrderUpTo(g, n)| && forall i :: 0 <= i < |r| ==> base <= r[i] < base + 1 + SizeUpTo(g, n)
    decreases g, 0, n
  {
    if n == 0 then seq(|g.controls|, _ => base)
    else RunGroupsUpTo(g, base, n - 1) + RunGroups(g.groups[n - 1], base + 1 + SizeUpTo(g, n - 1))
  }

  /** Group number i of g, g itself having number 0. */
  function Subgroup(g: GroupTree, i: nat): GroupTree
    requires i < Size(g)
    decreases g, 1
  {
    if i == 0 then g else SubgroupUpTo(g, |g.groups|, i)
  }

  function SubgroupUpTo(g: GroupTree, n: nat, i: nat): GroupTree
    requires n <= |g.groups| && 0 < i < 1 + SizeUpTo(g, n)
    decreases g, 0, n
  {
    if i < 1 + SizeUpTo(g, n - 1) then SubgroupUpTo(g, n - 1, i)
    else Subgroup(g.groups[n - 1], i - 1 - SizeUpTo(g, n - 1))
  }

  /** The groups of an earlier subgroup keep their number. */
  lemma {:induction false} SubgroupOf(g: GroupTree, n: nat, j: nat)
    requires n < |g.groups| && j < Size(g.groups[n])
    ensures 1 + SizeUpTo(g, n) + j < Size(g) && Subgroup(g, 1 + SizeUpTo(g, n) + j) == Subgroup(g.groups[n], j)
  {
    SizeGrows(g, n + 1, |g.groups|);
    SubgroupStays(g, n + 1, |g.groups|, 1 + SizeUpTo(g, n) + j);
  }

  lemma {:induction false} SizeGrows(g: GroupTree, m: nat, n: nat)
    requires m <= n <= |g.groups|
    ensures SizeUpTo(g, m) <= SizeUpTo(g, n)
    decreases n
  {
    if m < n {
      SizeGrows(g, m, n - 1);
    }
  }

  lemma {:induction false} SubgroupStays(g: GroupTree, m: nat, n: nat, i: nat)
    requires m <= n <= |g.groups| && 0 < i < 1 + SizeUpTo(g, m) && i < 1 + SizeUpTo(g, n)
    ensures SubgroupUpTo(g, n, i) == SubgroupUpTo(g, m, i)
    decreases n
  {
    if m < n {
      SizeGrows(g, m, n - 1);
      SubgroupStays(g, m, n - 1, i);
    }
  }

  /** Group q of g holds group i of g. */
  ghost predicate Holds(g: GroupTree, q: int, i: int) {
    0 <= q < Size(g) && 0 <= i < Size(g) && Subgroup(g, i) in Subgroup(g, q).groups
  }

  lemma HoldsBelow(g: GroupTree, n: nat, q: int, j: nat)
    requires n < |g.groups| && j < Size(g.groups[n])
    requires if j == 0 then q == 0 else Holds(g.groups[n], q - 1 - SizeUpTo(g, n), j)
    ensures Holds(g, q, 1 + SizeUpTo(g, n) + j)
  {
    hide Subgroup, SizeUpTo;
    SubgroupOf(g, n, j);
    if j == 0 {
      FirstSubgroup(g);
      FirstSubgroup(g.groups[n]);
    } else {
      SubgroupOf(g, n, q - 1 - SizeUpTo(g, n));
    }
  }

  lemma FirstSubgroup(g: GroupTree)
    ensures Subgroup(g, 0) == g
  {
  }

  lemma {:induction false} ParentHoldsUpTo(g: GroupTree, p: nat, base: nat, n: nat, i: nat)
    requires n <= |g.groups| && 0 < i < 1 + SizeUpTo(g, n)
    ensures Holds(g, ParentsUpTo(g, p, base, n)[i] - base, i)
    decreases g, 0, n
  {
    hide Holds, Subgroup;
    var before := 1 + SizeUpTo(g, n - 1);
    if i < before {
      ParentHoldsUpTo(g, p, base, n - 1, i);
    } else {
      if i > before {
        ParentHolds(g.groups[n - 1], base, base + before, i - before);
      }
      HoldsBelow(g, n - 1, ParentsUpTo(g, p, base, n)[i] - base, i - before);
    }
  }

  /** A group's parent, by number, holds the group. */
  lemma {:induction false} ParentHolds(g: GroupTree, p: nat, base: nat, i: nat)
    requires 0 < i < Size(g)
    ensures Holds(g, Parents(g, p, base)[i] - base, i)
    decreases g, 1
  {
    ParentHoldsUpTo(g, p, base, |g.groups|, i);
  }

  lemma {:induction false} RunIsHeldUpTo(g: GroupTree, base: nat, n: nat, r: nat)
    requires n <= |g.groups| && r < |OrderUpTo(g, n)|
    ensures var q := RunGroupsUpTo(g, base, n)[r] - base;
            0 <= q < Size(g) && OrderUpTo(g, n)[r] in Subgroup(g, q).controls
    decreases g, 0, n
  {
    SizeGrows(g, n, |g.groups|);
    if n > 0 {
      var before := |OrderUpTo(g, n - 1)|;
      if r < before {
        RunIsHeldUpTo(g, base, n - 1, r);
      } else {
        var h, b := g.groups[n - 1], base + 1 + SizeUpTo(g, n - 1);
        RunIsHeld(h, b, r - before);
        SubgroupOf(g, n - 1, RunGroups(h, b)[r - before] - b);
      }
    }
  }

  /** A run's group, by number, holds its control. */
  lemma {:induction false} RunIsHeld(g: GroupTree, base: nat, r: nat)
    requires r < |Order(g)|
    ensures var q := RunGroups(g, base)[r] - base; 0 <= q < Size(g) && Order(g)[r] in Subgroup(g, q).controls
    decreases g, 1
  {
    RunIsHeldUpTo(g, base, |g.groups|, r);
  }

  /** The machine for a tree whose runs, in the order of dispatch, report so often and end with these summaries. */
  function MachineOf(g: GroupTree, calls: seq<nat>, summaries: seq<Summary>, maxParallel: nat): (t: Tree)
    requires |calls| == |summaries| == |Order(g)|
    ensures |t.runs| == |Order(g)| && |t.parent| == Size(g)
    ensures forall r :: 0 <= r < |t.runs| ==> t.runs[r] == Run(RunGroups(g, 0)[r], calls[r], summaries[r])
  {
    Tree(Parents(g, 0, 0),
         seq(|calls|, r requires 0 <= r < |calls| => Run(RunGroups(g, 0)[r], calls[r], summaries[r])), maxParallel)
  }

  /** It is a machine, with the tree's own structure: a group's parent holds the group, and a run's group
      holds its control. */
  lemma MachineMirrorsTree(g: GroupTree, calls: seq<nat>, summaries: seq<Summary>, maxParallel: nat)
    requires |calls| == |summaries| == |Order(g)| && maxParallel > 0 && forall r :: 0 <= r < |calls| ==> calls[r] > 0
    ensures var t := MachineOf(g, calls, summaries, maxParallel);
            && WellFormed(t)
            && t.maxParallel == maxParallel && |t.parent| == Size(g) && |t.runs| == |Order(g)|
            && (forall r :: 0 <= r < |t.runs| ==> t.runs[r].calls == calls[r] && t.runs[r].summary == summaries[r])
            && (forall i :: 0 < i < |t.parent| ==> Subgroup(g, i) in Subgroup(g, t.parent[i]).groups)
            && (forall r :: 0 <= r < |t.runs| ==> Order(g)[r] in Subgroup(g, t.runs[r].group).controls)
  {
    hide Parents, RunGroups, Subgroup, Order, Size;
    var t := MachineOf(g, calls, summaries, maxParallel);
    forall i | 0 < i < |t.parent| ensures Subgroup(g, i) in Subgroup(g, t.parent[i]).groups {
      ParentHolds(g, 0, 0, i);
    }
    forall r | 0 <= r < |t.runs| ensures Order(g)[r] in Subgroup(g, t.runs[r].group).controls {
      RunIsHeld(g, 0, r);
    }
  }

  // ---------- Executing a built tree ----------

  lemma {:induction false} OrderCount(root: ResultGroup)
    requires root.Valid()
    ensures |Order(root.tree)| == |root.AllRuns()|
    decreases root.repr, 1
  {
    OrderCountUpTo(root, |root.groups|);
    OrderParts(root.tree);
  }

  lemma {:induction false} OrderCountUpTo(root: ResultGroup, n: nat)
    requires root.Valid() && n <= |root.groups|
    ensures |OrderUpTo(root.tree, n)| == |root.controlRuns| + |Total(root.childRuns, n)|
    decreases root.repr, 0, n
  {
    OrderParts(root.tree);
    if n > 0 {
      OrderCountUpTo(root, n - 1);
      assert root.HasChild(n - 1);
      OrderCount(root.groups[n - 1]);
      OrderNext(root.tree, n - 1);
    }
  }

  /** Executing a built tree, with any interleaving: it returns once every run it holds has finished, and then
      with the failures of all of them, each as often as reported. */
  lemma BuiltTreeExecutes(root: ResultGroup, calls: seq<nat>, summaries: seq<Summary>, maxParallel: nat,
      actions: seq<Action>)
    requires root.Valid() && |calls| == |summaries| == |Order(root.tree)|
    requires maxParallel > 0 && forall r :: 0 <= r < |calls| ==> calls[r] > 0
    ensures var t := MachineOf(root.tree, calls, summaries, maxParallel);
            && WellFormed(t) && |t.runs| == |root.AllRuns()|
            && (Legal(t, Init(t), actions) ==>
                  var s := After(t, Init(t), actions);
                  && (|actions| == TotalSteps(t) <==> s.result.Returned?)
                  && (s.result.Returned? ==> s.result.failures == ReportedFailures(t, |t.runs|)))
  {
    hide MachineOf, Order, Legal, After, ReportedFailures;
    OrderCount(root);
    MachineMirrorsTree(root.tree, calls, summaries, maxParallel);
    var t := MachineOf(root.tree, calls, summaries, maxParallel);
    if Legal(t, Init(t), actions) {
      ExecuteReturns(t, actions);
      if After(t, Init(t), actions).result.Returned? {
        ExecuteResult(t, actions);
      }
    }
  }
}

/** Building the tree of result groups and walking it
    (control/controlexecute/result_group.go, control/controlexecute/execution_tree.go). */
module ControlTree {
  import opened ControlExecution
  import opened Options

  /** What a check runs over: controls, and the benchmarks and mods that contain them. */
  datatype Item =
    | Control(shortName: string)
    | Branch(name: string, benchmark: bool, children: seq<Item>)

  type Filter = Option<set<string>>

  predicate ShouldIncludeControl(filter: Filter, name: string) {
    filter.None? || name in filter.value
  }

  // ---------- What the tree should be ----------

  /** The included controls below the first k children of a branch, in order. */
  function Controls(filter: Filter, item: Item, k: nat): seq<Item>
    requires item.Branch? && k <= |item.children|
    decreases item, k
  {
    if k == 0 then []
    else Controls(filter, item, k - 1) + ChildControls(filter, item, k - 1)
  }

  function ChildControls(filter: Filter, item: Item, i: nat): seq<Item>
    requires item.Branch? && i < |item.children|
    decreases item, i
  {
    match item.children[i]
    case Control(n) => if ShouldIncludeControl(filter, n) then [item.children[i]] else []
    case Branch(_, benchmark, children) => if benchmark then Controls(filter, item.children[i], |children|) else []
  }

  function AllControls(filter: Filter, item: Item): seq<Item>
    requires item.Branch?
  {
    Controls(filter, item, |item.children|)
  }

  /** The control is a child of the item, or of a benchmark below it that is reached through benchmarks only. */
  ghost predicate Below(item: Item, c: Item)
    decreases item
  {
    item.Branch? && exists i: nat :: i < |item.children| && IsOrHas(item, i, c)
  }

  ghost predicate IsOrHas(item: Item, i: nat, c: Item)
    requires item.Branch? && i < |item.children|
    decreases item, 0
  {
    var child := item.children[i];
    if child.Control? then child == c else child.benchmark && Below(child, c)
  }

  /** That holds for one of the first k children. */
  ghost predicate AmongFirst(item: Item, k: nat, c: Item)
    requires item.Branch? && k <= |item.children|
  {
    exists i: nat :: i < k && IsOrHas(item, i, c)
  }

  lemma LastOrEarlier(item: Item, k: nat, c: Item)
    requires item.Branch? && 0 < k <= |item.children|
    ensures AmongFirst(item, k, c) <==> IsOrHas(item, k - 1, c) || AmongFirst(item, k - 1, c)
  {
    hide IsOrHas;
  }

  lemma AllOfThem(item: Item, c: Item)
    requires item.Branch?
    ensures Below(item, c) <==> AmongFirst(item, |item.children|, c)
  {
  }

  lemma {:induction false} IncludedUpTo(filter: Filter, item: Item, k: nat, c: Item)
    requires item.Branch? && k <= |item.children|
    ensures c in Controls(filter, item, k) <==>
            c.Control? && AmongFirst(item, k, c) && (filter.Some? ==> c.shortName in filter.value)
    decreases item, k
  {
    if k > 0 {
      IncludedUpTo(filter, item, k - 1, c);
      LastOrEarlier(item, k, c);
      var child := item.children[k - 1];
      if child.Branch? {
        IncludedUpTo(filter, child, |child.children|, c);
        AllOfThem(child, c);
      }
      hide AmongFirst, Below;
    }
  }

  /** A control is run exactly if it is below the item and, when there is a filter, its short name is in it. */
  lemma IncludedExactly(filter: Filter, item: Item, c: Item)
    requires item.Branch?
    ensures c in AllControls(filter, item) <==>
            c.Control? && Below(item, c) && (filter.Some? ==> c.shortName in filter.value)
  {
    IncludedUpTo(filter, item, |item.children|, c);
    AllOfThem(item, c);
  }

  /** A group of controls and subgroups. */
  datatype GroupTree = Group(name: string, controls: seq<Item>, groups: seq<GroupTree>)

  /** The group of a branch, from its first k children; a benchmark without included controls is left out. */
  function Build(filter: Filter, item: Item, k: nat): GroupTree
    requires item.Branch? && k <= |item.children|
    decreases item, k
  {
    if k == 0 then Group(item.name, [], [])
    else
      var g := Build(filter, item, k - 1);
      var c := item.children[k - 1];
      if c.Control? then
        (if ShouldIncludeControl(filter, c.shortName) then g.(controls := g.controls + [c]) else g)
      else if c.benchmark && AllControls(filter, c) != [] then
        g.(groups := g.groups + [Build(filter, c, |c.children|)])
      else g
  }

  // ---------- The shape of the tree ----------

  predicate IsIncluded(filter: Filter, c: Item) {
    c.Control? && (filter.Some? ==> c.shortName in filter.value)
  }

  /** A benchmark with an included control somewhere below it. */
  ghost predicate IsGroup(filter: Filter, c: Item) {
    c.Branch? && c.benchmark && exists x :: Below(c, x) && IsIncluded(filter, x)
  }

  lemma GroupedExactly(filter: Filter, c: Item)
    requires c.Branch?
    ensures c.benchmark && AllControls(filter, c) != [] <==> IsGroup(filter, c)
  {
    hide Below;
    if AllControls(filter, c) != [] {
      var x := AllControls(filter, c)[0];
      IncludedExactly(filter, c, x);
      assert Below(c, x) && IsIncluded(filter, x);
    }
    if IsGroup(filter, c) {
      var x :| Below(c, x) && IsIncluded(filter, x);
      BelowIsControl(c, x);
      IncludedExactly(filter, c, x);
    }
  }

  lemma {:induction false} BelowIsControl(item: Item, c: Item)
    requires Below(item, c)
    ensures c.Control?
  {
    var i: nat :| i < |item.children| && IsOrHas(item, i, c);
    if item.children[i].Branch? {
      BelowIsControl(item.children[i], c);
    }
  }

  /** Places below k, one after the other. */
  ghost predicate Increasing(at: seq<nat>, k: nat) {
    && (forall i, j :: 0 <= i < j < |at| ==> at[i] < at[j])
    && (forall i :: 0 <= i < |at| ==> at[i] < k)
  }

  /** The group has the included controls among the first k children, and a subgroup for each benchmark
      among them with an included control below it, both in order. */
  ghost predicate Shape(filter: Filter, item: Item, k: nat, g: GroupTree, own: seq<nat>, sub: seq<nat>)
    requires item.Branch? && k <= |item.children|
  {
    && g.name == item.name
    && Increasing(own, k) && Increasing(sub, k)
    && (forall i :: i in own <==> 0 <= i < k && IsIncluded(filter, item.children[i]))
    && (forall i :: i in sub <==> 0 <= i < k && IsGroup(filter, item.children[i]))
    && |g.controls| == |own| && (forall i :: 0 <= i < |own| ==> g.controls[i] == item.children[own[i]])
    && |g.groups| == |sub|
    && forall i :: 0 <= i < |sub| ==>
         var c := item.children[sub[i]]; c.Branch? && g.groups[i] == Build(filter, c, |c.children|)
  }

  lemma IncreasingNext(at: seq<nat>, k: nat)
    requires Increasing(at, k)
    ensures Increasing(at, k + 1) && Increasing(at + [k], k + 1)
  {
  }

  lemma ShapeControl(filter: Filter, item: Item, k: nat, g: GroupTree, own: seq<nat>, sub: seq<nat>)
    requires item.Branch? && k < |item.children| && Shape(filter, item, k, g, own, sub)
    requires IsIncluded(filter, item.children[k])
    ensures Shape(filter, item, k + 1, g.(controls := g.controls + [item.children[k]]), own + [k], sub)
  {
    hide IsIncluded, Build, Increasing;
    assert !IsGroup(filter, item.children[k]) by { NotBoth(filter, item.children[k]); }
    hide IsGroup;
    IncreasingNext(own, k);
    IncreasingNext(sub, k);
  }

  lemma NotBoth(filter: Filter, c: Item)
    ensures !(IsIncluded(filter, c) && IsGroup(filter, c))
  {
  }

  lemma ShapeGroup(filter: Filter, item: Item, k: nat, g: GroupTree, own: seq<nat>, sub: seq<nat>)
    requires item.Branch? && k < |item.children| && Shape(filter, item, k, g, own, sub)
    requires item.children[k].Branch? && IsGroup(filter, item.children[k])
    ensures var c := item.children[k];
            Shape(filter, item, k + 1, g.(groups := g.groups + [Build(filter, c, |c.children|)]), own, sub + [k])
  {
    hide Build, Increasing;
    NotBoth(filter, item.children[k]);
    hide IsGroup, IsIncluded;
    IncreasingNext(own, k);
    IncreasingNext(sub, k);
  }

  lemma ShapeNothing(filter: Filter, item: Item, k: nat, g: GroupTree, own: seq<nat>, sub: seq<nat>)
    requires item.Branch? && k < |item.children| && Shape(filter, item, k, g, own, sub)
    requires !IsIncluded(filter, item.children[k]) && !IsGroup(filter, item.children[k])
    ensures Shape(filter, item, k + 1, g, own, sub)
  {
    hide Build, Increasing, IsGroup, IsIncluded;
    IncreasingNext(own, k);
    IncreasingNext(sub, k);
  }

  lemma {:induction false} BuildShape(filter: Filter, item: Item, k: nat) returns (own: seq<nat>, sub: seq<nat>)
    requires item.Branch? && k <= |item.children|
    ensures Shape(filter, item, k, Build(filter, item, k), own, sub)
  {
    if k == 0 {
      own, sub := [], [];
    } else {
      own, sub := BuildShape(filter, item, k - 1);
      var c, g := item.children[k - 1], Build(filter, item, k - 1);
      if c.Branch? {
        GroupedExactly(filter, c);
      }
      hide Shape, AllControls, IsGroup;
      if IsIncluded(filter, c) {
        ShapeControl(filter, item, k - 1, g, own, sub);
        own := own + [k - 1];
      } else if c.Branch? && c.benchmark && AllControls(filter, c) != [] {
        ShapeGroup(filter, item, k - 1, g, own, sub);
        sub := sub + [k - 1];
      } else {
        assert !IsGroup(filter, c) by { OnlyBranches(filter, c); }
        ShapeNothing(filter, item, k - 1, g, own, sub);
      }
    }
  }

  lemma OnlyBranches(filter: Filter, c: Item)
    ensures IsGroup(filter, c) ==> c.Branch?
  {
  }

  /** The controls held in a tree of groups. */
  function Held(g: GroupTree): multiset<Item>
    decreases g, 1
  {
    multiset(g.controls) + HeldIn(g, |g.groups|)
  }

  function HeldIn(g: GroupTree, n: nat): multiset<Item>
    requires n <= |g.groups|
    decreases g, 0, n
  {
    if n == 0 then multiset{} else HeldIn(g, n - 1) + Held(g.groups[n - 1])
  }

  lemma {:induction false} HeldInPrefix(g: GroupTree, h: GroupTree, n: nat)
    requires n <= |g.groups| && n <= |h.groups| && g.groups[..n] == h.groups[..n]
    ensures HeldIn(g, n) == HeldIn(h, n)
  {
    if n > 0 {
      assert g.groups[n - 1] == g.groups[..n][n - 1] == h.groups[n - 1];
      assert g.groups[..n - 1] == g.groups[..n][..n - 1] == h.groups[..n - 1];
      HeldInPrefix(g, h, n - 1);
    }
  }

  lemma HeldSnoc(g: GroupTree, sub: GroupTree)
    ensures Held(g.(groups := g.groups + [sub])) == Held(g) + Held(sub)
  {
    var h := g.(groups := g.groups + [sub]);
    assert h.groups[..|g.groups|] == g.groups[..|g.groups|];
    HeldInPrefix(g, h, |g.groups|);
  }

  lemma HeldControl(g: GroupTree, c: Item)
    ensures Held(g.(controls := g.controls + [c])) == Held(g) + multiset{c}
  {
    var h := g.(controls := g.controls + [c]);
    assert h.groups[..|g.groups|] == g.groups[..|g.groups|];
    HeldInPrefix(g, h, |g.groups|);
  }

  /** Pruning drops no control: the tree holds the included controls, each as often as it occurs. */
  lemma {:induction false} BuildLosesNothing(filter: Filter, item: Item, k: nat)
    requires item.Branch? && k <= |item.children|
    ensures Held(Build(filter, item, k)) == multiset(Controls(filter, item, k))
    decreases item, k
  {
    hide Held, Build, Controls, ChildControls, AllControls, ShouldIncludeControl;
    NothingYet(filter, item);
    if k == 0 {
      HeldEmpty(item.name);
    } else {
      BuildLosesNothing(filter, item, k - 1);
      NextChild(filter, item, k - 1);
      var g, c := Build(filter, item, k - 1), item.children[k - 1];
      if c.Control? {
        HeldControl(g, c);
      } else if c.benchmark {
        BuildLosesNothing(filter, c, |c.children|);
        NothingYet(filter, c);
        HeldSnoc(g, Build(filter, c, |c.children|));
      }
    }
  }

  lemma HeldEmpty(name: string)
    ensures Held(Group(name, [], [])) == multiset{}
  {
  }

  /** Every group below a built group holds some control. */
  ghost predicate NoneEmpty(g: GroupTree)
    decreases g
  {
    forall i :: 0 <= i < |g.groups| ==> |Held(g.groups[i])| > 0 && NoneEmpty(g.groups[i])
  }

  lemma {:induction false} BuildPrunes(filter: Filter, item: Item, k: nat)
    requires item.Branch? && k <= |item.children|
    ensures NoneEmpty(Build(filter, item, k))
    decreases item, k
  {
    hide Held;
    if k > 0 {
      BuildPrunes(filter, item, k - 1);
      var c := item.children[k - 1];
      if c.Branch? && c.benchmark && AllControls(filter, c) != [] {
        BuildPrunes(filter, c, |c.children|);
        BuildLosesNothing(filter, c, |c.children|);
        assert |multiset(AllControls(filter, c))| == |AllControls(filter, c)|;
      }
    }
  }

  // ---------- The tree as built ----------

  class ControlRun {
    const control: Item
    const group: ResultGroup

    constructor (control: Item, group: ResultGroup)
      ensures this.control == control && this.group == group
    {
      this.control, this.group := control, group;
    }
  }

  /** The runs of the first n of some groups. */
  function Total(runs: seq<multiset<ControlRun>>, n: nat): multiset<ControlRun>
    requires n <= |runs|
  {
    if n == 0 then multiset{} else Total(runs, n - 1) + runs[n - 1]
  }

  lemma {:induction false} TotalPrefix(a: seq<multiset<ControlRun>>, b: seq<multiset<ControlRun>>, n: nat)
    requires n <= |a| && n <= |b| && a[..n] == b[..n]
    ensures Total(a, n) == Total(b, n)
  {
    if n > 0 {
      assert a[n - 1] == a[..n][n - 1] == b[n - 1];
      assert a[..n - 1] == a[..n][..n - 1] == b[..n - 1];
      TotalPrefix(a, b, n - 1);
    }
  }

  lemma TotalSnoc(a: seq<multiset<ControlRun>>, m: multiset<ControlRun>)
    ensures Total(a + [m], |a| + 1) == Total(a, |a|) + m
  {
    assert (a + [m])[..|a|] == a[..|a|];
    TotalPrefix(a + [m], a, |a|);
  }

  /** The controls of a tree, each group's own before those of its subgroups. */
  function Order(g: GroupTree): seq<Item>
    decreases g, 1
  {
    OrderUpTo(g, |g.groups|)
  }

  function OrderUpTo(g: GroupTree, n: nat): seq<Item>
    requires n <= |g.groups|
    decreases g, 0, n
  {
    if n == 0 then g.controls else OrderUpTo(g, n - 1) + Order(g.groups[n - 1])
  }

  lemma OrderParts(g: GroupTree)
    ensures OrderUpTo(g, 0) == g.controls && Order(g) == OrderUpTo(g, |g.groups|)
  {
  }

  lemma OrderNext(g: GroupTree, n: nat)
    requires n < |g.groups|
    ensures OrderUpTo(g, n + 1) == OrderUpTo(g, n) + Order(g.groups[n])
  {
    hide Order;
  }

  function Concat(parts: seq<seq<Item>>): seq<Item> {
    if parts == [] then [] else parts[0] + Concat(parts[1..])
  }

  lemma {:induction false} ConcatSnoc(parts: seq<seq<Item>>, p: seq<Item>)
    ensures Concat(parts + [p]) == Concat(parts) + p
  {
    if parts != [] {
      assert (parts + [p])[1..] == parts[1..] + [p];
      ConcatSnoc(parts[1..], p);
    }
  }

  lemma {:induction false} OrderUpToIs(g: GroupTree, n: nat)
    requires n <= |g.groups|
    ensures OrderUpTo(g, n) == g.controls + Concat(seq(n, i requires 0 <= i < |g.groups| => Order(g.groups[i])))
  {
    hide Order, Concat;
    var parts := seq(n, i requires 0 <= i < |g.groups| => Order(g.groups[i]));
    if n == 0 {
      assert parts == [] && Concat([]) == [] by { NoParts(); }
    } else {
      OrderUpToIs(g, n - 1);
      var init := seq(n - 1, i requires 0 <= i < |g.groups| => Order(g.groups[i]));
      assert parts == init + [Order(g.groups[n - 1])];
      ConcatSnoc(init, Order(g.groups[n - 1]));
      OrderNext(g, n - 1);
      var last := Order(g.groups[n - 1]);
      assert g.controls + (Concat(init) + last) == (g.controls + Concat(init)) + last;
    }
  }

  lemma NoParts()
    ensures Concat([]) == []
  {
  }

  /** A group's own controls come first, then those of its subgroups, one subgroup after the other. */
  lemma OwnControlsFirst(g: GroupTree)
    ensures Order(g) == g.controls + Concat(seq(|g.groups|, i requires 0 <= i < |g.groups| => Order(g.groups[i])))
  {
    OrderUpToIs(g, |g.groups|);
  }

  /** Runs of some controls, in order. */
  ghost predicate RunsOf(runs: seq<ControlRun>, controls: seq<Item>) {
    |runs| == |controls| && forall i :: 0 <= i < |runs| ==> runs[i].control == controls[i]
  }

  lemma RunsOfConcat(a: seq<ControlRun>, b: seq<ControlRun>, x: seq<Item>, y: seq<Item>)
    requires RunsOf(a, x) && RunsOf(b, y)
    ensures RunsOf(a + b, x + y)
  {
  }

  /** The group has exactly n groups above it. */
  ghost predicate EndsAfter(g: ResultGroup, n: nat) {
    if n == 0 then g.parent == null else g.parent != null && EndsAfter(g.parent, n - 1)
  }

  /** A group and the groups above it. */
  ghost function Ancestors(g: ResultGroup, n: nat): set<ResultGroup>
    requires EndsAfter(g, n)
  {
    if n == 0 then {g} else {g} + Ancestors(g.parent, n - 1)
  }

  lemma {:induction false} EndsOnce(g: ResultGroup, m: nat, n: nat)
    requires EndsAfter(g, m) && EndsAfter(g, n)
    ensures m == n
  {
    if m > 0 && n > 0 {
      EndsOnce(g.parent, m - 1, n - 1);
    }
  }

  lemma {:induction false} AncestorsEndSooner(g: ResultGroup, n: nat, a: ResultGroup)
    requires EndsAfter(g, n) && a in Ancestors(g, n)
    ensures exists m: nat :: m <= n && EndsAfter(a, m)
  {
    if a != g {
      AncestorsEndSooner(g.parent, n - 1, a);
    }
  }

  lemma NotAboveItself(g: ResultGroup, n: nat)
    requires EndsAfter(g, n) && n > 0
    ensures g !in Ancestors(g.parent, n - 1)
  {
    if g in Ancestors(g.parent, n - 1) {
      AncestorsEndSooner(g.parent, n - 1, g);
      var m: nat :| m <= n - 1 && EndsAfter(g, m);
      EndsOnce(g, m, n);
    }
  }

  class ResultGroup {
    const name: string
    const parent: ResultGroup?
    var groups: seq<ResultGroup>
    var controlRuns: seq<ControlRun>
    var summary: Summary
    ghost var repr: set<ResultGroup>                 // this group and the groups below it
    ghost var childRuns: seq<multiset<ControlRun>>   // the runs below each of the groups
    ghost var tree: GroupTree                        // what they hold

    /** The runs of this group and of the groups below it. */
    ghost function AllRuns(): multiset<ControlRun>
      reads this
    {
      multiset(controlRuns) + Total(childRuns, |childRuns|)
    }

    /** What the group holds itself. */
    ghost predicate Holds()
      reads this
    {
      && (forall r :: r in controlRuns ==> r.group == this)
      && tree.name == name
      && |tree.controls| == |controlRuns| &&
          (forall i :: 0 <= i < |controlRuns| ==> tree.controls[i] == controlRuns[i].control)
      && |tree.groups| == |groups| == |childRuns|
    }

    ghost predicate HasChild(i: nat)
      requires i < |groups| && |tree.groups| == |groups| == |childRuns|
      reads this, repr
      decreases repr, 0
    {
      var g := groups[i];
      && g in repr && g.repr < repr && this !in g.repr
      && g.parent == this && g.Valid()
      && tree.groups[i] == g.tree && childRuns[i] == g.AllRuns()
    }

    ghost predicate Valid()
      reads this, repr
      decreases repr, 1
    {
      this in repr && Holds() && forall i :: 0 <= i < |groups| ==> HasChild(i)
    }

    constructor (name: string, parent: ResultGroup?)
      ensures Valid() && repr == {this} && this.name == name && this.parent == parent
      ensures summary == EMPTY_SUMMARY && controlRuns == [] && groups == [] && AllRuns() == multiset{} &&
              tree == Group(name, [], [])
    {
      this.name, this.parent := name, parent;
      groups, controlRuns, summary := [], [], EMPTY_SUMMARY;
      repr, childRuns, tree := {this}, [], Group(name, [], []);
    }

    twostate lemma KeepsChild(i: nat)
      requires old(Valid()) && i < old(|groups|) && i < |groups| && |tree.groups| == |groups| == |childRuns|
      requires groups[i] == old(groups[i]) && tree.groups[i] == old(tree.groups[i]) && childRuns[i] == old(childRuns[i])
      requires old(repr) <= repr && forall g: ResultGroup :: g in old(repr) && g != this ==> unchanged(g)
      ensures HasChild(i)
    {
      assert old(HasChild(i));
      var g := groups[i];
      assert unchanged(g);
    }

    method AddGroup(group: ResultGroup)
      requires Valid() && group.Valid() && group.parent == this && this !in group.repr
      modifies this`groups, this`repr, this`childRuns, this`tree
      ensures Valid() && groups == old(groups) + [group] && repr == old(repr) + group.repr
      ensures AllRuns() == old(AllRuns()) + group.AllRuns()
      ensures tree == old(tree).(groups := old(tree.groups) + [group.tree])
    {
      TotalSnoc(childRuns, group.AllRuns());
      groups := groups + [group];
      repr, childRuns := repr + group.repr, childRuns + [group.AllRuns()];
      tree := tree.(groups := tree.groups + [group.tree]);
      forall i | 0 <= i < |groups| ensures HasChild(i) {
        if i < |groups| - 1 {
          KeepsChild(i);
        }
      }
    }

    method AddRun(run: ControlRun)
      requires Valid() && run.group == this
      modifies this`controlRuns, this`tree
      ensures Valid() && controlRuns == old(controlRuns) + [run]
      ensures AllRuns() == old(AllRuns()) + multiset{run}
      ensures tree == old(tree).(controls := old(tree.controls) + [run.control])
    {
      controlRuns := controlRuns + [run];
      tree := tree.(controls := tree.controls + [run.control]);
      forall i | 0 <= i < |groups| ensures HasChild(i) {
        KeepsChild(i);
      }
    }

    method ControlRunCount() returns (count: nat)
      requires Valid()
      ensures count == |AllRuns()|
      decreases repr
    {
      count := |controlRuns|;
      for i := 0 to |groups|
        invariant count == |controlRuns| + |Total(childRuns, i)|
      {
        assert HasChild(i);
        var n := groups[i].ControlRunCount();
        count := count + n;
      }
    }

    /** Dispatches the runs of this group, then those of its subgroups in turn. */
    method Execute() returns (dispatched: seq<ControlRun>)
      requires Valid()
      ensures multiset(dispatched) == AllRuns()
      ensures RunsOf(dispatched, Order(tree))
      decreases repr
    {
      hide Order, OrderUpTo, RunsOf, Valid, AllRuns;
      OrderParts(tree);
      ValidParts();
      dispatched := controlRuns;
      for i := 0 to |groups|
        invariant multiset(dispatched) == multiset(controlRuns) + Total(childRuns, i)
        invariant RunsOf(dispatched, OrderUpTo(tree, i))
      {
        assert HasChild(i);
        var below := groups[i].Execute();
        RunsOfConcat(dispatched, below, OrderUpTo(tree, i), Order(tree.groups[i]));
        OrderNext(tree, i);
        dispatched := dispatched + below;
      }
    }

    lemma ValidParts()
      requires Valid()
      ensures |tree.groups| == |groups| == |childRuns| && forall i :: 0 <= i < |groups| ==> HasChild(i)
      ensures RunsOf(controlRuns, tree.controls)
      ensures AllRuns() == multiset(controlRuns) + Total(childRuns, |childRuns|)
    {
    }

    /** Adds a summary to this group and to every group above it. */
    method UpdateSummary(s: Summary, ghost n: nat, ghost above: set<ResultGroup>)
      requires EndsAfter(this, n) && above == Ancestors(this, n)
      modifies above`summary
      ensures forall g :: g in above ==> g.summary == Add(old(g.summary), s)
      decreases n
    {
      summary := Add(summary, s);
      if parent != null {
        NotAboveItself(this, n);
        parent.UpdateSummary(s, n - 1, above - {this});
      }
    }
  }

  /** The flat list of runs grows by these, one for each of the controls, all new. */
  ghost predicate NewRuns(before: seq<ControlRun>, after: seq<ControlRun>, controls: seq<Item>)
  {
    && |after| == |before| + |controls| && after[..|before|] == before
    && (forall i :: 0 <= i < |controls| ==> after[|before| + i].control == controls[i])
  }

  ghost function Added(before: seq<ControlRun>, after: seq<ControlRun>): multiset<ControlRun>
  {
    if |before| <= |after| then multiset(after[|before|..]) else multiset{}
  }

  ghost predicate Distinct(runs: seq<ControlRun>) {
    forall i, j :: 0 <= i < j < |runs| ==> runs[i] != runs[j]
  }

  lemma NewRunsTrans(a: seq<ControlRun>, b: seq<ControlRun>, c: seq<ControlRun>, xs: seq<Item>, ys: seq<Item>)
    requires NewRuns(a, b, xs) && NewRuns(b, c, ys)
    ensures NewRuns(a, c, xs + ys) && Added(a, c) == Added(a, b) + Added(b, c)
  {
    assert c[..|a|] == c[..|b|][..|a|] == a;
    assert c[|a|..] == c[..|b|][|a|..] + c[|b|..];
    forall i | 0 <= i < |xs + ys| ensures c[|a| + i].control == (xs + ys)[i] {
      if i < |xs| {
        assert c[|a| + i] == c[..|b|][|a| + i] == b[|a| + i];
      } else {
        assert c[|a| + i] == c[|b| + (i - |xs|)];
      }
    }
  }

  lemma OneNewRun(runs: seq<ControlRun>, added: seq<ControlRun>)
    requires |added| <= 1
    ensures NewRuns(runs, runs + added, if added == [] then [] else [added[0].control])
    ensures Added(runs, runs + added) == multiset(added)
    ensures added == [] ==> runs + added == runs
  {
    assert (runs + added)[..|runs|] == runs;
    assert (runs + added)[|runs|..] == added;
  }

  class ExecutionTree {
    var controlRuns: seq<ControlRun>
    const filter: Filter

    constructor (filter: Filter)
      ensures controlRuns == [] && this.filter == filter
    {
      controlRuns, this.filter := [], filter;
    }

    /** Adds a run of the control to the group and to the list, unless it is filtered out. */
    method AddControl(control: Item, group: ResultGroup)
      requires control.Control? && group.Valid() && Distinct(controlRuns)
      modifies this`controlRuns, group`controlRuns, group`tree
      ensures group.Valid() && Distinct(controlRuns)
      ensures var included := ShouldIncludeControl(filter, control.shortName);
              && NewRuns(old(controlRuns), controlRuns, if included then [control] else [])
              && group.AllRuns() == old(group.AllRuns()) + Added(old(controlRuns), controlRuns)
              && group.tree == if included then old(group.tree).(controls := old(group.tree.controls) + [control])
                  else old(group.tree)
    {
      hide ResultGroup.Valid, ResultGroup.AllRuns, ResultGroup.HasChild, ResultGroup.Holds, NewRuns, Added;
      OneNewRun(controlRuns, []);
      if ShouldIncludeControl(filter, control.shortName) {
        var run := new ControlRun(control, group);
        assert run !in controlRuns;
        group.AddRun(run);
        OneNewRun(controlRuns, [run]);
        controlRuns := controlRuns + [run];
      }
    }
  }

  method NewResultGroup(executionTree: ExecutionTree, item: Item, parent: ResultGroup) returns (group: ResultGroup)
    requires item.Branch? && Distinct(executionTree.controlRuns)
    modifies executionTree`controlRuns
    ensures group.Valid() && fresh(group.repr) && group.parent == parent && Distinct(executionTree.controlRuns)
    ensures NewRuns(old(executionTree.controlRuns), executionTree.controlRuns, AllControls(executionTree.filter, item))
    ensures group.AllRuns() == Added(old(executionTree.controlRuns), executionTree.controlRuns)
    ensures group.tree == Build(executionTree.filter, item, |item.children|)
    decreases item
  {
    hide NewRuns, Added, Distinct, ResultGroup.HasChild, ResultGroup.Holds, Held, Controls, ChildControls, Build,
         AllControls, ResultGroup.AllRuns, ShouldIncludeControl;
    NothingYet(executionTree.filter, item);
    ghost var before := executionTree.controlRuns;
    group := new ResultGroup(item.name, parent);
    NoNewRuns(before);
    for k := 0 to |item.children|
      invariant group.Valid() && fresh(group.repr) && Distinct(executionTree.controlRuns)
      invariant NewRuns(before, executionTree.controlRuns, Controls(executionTree.filter, item, k))
      invariant group.AllRuns() == Added(before, executionTree.controlRuns)
      invariant group.tree == Build(executionTree.filter, item, k)
    {
      var c := item.children[k];
      ghost var runs := executionTree.controlRuns;
      NextChild(executionTree.filter, item, k);
      if c.Branch? {
        if c.benchmark {
          var sub := NewResultGroup(executionTree, c, group);
          NewRunsTrans(before, runs, executionTree.controlRuns, Controls(executionTree.filter, item, k),
              AllControls(executionTree.filter, c));
          var count := sub.ControlRunCount();
          NewRunsCount(runs, executionTree.controlRuns, AllControls(executionTree.filter, c));
          if count > 0 {
            group.AddGroup(sub);
          }
        }
      } else {
        executionTree.AddControl(c, group);
        NewRunsTrans(before, runs, executionTree.controlRuns, Controls(executionTree.filter, item, k),
            ChildControls(executionTree.filter, item, k));
      }
    }
  }

  lemma NothingYet(filter: Filter, item: Item)
    requires item.Branch?
    ensures Controls(filter, item, 0) == [] && Build(filter, item, 0) == Group(item.name, [], [])
    ensures Controls(filter, item, |item.children|) == AllControls(filter, item)
  {
  }

  /** What the next child adds. */
  lemma NextChild(filter: Filter, item: Item, k: nat)
    requires item.Branch? && k < |item.children|
    ensures var c, added := item.children[k], ChildControls(filter, item, k);
            && Controls(filter, item, k + 1) == Controls(filter, item, k) + added
            && (added == [] ==> Controls(filter, item, k + 1) == Controls(filter, item, k))
            && (c.Control? ==> added == if ShouldIncludeControl(filter, c.shortName) then [c] else [])
            && (c.Branch? ==> added == if c.benchmark then AllControls(filter, c) else [])
            && var g := Build(filter, item, k);
               Build(filter, item, k + 1) ==
               if added == [] then g
               else if c.Control? then g.(controls := g.controls + [c])
               else g.(groups := g.groups + [Build(filter, c, |c.children|)])
  {
  }

  lemma NoNewRuns(runs: seq<ControlRun>)
    ensures NewRuns(runs, runs, []) && Added(runs, runs) == multiset{}
  {
    assert runs[..|runs|] == runs;
  }

  lemma NewRunsCount(a: seq<ControlRun>, b: seq<ControlRun>, xs: seq<Item>)
    requires NewRuns(a, b, xs)
    ensures |a| <= |b| && |Added(a, b)| == |xs|
    ensures xs == [] ==> a == b
  {
    assert b[|a|..] == [] ==> b == b[..|a|];
  }

  /** The included controls below the first k of the root items, in order. */
  function RootControls(filter: Filter, items: seq<Item>, k: nat): seq<Item>
    requires k <= |items|
  {
    if k == 0 then []
    else RootControls(filter, items, k - 1) + ControlsOf(filter, items[k - 1])
  }

  function ControlsOf(filter: Filter, item: Item): seq<Item> {
    match item
    case Control(n) => if ShouldIncludeControl(filter, n) then [item] else []
    case Branch(_, _, _) => AllControls(filter, item)
  }

  /** The root group of the first k root items: unlike in other groups, none is left out for being empty. */
  function RootTree(filter: Filter, items: seq<Item>, k: nat): GroupTree
    requires k <= |items|
  {
    if k == 0 then Group("root_result_group", [], [])
    else
      var g, item := RootTree(filter, items, k - 1), items[k - 1];
      if item.Branch? then g.(groups := g.groups + [Build(filter, item, |item.children|)])
      else if ShouldIncludeControl(filter, item.shortName) then g.(controls := g.controls + [item])
      else g
  }

  /** The group has the included controls among the first k root items, and a subgroup for every other one
      of them, in order. */
  ghost predicate RootShaped(filter: Filter, items: seq<Item>, k: nat, g: GroupTree, own: seq<nat>, sub: seq<nat>)
    requires k <= |items|
  {
    && Increasing(own, k) && Increasing(sub, k)
    && (forall i :: i in own <==> 0 <= i < k && IsIncluded(filter, items[i]))
    && (forall i :: i in sub <==> 0 <= i < k && items[i].Branch?)
    && |g.controls| == |own| && (forall i :: 0 <= i < |own| ==> g.controls[i] == items[own[i]])
    && |g.groups| == |sub|
    && forall i :: 0 <= i < |sub| ==>
         var c := items[sub[i]]; c.Branch? && g.groups[i] == Build(filter, c, |c.children|)
  }

  lemma RootControl(filter: Filter, items: seq<Item>, k: nat, g: GroupTree, own: seq<nat>, sub: seq<nat>)
    requires k < |items| && RootShaped(filter, items, k, g, own, sub) && items[k].Control?
    ensures if IsIncluded(filter, items[k])
            then RootShaped(filter, items, k + 1, g.(controls := g.controls + [items[k]]), own + [k], sub)
            else RootShaped(filter, items, k + 1, g, own, sub)
  {
    hide IsIncluded, Build, Increasing;
    IncreasingNext(own, k);
    IncreasingNext(sub, k);
  }

  lemma RootGroup(filter: Filter, items: seq<Item>, k: nat, g: GroupTree, own: seq<nat>, sub: seq<nat>)
    requires k < |items| && RootShaped(filter, items, k, g, own, sub) && items[k].Branch?
    ensures var sub', c := sub + [k], items[k];
            RootShaped(filter, items, k + 1, g.(groups := g.groups + [Build(filter, c, |c.children|)]), own, sub')
  {
    assert !IsIncluded(filter, items[k]);
    hide IsIncluded, Build, Increasing;
    IncreasingNext(own, k);
    IncreasingNext(sub, k);
  }

  lemma IncludedIs(filter: Filter, c: Item)
    ensures c.Control? ==> (IsIncluded(filter, c) <==> ShouldIncludeControl(filter, c.shortName))
  {
  }

  lemma RootEmpty(filter: Filter, items: seq<Item>)
    ensures RootShaped(filter, items, 0, Group("root_result_group", [], []), [], [])
  {
  }

  /** The shape of the root group: no root item but a control that is not included is left out. */
  lemma {:induction false} RootShape(filter: Filter, items: seq<Item>, k: nat) returns (own: seq<nat>, sub: seq<nat>)
    requires k <= |items|
    ensures RootShaped(filter, items, k, RootTree(filter, items, k), own, sub)
  {
    hide RootShaped, Build, IsIncluded, ShouldIncludeControl, RootTree;
    if k == 0 {
      own, sub := [], [];
      RootNone(filter, items);
      RootEmpty(filter, items);
    } else {
      own, sub := RootShape(filter, items, k - 1);
      var g, item := RootTree(filter, items, k - 1), items[k - 1];
      RootNext(filter, items, k - 1);
      IncludedIs(filter, item);
      if item.Branch? {
        RootGroup(filter, items, k - 1, g, own, sub);
        sub := sub + [k - 1];
      } else {
        RootControl(filter, items, k - 1, g, own, sub);
        if IsIncluded(filter, item) {
          own := own + [k - 1];
        }
      }
    }
  }

  lemma RootNext(filter: Filter, items: seq<Item>, k: nat)
    requires k < |items|
    ensures var item, g := items[k], RootTree(filter, items, k);
            && RootControls(filter, items, k + 1) == RootControls(filter, items, k) + ControlsOf(filter, item)
            && RootTree(filter, items, k + 1) ==
               if item.Branch? then g.(groups := g.groups + [Build(filter, item, |item.children|)])
               else if ShouldIncludeControl(filter, item.shortName) then g.(controls := g.controls + [item])
               else g
  {
    hide Build, ControlsOf;
  }

  lemma RootNone(filter: Filter, items: seq<Item>)
    ensures RootControls(filter, items, 0) == [] && RootTree(filter, items, 0) == Group("root_result_group", [], [])
  {
  }

  /** Nothing is lost between the list of runs and the tree: the list has a run for each included
      control, in the order they occur, and the tree holds the same runs, none twice.  */
  method NewRootResultGroup(executionTree: ExecutionTree, rootItems: seq<Item>) returns (root: ResultGroup)
    requires executionTree.controlRuns == []
    modifies executionTree`controlRuns
    ensures root.Valid() && fresh(root.repr) && root.parent == null
    ensures NewRuns([], executionTree.controlRuns, RootControls(executionTree.filter, rootItems, |rootItems|))
    ensures root.AllRuns() == multiset(executionTree.controlRuns) && Distinct(executionTree.controlRuns)
    ensures root.tree == RootTree(executionTree.filter, rootItems, |rootItems|)
  {
    hide NewRuns, Added, ResultGroup.HasChild, ResultGroup.Holds, Build, AllControls, ResultGroup.AllRuns,
         ShouldIncludeControl, ControlsOf, RootControls, RootTree, Distinct;
    assert Distinct(executionTree.controlRuns) by { NoneTwice(); }
    root := new ResultGroup("root_result_group", null);
    NoNewRuns([]);
    RootNone(executionTree.filter, rootItems);
    for k := 0 to |rootItems|
      invariant root.Valid() && fresh(root.repr) && Distinct(executionTree.controlRuns)
      invariant NewRuns([], executionTree.controlRuns, RootControls(executionTree.filter, rootItems, k))
      invariant root.AllRuns() == Added([], executionTree.controlRuns)
      invariant root.tree == RootTree(executionTree.filter, rootItems, k)
    {
      var item := rootItems[k];
      RootNext(executionTree.filter, rootItems, k);
      ghost var runs := executionTree.controlRuns;
      ControlsOfItem(executionTree.filter, item);
      if item.Control? {
        executionTree.AddControl(item, root);
      } else {
        var itemGroup := NewResultGroup(executionTree, item, root);
        root.AddGroup(itemGroup);
      }
      NewRunsTrans([], runs, executionTree.controlRuns, RootControls(executionTree.filter, rootItems, k),
          ControlsOf(executionTree.filter, item));
    }
    AddedToNone(executionTree.controlRuns);
  }

  lemma ControlsOfItem(filter: Filter, item: Item)
    ensures ControlsOf(filter, item) == if item.Branch? then AllControls(filter, item)
                                        else if ShouldIncludeControl(filter, item.shortName) then [item] else []
  {
  }

  lemma NoneTwice()
    ensures Distinct([])
  {
  }

  lemma AddedToNone(runs: seq<ControlRun>)
    ensures Added([], runs) == multiset(runs)
  {
    assert runs[0..] == runs;
  }

  // ---------- Parent chains ----------

  /** Following Parent from g reaches root after n steps. */
  ghost predicate Chain(g: ResultGroup, root: ResultGroup, n: nat) {
    if n == 0 then g == root else g.parent != null && Chain(g.parent, root, n - 1)
  }

  lemma {:induction false} ChainUp(g: ResultGroup, h: ResultGroup, root: ResultGroup, n: nat)
    requires Chain(g, h, n) && h.parent == root
    ensures Chain(g, root, n + 1)
  {
    if n > 0 {
      ChainUp(g.parent, h, root, n - 1);
    }
  }

  lemma {:induction false} InTotal(runs: seq<multiset<ControlRun>>, n: nat, r: ControlRun) returns (i: nat)
    requires n <= |runs| && r in Total(runs, n)
    ensures i < n && r in runs[i]
  {
    if r in runs[n - 1] {
      i := n - 1;
    } else {
      i := InTotal(runs, n - 1, r);
    }
  }

  /** From the group of any run of the tree, the parents lead to the root. */
  lemma {:induction false} ChainToRoot(root: ResultGroup, r: ControlRun) returns (n: nat)
    requires root.Valid() && r in root.AllRuns()
    ensures Chain(r.group, root, n)
    decreases root.repr
  {
    if r in root.controlRuns {
      n := 0;
    } else {
      var i := InTotal(root.childRuns, |root.childRuns|, r);
      assert root.HasChild(i);
      n := ChainToRoot(root.groups[i], r);
      ChainUp(r.group, root.groups[i], root, n);
      n := n + 1;
    }
  }
}

/** Group scheduling of the CFQ elevator (block/cfq-iosched.c): groups wait on a
    service tree in the order of their virtual disk time, which grows with the
    service they get, the faster the smaller their weight.

    The service tree is the sequence of its groups from left to right.
 */
module Cfq {
  import opened Lists

  /** 1 << CFQ_SERVICE_SHIFT. */
  const SERVICE_FACTOR := 4096
  const WEIGHT_DEFAULT := 500
  /** What a unit of service adds to the time of a group of weight one. */
  const UNIT: nat := SERVICE_FACTOR * WEIGHT_DEFAULT

  /** `queues` is nr_cfqq; a new weight waits in `newWeight` while `update` is set. */
  datatype Group = Group(vtime: nat, weight: nat, newWeight: nat, update: bool, queues: nat)

  /** cfq_data: `left` caches the leftmost group, `serving` is the group chosen
      last, until its service is charged. */
  datatype Cfqd = Cfqd(idleDelay: nat, groups: map<nat, Group>, tree: seq<nat>, left: Option<nat>,
                       totalWeight: int, minVtime: nat, serving: Option<nat>)

  type Groups = map<nat, Group>

  /** cfq_scale_slice: the charge in inverse proportion to the weight, rounded down. */
  function Scale(charge: nat, weight: nat): (r: nat)
    requires weight > 0
    ensures r * weight <= charge * UNIT < (r + 1) * weight
  {
    var d := charge * SERVICE_FACTOR * WEIGHT_DEFAULT;
    assert d == d / weight * weight + d % weight;
    d / weight
  }

  // ------------------------------------------------------------------ operations

  predicate Known(gs: Groups, l: seq<nat>) {
    forall x :: x in l ==> x in gs
  }

  /** The tree with `g` behind all groups of no larger time. */
  function Insert(gs: Groups, l: seq<nat>, g: nat): seq<nat>
    requires g in gs && Known(gs, l)
  {
    if l == [] || gs[g].vtime < gs[l[0]].vtime then [g] + l else [l[0]] + Insert(gs, l[1..], g)
  }

  /** cfq_update_group_weight. */
  function Settle(x: Group): Group {
    if x.update then x.(weight := x.newWeight, update := false) else x
  }

  /** cfq_group_service_tree_add. */
  function TreeAdd(s: Cfqd, g: nat): Cfqd
    requires g in s.groups && Known(s.groups, s.tree)
  {
    var gs := s.groups[g := Settle(s.groups[g])];
    var tree := Insert(gs, s.tree, g);
    s.(groups := gs, tree := tree, left := if tree[0] == g then Some(g) else s.left,
       totalWeight := s.totalWeight + gs[g].weight)
  }

  /** cfq_group_service_tree_del. */
  function TreeDel(s: Cfqd, g: nat): Cfqd
    requires g in s.groups
  {
    s.(tree := Without(s.tree, g), left := if s.left == Some(g) && g in s.tree then None else s.left,
       totalWeight := s.totalWeight - s.groups[g].weight)
  }

  /** cfq_group_notify_queue_add: a group with a first queue joins at the end. */
  function QueueAdd(s: Cfqd, g: nat): Cfqd
    requires g in s.groups && Known(s.groups, s.tree)
  {
    var x := s.groups[g].(queues := s.groups[g].queues + 1);
    if g in s.tree then s.(groups := s.groups[g := x])
    else
      var vtime := if s.tree == [] then s.minVtime else s.groups[s.tree[|s.tree| - 1]].vtime + s.idleDelay;
      TreeAdd(s.(groups := s.groups[g := x.(vtime := vtime)]), g)
  }

  /** cfq_group_notify_queue_del. */
  function QueueDel(s: Cfqd, g: nat): Cfqd
    requires g in s.groups && s.groups[g].queues > 0
  {
    var s1 := s.(groups := s.groups[g := s.groups[g].(queues := s.groups[g].queues - 1)]);
    if s1.groups[g].queues > 0 then s1
    else TreeDel(s1, g).(serving := if s.serving == Some(g) then None else s.serving)
  }

  /** cfq_get_next_cfqg: the leftmost group is served next. */
  function GetNext(s: Cfqd): Cfqd
    requires Known(s.groups, s.tree)
  {
    if s.tree == [] then s.(serving := None)
    else
      var left := if s.left.Some? then s.left.value else s.tree[0];
      var v := if left in s.groups then s.groups[left].vtime else 0;
      s.(left := Some(left), minVtime := if v > s.minVtime then v else s.minVtime, serving := Some(left))
  }

  /** cfq_group_served, with the charge as worked out from the slice. */
  function Served(s: Cfqd, g: nat, charge: nat): Cfqd
    requires g in s.groups && s.groups[g].weight > 0 && Known(s.groups, s.tree)
  {
    var s1 := TreeDel(s, g);
    var x := s.groups[g];
    KnownWithout(s.groups, s.tree, g);
    TreeAdd(s1.(groups := s.groups[g := x.(vtime := x.vtime + Scale(charge, x.weight))], serving := None), g)
  }

  lemma {:induction false} KnownWithout(gs: Groups, l: seq<nat>, g: nat)
    requires Known(gs, l)
    ensures Known(gs, Without(l, g))
  {
    if l != [] {
      KnownWithout(gs, l[1..], g);
    }
  }

  /** cfq_update_blkio_group_weight, at any time. */
  function SetWeight(s: Cfqd, g: nat, weight: nat): Cfqd
    requires g in s.groups
  {
    s.(groups := s.groups[g := s.groups[g].(newWeight := weight, update := true)])
  }

  // ------------------------------------------------------------------- invariant

  function Weights(gs: Groups, l: seq<nat>): nat
    requires Known(gs, l)
  {
    if l == [] then 0 else gs[l[0]].weight + Weights(gs, l[1..])
  }

  predicate Sorted(gs: Groups, l: seq<nat>)
    requires Known(gs, l)
  {
    forall i, j :: 0 <= i < j < |l| ==> gs[l[i]].vtime <= gs[l[j]].vtime
  }

  ghost predicate TreeOk(gs: Groups, l: seq<nat>) {
    Known(gs, l) && Distinct(l) && Sorted(gs, l)
  }

  ghost predicate GroupsOk(gs: Groups, tree: seq<nat>, minVtime: nat) {
    forall g :: g in gs ==> gs[g].weight > 0 && gs[g].newWeight > 0 && (g in tree ==> minVtime <= gs[g].vtime)
  }

  /** The group being served is still as far left as any. */
  ghost predicate ServingOk(gs: Groups, tree: seq<nat>, serving: Option<nat>)
    requires Known(gs, tree)
  {
    serving.Some? ==> serving.value in tree && forall x :: x in tree ==> gs[serving.value].vtime <= gs[x].vtime
  }

  /** What every operation keeps, inside as well. */
  ghost predicate Base(s: Cfqd) {
    && TreeOk(s.groups, s.tree) && GroupsOk(s.groups, s.tree, s.minVtime)
    && s.totalWeight == Weights(s.groups, s.tree) && (s.left.Some? ==> s.tree != [] && s.left.value == s.tree[0])
    && ServingOk(s.groups, s.tree, s.serving)
  }

  /** The groups on the tree are those with queues. */
  ghost predicate Inv(s: Cfqd) {
    Base(s) && forall g :: g in s.groups ==> (g in s.tree <==> s.groups[g].queues > 0)
  }

  // -------------------------------------------------------------- list arguments

  lemma {:induction false} InsertAt(gs: Groups, l: seq<nat>, g: nat) returns (k: nat)
    requires g in gs && Known(gs, l)
    ensures k <= |l| && Insert(gs, l, g) == l[..k] + [g] + l[k..]
    ensures forall i :: 0 <= i < k ==> gs[l[i]].vtime <= gs[g].vtime
    ensures k < |l| ==> gs[g].vtime < gs[l[k]].vtime
  {
    if l == [] || gs[g].vtime < gs[l[0]].vtime {
      k := 0;
    } else {
      k := InsertAt(gs, l[1..], g);
      assert [l[0]] + (l[1..][..k] + [g] + l[1..][k..]) == l[..k + 1] + [g] + l[k + 1..];
      k := k + 1;
    }
  }

  lemma Wedged(l: seq<nat>, k: nat, g: nat)
    requires k <= |l|
    ensures var r := l[..k] + [g] + l[k..]; forall x :: x in r <==> x in l || x == g
  {
    var r := l[..k] + [g] + l[k..];
    forall x | x in l
      ensures x in r
    {
      var i :| 0 <= i < |l| && l[i] == x;
      assert r[if i < k then i else i + 1] == x;
    }
    assert r[k] == g;
  }

  lemma WedgedSorted(gs: Groups, l: seq<nat>, k: nat, g: nat, r: seq<nat>)
    requires g in gs && TreeOk(gs, l) && g !in l && k <= |l| && r == l[..k] + [g] + l[k..]
    requires forall i :: 0 <= i < k ==> gs[l[i]].vtime <= gs[g].vtime
    requires k < |l| ==> gs[g].vtime < gs[l[k]].vtime
    ensures TreeOk(gs, r)
  {
    assert forall j :: k <= j < |l| ==> gs[g].vtime < gs[l[j]].vtime;
    forall i | 0 <= i < |r|
      ensures r[i] in gs
    {
      assert r[i] == if i < k then l[i] else if i == k then g else l[i - 1];
    }
    forall i, j | 0 <= i < j < |r|
      ensures gs[r[i]].vtime <= gs[r[j]].vtime && r[i] != r[j]
    {
      assert r[i] == if i < k then l[i] else if i == k then g else l[i - 1];
      assert r[j] == if j < k then l[j] else if j == k then g else l[j - 1];
    }
  }

  lemma {:induction false} WeightsJoin(gs: Groups, a: seq<nat>, b: seq<nat>)
    requires Known(gs, a) && Known(gs, b)
    ensures Known(gs, a + b) && Weights(gs, a + b) == Weights(gs, a) + Weights(gs, b)
  {
    if a == [] {
      assert a + b == b;
    } else {
      assert (a + b)[1..] == a[1..] + b;
      WeightsJoin(gs, a[1..], b);
    }
  }

  lemma {:induction false} WeightsFrame(gs: Groups, gs': Groups, l: seq<nat>)
    requires Known(gs, l) && forall x :: x in l ==> x in gs' && gs'[x].weight == gs[x].weight
    ensures Known(gs', l) && Weights(gs', l) == Weights(gs, l)
  {
    if l != [] {
      WeightsFrame(gs, gs', l[1..]);
    }
  }

  lemma WeightsOne(gs: Groups, g: nat)
    requires g in gs
    ensures Known(gs, [g]) && Weights(gs, [g]) == gs[g].weight
  {
    assert [g][1..] == [];
  }

  lemma WedgedWeights(gs: Groups, l: seq<nat>, k: nat, g: nat)
    requires g in gs && Known(gs, l) && k <= |l|
    ensures Known(gs, l[..k] + [g] + l[k..]) && Weights(gs, l[..k] + [g] + l[k..]) == Weights(gs, l) + gs[g].weight
  {
    hide Weights;
    WeightsOne(gs, g);
    WeightsJoin(gs, l[..k], l[k..]);
    assert l[..k] + l[k..] == l;
    WeightsJoin(gs, l[..k], [g]);
    WeightsJoin(gs, l[..k] + [g], l[k..]);
  }

  lemma InsertTree(gs: Groups, l: seq<nat>, g: nat)
    requires g in gs && TreeOk(gs, l) && g !in l
    ensures var r := Insert(gs, l, g);
            && TreeOk(gs, r) && (forall x :: x in r <==> x in l || x == g) && r != []
            && Weights(gs, r) == Weights(gs, l) + gs[g].weight
            && (r[0] == g || (l != [] && r[0] == l[0]))
            && (r[0] == g ==> forall x :: x in l ==> gs[g].vtime < gs[x].vtime)
  {
    var k := InsertAt(gs, l, g);
    Wedged(l, k, g);
    WedgedWeights(gs, l, k, g);
    var r := Insert(gs, l, g);
    hide Insert, Weights;
    WedgedSorted(gs, l, k, g, r);
    if r[0] == g {
      assert k == 0;
    }
  }

  lemma SplicedSorted(gs: Groups, l: seq<nat>, i: nat)
    requires TreeOk(gs, l) && i < |l|
    ensures TreeOk(gs, l[..i] + l[i + 1..])
  {
    var r := l[..i] + l[i + 1..];
    Spliced(l, i);
    forall k | 0 <= k < |r|
      ensures r[k] in gs && r[k] == if k < i then l[k] else l[k + 1]
    {
      assert r[k] in r;
    }
  }

  lemma SplicedWeights(gs: Groups, l: seq<nat>, i: nat)
    requires Known(gs, l) && i < |l| && Known(gs, l[..i] + l[i + 1..])
    ensures Weights(gs, l[..i] + l[i + 1..]) == Weights(gs, l) - gs[l[i]].weight
  {
    hide Weights;
    var r := l[..i] + l[i + 1..];
    WedgedWeights(gs, r, i, l[i]);
    assert r[..i] == l[..i] && r[i..] == l[i + 1..];
    assert l[..i] + [l[i]] + l[i + 1..] == l;
  }

  lemma WithoutTree(gs: Groups, l: seq<nat>, g: nat)
    requires TreeOk(gs, l) && g in l
    ensures var r := Without(l, g);
            && TreeOk(gs, r) && (forall x :: x in r <==> x in l && x != g)
            && Weights(gs, r) == Weights(gs, l) - gs[g].weight
            && (g != l[0] ==> r != [] && r[0] == l[0])
  {
    hide Weights, Without, Sorted, Distinct;
    WithoutMembers(l, g);
    var i :| 0 <= i < |l| && l[i] == g;
    WithoutAt(l, i);
    SplicedSorted(gs, l, i);
    SplicedWeights(gs, l, i);
  }

  lemma TreeFrame(gs: Groups, gs': Groups, l: seq<nat>)
    requires TreeOk(gs, l)
    requires forall x :: x in l ==> x in gs' && gs'[x].vtime == gs[x].vtime && gs'[x].weight == gs[x].weight
    ensures TreeOk(gs', l) && Weights(gs', l) == Weights(gs, l)
  {
    WeightsFrame(gs, gs', l);
  }

  // --------------------------------------------------- every operation keeps it

  lemma BaseFacts(s: Cfqd)
    requires Base(s)
    ensures Known(s.groups, s.tree) && GroupsOk(s.groups, s.tree, s.minVtime) && ServingOk(s.groups, s.tree, s.serving)
  {
  }

  lemma AddedGroups(s: Cfqd, g: nat, gs: Groups, tree: seq<nat>)
    requires GroupsOk(s.groups, s.tree, s.minVtime) && g in s.groups && s.minVtime <= s.groups[g].vtime
    requires gs == s.groups[g := Settle(s.groups[g])] && forall x :: x in tree <==> x in s.tree || x == g
    ensures GroupsOk(gs, tree, s.minVtime)
  {
  }

  lemma AddedServing(s: Cfqd, g: nat, gs: Groups, tree: seq<nat>)
    requires g in s.groups && g !in s.tree && Known(s.groups, s.tree) && ServingOk(s.groups, s.tree, s.serving)
    requires s.serving.Some? ==> s.serving.value in s.groups && s.groups[s.serving.value].vtime <= s.groups[g].vtime
    requires gs == s.groups[g := Settle(s.groups[g])] && forall x :: x in tree <==> x in s.tree || x == g
    ensures Known(gs, tree) && ServingOk(gs, tree, s.serving)
  {
  }

  lemma TreeAddOk(s: Cfqd, g: nat)
    requires Base(s) && g in s.groups && g !in s.tree && s.minVtime <= s.groups[g].vtime
    requires s.serving.Some? ==> s.serving.value in s.groups && s.groups[s.serving.value].vtime <= s.groups[g].vtime
    ensures Known(s.groups, s.tree) && Base(TreeAdd(s, g))
    ensures forall x :: x in TreeAdd(s, g).tree <==> x in s.tree || x == g
    ensures TreeAdd(s, g).groups == s.groups[g := Settle(s.groups[g])]
  {
    hide Insert, Weights, TreeOk, GroupsOk, ServingOk, Settle;
    BaseFacts(s);
    var gs := s.groups[g := Settle(s.groups[g])];
    SettleKeeps(s.groups[g]);
    TreeFrame(s.groups, gs, s.tree);
    InsertTree(gs, s.tree, g);
    var tree := Insert(gs, s.tree, g);
    AddedGroups(s, g, gs, tree);
    AddedServing(s, g, gs, tree);
  }

  lemma SettleKeeps(x: Group)
    ensures Settle(x).vtime == x.vtime && Settle(x).queues == x.queues
  {
  }

  lemma TreeDelOk(s: Cfqd, g: nat)
    requires Base(s) && g in s.tree && s.serving != Some(g)
    ensures Base(TreeDel(s, g))
    ensures forall x :: x in TreeDel(s, g).tree <==> x in s.tree && x != g
  {
    WithoutTree(s.groups, s.tree, g);
    hide Without, Weights, TreeOk;
  }

  /** Changing only the number of queues, or a weight still to come. */
  lemma TouchOk(s: Cfqd, g: nat, x: Group)
    requires Base(s) && g in s.groups && x.weight == s.groups[g].weight && x.newWeight > 0
    requires g in s.tree ==> x.vtime == s.groups[g].vtime
    ensures Base(s.(groups := s.groups[g := x]))
  {
    var gs := s.groups[g := x];
    TreeFrame(s.groups, gs, s.tree);
    hide Weights, TreeOk;
  }

  lemma QueueAddOk(s: Cfqd, g: nat)
    requires Inv(s) && g in s.groups
    ensures Inv(QueueAdd(s, g))
  {
    var x := s.groups[g].(queues := s.groups[g].queues + 1);
    if g in s.tree {
      TouchOk(s, g, x);
      hide Base;
    } else {
      JoinOk(s, g);
      hide Base, Insert;
    }
  }

  /** The time a group joins with is at least that of every group on the tree. */
  function JoinTime(s: Cfqd): nat
    requires Known(s.groups, s.tree)
  {
    if s.tree == [] then s.minVtime else s.groups[s.tree[|s.tree| - 1]].vtime + s.idleDelay
  }

  lemma JoinOk(s: Cfqd, g: nat)
    requires Base(s) && g in s.groups && g !in s.tree && Known(s.groups, s.tree)
    ensures Base(QueueAdd(s, g)) && forall x :: x in QueueAdd(s, g).tree <==> x in s.tree || x == g
    ensures var x := s.groups[g].(queues := s.groups[g].queues + 1, vtime := JoinTime(s));
            QueueAdd(s, g).groups == s.groups[g := Settle(x)]
  {
    hide Base, TreeAdd, Settle;
    JoinLast(s);
    var x := s.groups[g].(queues := s.groups[g].queues + 1, vtime := JoinTime(s));
    NewWeightOk(s, g);
    TouchOk(s, g, x);
    var s1 := s.(groups := s.groups[g := x]);
    TreeAddOk(s1, g);
    SameJoin(s, g);
  }

  lemma NewWeightOk(s: Cfqd, g: nat)
    requires Base(s) && g in s.groups
    ensures s.groups[g].weight > 0 && s.groups[g].newWeight > 0 && (g in s.tree ==> s.minVtime <= s.groups[g].vtime)
  {
  }

  lemma JoinLast(s: Cfqd)
    requires Base(s)
    ensures s.minVtime <= JoinTime(s)
    ensures s.serving.Some? ==> s.serving.value in s.tree && s.serving.value in s.groups
                                && s.groups[s.serving.value].vtime <= JoinTime(s)
  {
    if s.tree != [] {
      LastIsLargest(s);
    }
  }

  lemma SameJoin(s: Cfqd, g: nat)
    requires g in s.groups && g !in s.tree && Known(s.groups, s.tree)
    ensures var x := s.groups[g].(queues := s.groups[g].queues + 1, vtime := JoinTime(s));
            QueueAdd(s, g) == TreeAdd(s.(groups := s.groups[g := x]), g)
  {
    hide TreeAdd;
  }

  lemma LastIsLargest(s: Cfqd)
    requires Base(s) && s.tree != []
    ensures var v := s.groups[s.tree[|s.tree| - 1]].vtime;
            s.minVtime <= v && (s.serving.Some? ==> s.groups[s.serving.value].vtime <= v)
  {
    assert s.tree[|s.tree| - 1] in s.tree;
  }

  lemma QueueDelOk(s: Cfqd, g: nat)
    requires Inv(s) && g in s.groups && s.groups[g].queues > 0
    ensures Inv(QueueDel(s, g))
  {
    hide Base, Without;
    var x := s.groups[g].(queues := s.groups[g].queues - 1);
    var s1 := s.(groups := s.groups[g := x]);
    NewWeightOk(s, g);
    TouchOk(s, g, x);
    if x.queues == 0 {
      var s2 := s1.(serving := if s.serving == Some(g) then None else s.serving);
      NobodyServed(s1);
      TreeDelOk(s2, g);
    }
  }

  lemma GetNextOk(s: Cfqd)
    requires Inv(s)
    ensures Inv(GetNext(s)) && s.minVtime <= GetNext(s).minVtime
    ensures if s.tree == [] then GetNext(s).serving.None?
            else GetNext(s).serving == Some(s.tree[0])
                 && forall x :: x in s.tree ==> s.groups[s.tree[0]].vtime <= s.groups[x].vtime
  {
    if s.tree != [] {
      assert s.tree[0] in s.tree;
      FirstIsSmallest(s.groups, s.tree);
    }
    hide Weights, TreeOk;
  }

  lemma FirstIsSmallest(gs: Groups, l: seq<nat>)
    requires TreeOk(gs, l) && l != []
    ensures forall x :: x in l ==> gs[l[0]].vtime <= gs[x].vtime
  {
    forall x | x in l
      ensures gs[l[0]].vtime <= gs[x].vtime
    {
      var i :| 0 <= i < |l| && l[i] == x;
      assert i == 0 || 0 < i;
    }
  }

  lemma SetWeightOk(s: Cfqd, g: nat, weight: nat)
    requires Inv(s) && g in s.groups && weight > 0
    ensures Inv(SetWeight(s, g, weight))
  {
    TouchOk(s, g, s.groups[g].(newWeight := weight, update := true));
    hide Base;
  }

  lemma NobodyServed(s: Cfqd)
    requires Base(s)
    ensures Base(s.(serving := None))
  {
  }

  lemma ServedBase(s: Cfqd, g: nat, charge: nat)
    requires Base(s) && g in s.tree && g in s.groups && Known(s.groups, s.tree) && s.groups[g].weight > 0
    ensures Base(Served(s, g, charge))
    ensures forall x :: x in Served(s, g, charge).tree <==> x in s.tree
    ensures var x := s.groups[g];
            Served(s, g, charge).groups == s.groups[g := Settle(x.(vtime := x.vtime + Scale(charge, x.weight)))]
  {
    hide Base, TreeAdd, Without, Scale, Settle;
    NewWeightOk(s, g);
    NobodyServed(s);
    var x, s0 := s.groups[g], s.(serving := None);
    TreeDelOk(s0, g);
    var x' := x.(vtime := x.vtime + Scale(charge, x.weight));
    var s1 := TreeDel(s0, g);
    TouchOk(s1, g, x');
    TreeAddOk(s1.(groups := s.groups[g := x']), g);
  }

  /** Serving a group on the tree keeps the invariant. */
  lemma ServedOk(s: Cfqd, g: nat, charge: nat)
    requires Inv(s) && g in s.tree
    ensures Inv(Served(s, g, charge))
    ensures forall x :: x in Served(s, g, charge).tree <==> x in s.tree
    ensures var x := s.groups[g];
            Served(s, g, charge).groups == s.groups[g := Settle(x.(vtime := x.vtime + Scale(charge, x.weight)))]
  {
    BaseFacts(s);
    ServedBase(s, g, charge);
    hide Base, Served, Scale;
  }

  /** The group must be on the tree: off it, charging a group counts it without
      ever taking its weight off the total. */
  lemma ServedNeedsTree(s: Cfqd, g: nat, charge: nat)
    requires Base(s) && g in s.groups && g !in s.tree && Known(s.groups, s.tree) && s.groups[g].weight > 0
    ensures var s' := Served(s, g, charge);
            Known(s'.groups, s'.tree) && s'.totalWeight == Weights(s'.groups, s'.tree) - s.groups[g].weight
  {
    hide Without, Insert, Weights, Scale, Sorted, Distinct, Settle;
    var x := s.groups[g];
    var x1 := x.(vtime := x.vtime + Scale(charge, x.weight));
    var gs := s.groups[g := Settle(x1)];
    WithoutAbsent(s.tree, g);
    assert s.groups[g := x1][g := Settle(x1)] == gs;
    TreeFrame(s.groups, gs, s.tree);
    InsertTree(gs, s.tree, g);
  }

  // ------------------------------------------------------------------------ runs

  /** What happens to the groups; a service may be charged to any group on the
      tree. */
  datatype Event = Add(g: nat) | Del(g: nat) | Weigh(g: nat, weight: nat) | Choose | Serve(g: nat, charge: nat)

  ghost predicate Enabled(s: Cfqd, e: Event) {
    match e
    case Add(g) => g in s.groups
    case Del(g) => g in s.groups && s.groups[g].queues > 0
    case Weigh(g, weight) => g in s.groups && weight > 0
    case Choose => true
    case Serve(g, _) => g in s.tree
  }

  ghost function Step(s: Cfqd, e: Event): Cfqd
    requires Inv(s) && Enabled(s, e)
  {
    match e
    case Add(g) => QueueAdd(s, g)
    case Del(g) => QueueDel(s, g)
    case Weigh(g, weight) => SetWeight(s, g, weight)
    case Choose => GetNext(s)
    case Serve(g, charge) => BaseFacts(s); Served(s, g, charge)
  }

  /** Every step keeps the invariant, and the smallest time never goes back. */
  lemma StepOk(s: Cfqd, e: Event)
    requires Inv(s) && Enabled(s, e)
    ensures Inv(Step(s, e)) && s.minVtime <= Step(s, e).minVtime
  {
    match e {
      case Add(g) => QueueAddOk(s, g);
      case Del(g) => QueueDelOk(s, g);
      case Weigh(g, weight) => SetWeightOk(s, g, weight);
      case Choose => GetNextOk(s);
      case Serve(g, charge) => ServedOk(s, g, charge);
    }
    hide Inv, Insert, Without, Scale;
  }

  ghost predicate Legal(s: Cfqd, es: seq<Event>)
    requires Inv(s)
    decreases |es|
  {
    es == [] || (Enabled(s, es[0]) && (StepOk(s, es[0]); Legal(Step(s, es[0]), es[1..])))
  }

  ghost function Run(s: Cfqd, es: seq<Event>): Cfqd
    requires Inv(s) && Legal(s, es)
    decreases |es|
  {
    if es == [] then s else StepOk(s, es[0]); Run(Step(s, es[0]), es[1..])
  }

  /** Over a whole run the smallest time never decreases nor passes a queued
      group, and the total weight is the sum of the queued weights. */
  lemma {:induction false} RunInv(s: Cfqd, es: seq<Event>)
    requires Inv(s) && Legal(s, es)
    ensures var r := Run(s, es);
            && Inv(r) && s.minVtime <= r.minVtime && Known(r.groups, r.tree)
            && (forall g :: g in r.tree ==> r.minVtime <= r.groups[g].vtime)
            && r.totalWeight == Weights(r.groups, r.tree)
    decreases |es|
  {
    if es == [] {
      BaseFacts(s);
    } else {
      StepOk(s, es[0]);
      RunInv(Step(s, es[0]), es[1..]);
    }
    hide Inv, Step, Enabled, Weights;
  }

  // ------------------------------------------------------------------ fair shares

  /** The groups in `those` stay on the tree during the run. */
  ghost predicate Backlogged(s: Cfqd, es: seq<Event>, those: set<nat>)
    requires Inv(s) && Legal(s, es)
    decreases |es|
  {
    && (forall g :: g in those ==> g in s.tree)
    && (es != [] ==> (StepOk(s, es[0]); Backlogged(Step(s, es[0]), es[1..], those)))
  }

  /** Every service is charged to the group that was chosen last. */
  ghost predicate ToChosen(s: Cfqd, es: seq<Event>)
    requires Inv(s) && Legal(s, es)
    decreases |es|
  {
    es != [] ==> && (es[0].Serve? ==> s.serving == Some(es[0].g))
                 && (StepOk(s, es[0]); ToChosen(Step(s, es[0]), es[1..]))
  }

  /** What a step adds to the time of `g`. */
  ghost function Charge(s: Cfqd, e: Event, g: nat): nat
    requires Inv(s) && Enabled(s, e)
  {
    if e.Serve? && e.g == g then BaseFacts(s); Scale(e.charge, s.groups[g].weight) else 0
  }

  /** No charge to a group in `those` exceeds `most`. */
  ghost predicate Charges(s: Cfqd, es: seq<Event>, those: set<nat>, most: nat)
    requires Inv(s) && Legal(s, es)
    decreases |es|
  {
    es != [] ==> && (forall g :: g in those ==> Charge(s, es[0], g) <= most)
                 && (StepOk(s, es[0]); Charges(Step(s, es[0]), es[1..], those, most))
  }

  /** The scaled service `g` gets in a run. */
  ghost function Gained(s: Cfqd, es: seq<Event>, g: nat): nat
    requires Inv(s) && Legal(s, es)
    decreases |es|
  {
    if es == [] then 0 else StepOk(s, es[0]); Charge(s, es[0], g) + Gained(Step(s, es[0]), es[1..], g)
  }

  /** No two groups in `those` are more than `d` apart. */
  ghost predicate Within(s: Cfqd, those: set<nat>, d: nat) {
    && (forall g :: g in those ==> g in s.groups)
    && (forall a, b :: a in those && b in those ==> s.groups[a].vtime <= s.groups[b].vtime + d)
  }

  /** A group that stays on the tree moves only by what it is charged. */
  lemma StepTime(s: Cfqd, e: Event, g: nat)
    requires Inv(s) && Enabled(s, e) && g in s.tree && g in Step(s, e).tree
    ensures g in s.groups && g in Step(s, e).groups
    ensures Step(s, e).groups[g].vtime == s.groups[g].vtime + Charge(s, e, g)
  {
    hide Base, TreeAdd, TreeDel, Scale, Served;
    BaseFacts(s);
    match e {
      case Add(h) =>
        if h !in s.tree {
          JoinOk(s, h);
        }
      case Del(h) => DelGroups(s, h);
      case Weigh(h, _) =>
      case Choose =>
      case Serve(h, charge) => ServedOk(s, h, charge);
    }
  }

  lemma DelGroups(s: Cfqd, g: nat)
    requires g in s.groups && s.groups[g].queues > 0
    ensures QueueDel(s, g).groups == s.groups[g := s.groups[g].(queues := s.groups[g].queues - 1)]
  {
  }

  /** The group that is charged is no further than any other on the tree. */
  lemma ChargedIsSmallest(s: Cfqd, e: Event, g: nat, h: nat)
    requires Inv(s) && Enabled(s, e) && Charge(s, e, g) > 0 && h in s.tree && (e.Serve? ==> s.serving == Some(e.g))
    ensures g in s.groups && h in s.groups && s.groups[g].vtime <= s.groups[h].vtime
  {
    BaseFacts(s);
    hide Base, Scale;
  }

  lemma StepWithin(s: Cfqd, e: Event, those: set<nat>, d: nat)
    requires Inv(s) && Enabled(s, e) && Within(s, those, d) && forall g :: g in those ==> Charge(s, e, g) <= d
    requires e.Serve? ==> s.serving == Some(e.g)
    requires forall g :: g in those ==> g in s.tree && g in Step(s, e).tree
    ensures Within(Step(s, e), those, d)
  {
    hide Inv, Step, Charge, Enabled;
    forall g | g in those
      ensures g in s.groups && g in Step(s, e).groups
      ensures Step(s, e).groups[g].vtime == s.groups[g].vtime + Charge(s, e, g)
    {
      StepTime(s, e, g);
    }
    forall a, b | a in those && b in those
      ensures Step(s, e).groups[a].vtime <= Step(s, e).groups[b].vtime + d
    {
      if Charge(s, e, a) > 0 {
        ChargedIsSmallest(s, e, a, b);
      }
    }
  }

  /** Whatever else happens, continuously backlogged groups stay as close together
      as they began, or as the largest scaled charge, whichever is more. */
  lemma {:induction false} SpreadBounded(s: Cfqd, es: seq<Event>, those: set<nat>, d: nat)
    requires Inv(s) && Legal(s, es) && ToChosen(s, es) && Backlogged(s, es, those) && Charges(s, es, those, d)
    requires Within(s, those, d)
    ensures Within(Run(s, es), those, d)
    decreases |es|
  {
    hide Inv, Step, Charge, Enabled, Within;
    if es != [] {
      StepOk(s, es[0]);
      StepWithin(s, es[0], those, d);
      SpreadBounded(Step(s, es[0]), es[1..], those, d);
    }
  }

  lemma {:induction false} GainedTime(s: Cfqd, es: seq<Event>, those: set<nat>, g: nat)
    requires Inv(s) && Legal(s, es) && Backlogged(s, es, those) && g in those
    ensures g in s.groups && g in Run(s, es).groups
    ensures Run(s, es).groups[g].vtime == s.groups[g].vtime + Gained(s, es, g)
    decreases |es|
  {
    BaseFacts(s);
    hide Base, Step, Charge, Enabled;
    if es != [] {
      StepOk(s, es[0]);
      StepTime(s, es[0], g);
      GainedTime(Step(s, es[0]), es[1..], those, g);
    }
  }

  /** So two backlogged groups get the same scaled service, to within twice that. */
  lemma FairShare(s: Cfqd, es: seq<Event>, those: set<nat>, d: nat, a: nat, b: nat)
    requires Inv(s) && Legal(s, es) && ToChosen(s, es) && Backlogged(s, es, those) && Charges(s, es, those, d)
    requires Within(s, those, d)
    requires a in those && b in those
    ensures Gained(s, es, a) <= Gained(s, es, b) + 2 * d
  {
    SpreadBounded(s, es, those, d);
    GainedTime(s, es, those, a);
    GainedTime(s, es, those, b);
    hide Inv, Legal, Run, Gained, Backlogged, Charges, ToChosen;
  }

  /** The service charged to `g` in a run, and how often it was charged. */
  ghost function Raw(es: seq<Event>, g: nat): nat {
    if es == [] then 0 else (if es[0].Serve? && es[0].g == g then es[0].charge else 0) + Raw(es[1..], g)
  }

  ghost function Times(es: seq<Event>, g: nat): nat {
    if es == [] then 0 else (if es[0].Serve? && es[0].g == g then 1 else 0) + Times(es[1..], g)
  }

  /** `g` has weight `w` throughout the run. */
  ghost predicate Steady(s: Cfqd, es: seq<Event>, g: nat, w: nat)
    requires Inv(s) && Legal(s, es)
    decreases |es|
  {
    && g in s.groups && s.groups[g].weight == w
    && (es != [] ==> (StepOk(s, es[0]); Steady(Step(s, es[0]), es[1..], g, w)))
  }

  lemma Distribute(a: nat, b: nat, k: nat)
    ensures (a + b) * k == a * k + b * k
  {
  }

  /** The scaled service of a group of steady weight is its service over its
      weight, less than one unit short for every time it was charged. */
  lemma {:induction false} GainedRaw(s: Cfqd, es: seq<Event>, g: nat, w: nat)
    requires Inv(s) && Legal(s, es) && Steady(s, es, g, w)
    ensures Gained(s, es, g) * w <= Raw(es, g) * UNIT <= (Gained(s, es, g) + Times(es, g)) * w
    decreases |es|
  {
    hide Inv, Step, Enabled, Scale, UNIT;
    if es != [] {
      StepOk(s, es[0]);
      var s' := Step(s, es[0]);
      GainedRaw(s', es[1..], g, w);
      var c, rest := Charge(s, es[0], g), Gained(s', es[1..], g);
      if es[0].Serve? && es[0].g == g {
        ScaledCharge(s, es[0], g);
        MoreGained(c, rest, es[0].charge, Raw(es[1..], g), Times(es[1..], g), w);
      }
    }
  }

  lemma ScaledCharge(s: Cfqd, e: Event, g: nat)
    requires Inv(s) && Enabled(s, e) && e.Serve? && e.g == g && g in s.groups
    ensures var c, w := Charge(s, e, g), s.groups[g].weight; c * w <= e.charge * UNIT <= (c + 1) * w
  {
    BaseFacts(s);
    hide Inv;
  }

  lemma MoreGained(c: nat, rest: nat, charge: nat, raw: nat, n: nat, w: nat)
    requires c * w <= charge * UNIT <= (c + 1) * w && rest * w <= raw * UNIT <= (rest + n) * w
    ensures (c + rest) * w <= (charge + raw) * UNIT <= (c + rest + (1 + n)) * w
  {
    hide UNIT;
    Distribute(c, rest, w);
    Distribute(charge, raw, UNIT);
    Distribute(c + 1, rest + n, w);
    assert c + rest + (1 + n) == c + 1 + (rest + n);
  }

  lemma CrossMultiply(a: nat, b: nat, x: nat, y: nat, wa: nat, wb: nat, more: nat)
    requires a <= (x + more) * wa && y * wb <= b && x <= y
    ensures a * wb <= b * wa + more * wa * wb
  {
    MulLe(x + more, y + more, wa);
    MulLe(a, (y + more) * wa, wb);
    Distribute(y, more, wa);
    Distribute(y * wa, more * wa, wb);
    Exchange(y, wa, wb);
    MulLe(y * wb, b, wa);
  }

  lemma Exchange(y: nat, wa: nat, wb: nat)
    ensures y * wa * wb == y * wb * wa
  {
  }

  lemma MulLe(a: nat, b: nat, k: nat)
    requires a <= b
    ensures a * k <= b * k
  {
  }

  /** Shares by weight: over any run, two backlogged groups of steady weights are
      charged service in proportion to their weights, but for twice the largest
      scaled charge (or the distance they began with) and one unit of rounding
      for every charge. */
  lemma WeightedShare(s: Cfqd, es: seq<Event>, those: set<nat>, d: nat, a: nat, b: nat, wa: nat, wb: nat)
    requires Inv(s) && Legal(s, es) && ToChosen(s, es) && Backlogged(s, es, those) && Charges(s, es, those, d)
    requires Within(s, those, d) && a in those && b in those && Steady(s, es, a, wa) && Steady(s, es, b, wb)
    ensures Raw(es, a) * UNIT * wb <= Raw(es, b) * UNIT * wa + (2 * d + Times(es, a)) * wa * wb
  {
    hide Inv, Legal, Gained, Backlogged, Charges, ToChosen, Steady, Raw, Times, UNIT;
    FairShare(s, es, those, d, a, b);
    GainedRaw(s, es, a, wa);
    GainedRaw(s, es, b, wb);
    ShareFrom(Raw(es, a) * UNIT, Raw(es, b) * UNIT, Gained(s, es, a), Gained(s, es, b), wa, wb, 2 * d, Times(es, a));
  }

  lemma ShareFrom(a: nat, b: nat, x: nat, y: nat, wa: nat, wb: nat, d: nat, n: nat)
    requires a <= (x + n) * wa && y * wb <= b && x <= y + d
    ensures a * wb <= b * wa + (d + n) * wa * wb
  {
    MulLe(x + n, y + (d + n), wa);
    CrossMultiply(a, b, y, y, wa, wb, d + n);
  }

  // ------------------------------------------------------------------- the code

  class CfqData {
    var s: Cfqd

    constructor (idleDelay: nat, groups: Groups)
      requires forall g :: g in groups ==> groups[g].weight > 0 && groups[g].newWeight > 0 && groups[g].queues == 0
      ensures Inv(s) && s.idleDelay == idleDelay && s.groups == groups && s.tree == []
    {
      s := Cfqd(idleDelay, groups, [], None, 0, 0, None);
    }

    /** cfq_rb_first_group, with the cache filled. */
    method FirstGroup() returns (g: Option<nat>)
      requires Inv(s)
      modifies this
      ensures s == old(s).(left := g) && g == if s.tree == [] then None else Some(s.tree[0])
    {
      hide TreeOk, GroupsOk, ServingOk, Weights;
      if s.left.None? && s.tree != [] {
        s := s.(left := Some(s.tree[0]));
      }
      g := s.left;
    }

    /** __cfq_group_service_tree_add: the walk down the tree, as a walk along the
        groups in order. */
    method TreeLink(g: nat)
      requires TreeOk(s.groups, s.tree) && g in s.groups && g !in s.tree
      modifies this
      ensures var tree := Insert(old(s).groups, old(s).tree, g);
              tree != [] && s == old(s).(tree := tree, left := if tree[0] == g then Some(g) else old(s).left)
    {
      var i, left := 0, true;
      ghost var l := s.tree;
      while i < |s.tree| && s.groups[g].vtime >= s.groups[s.tree[i]].vtime
        invariant i <= |l| && left == (i == 0) && s == old(s)
        invariant forall j :: 0 <= j < i ==> s.groups[l[j]].vtime <= s.groups[g].vtime
      {
        i, left := i + 1, false;
      }
      InsertIs(s.groups, l, g, i);
      hide Insert;
      if left {
        s := s.(left := Some(g));
      }
      s := s.(tree := s.tree[..i] + [g] + s.tree[i..]);
    }

    /** cfq_group_service_tree_add. */
    method ServiceTreeAdd(g: nat)
      requires TreeOk(s.groups, s.tree) && g in s.groups && g !in s.tree
      modifies this
      ensures s == TreeAdd(old(s), g)
    {
      ghost var was := s;
      if s.groups[g].update {
        s := s.(groups := s.groups[g := s.groups[g].(weight := s.groups[g].newWeight, update := false)]);
      }
      assert s.groups == was.groups[g := Settle(was.groups[g])];
      SettledTree(was, g);
      TreeLink(g);
      s := s.(totalWeight := s.totalWeight + s.groups[g].weight);
    }

    /** cfq_group_service_tree_del. */
    method ServiceTreeDel(g: nat)
      requires g in s.groups
      modifies this
      ensures s == TreeDel(old(s), g)
    {
      s := s.(totalWeight := s.totalWeight - s.groups[g].weight);
      if g in s.tree {
        if s.left == Some(g) {
          s := s.(left := None);
        }
        s := s.(tree := Without(s.tree, g));
      } else {
        WithoutAbsent(s.tree, g);
      }
    }

    /** cfq_group_notify_queue_add. */
    method QueueAdded(g: nat)
      requires Inv(s) && g in s.groups
      modifies this
      ensures Known(old(s).groups, old(s).tree) && s == QueueAdd(old(s), g) && Inv(s)
    {
      BaseFacts(s);
      QueueAddOk(s, g);
      hide Base, TreeAdd, Insert, Weights;
      var x := s.groups[g].(queues := s.groups[g].queues + 1);
      if g in s.tree {
        s := s.(groups := s.groups[g := x]);
        return;
      }
      SameJoin(s, g);
      JoinTree(s, g, x.(vtime := JoinTime(s)));
      s := s.(groups := s.groups[g := x.(vtime := JoinTime(s))]);
      ServiceTreeAdd(g);
    }

    /** cfq_group_notify_queue_del; the BUG_ON is the precondition. */
    method QueueDeleted(g: nat)
      requires Inv(s) && g in s.groups && s.groups[g].queues >= 1
      modifies this
      ensures s == QueueDel(old(s), g) && Inv(s)
    {
      QueueDelOk(s, g);
      hide Base, TreeDel;
      s := s.(groups := s.groups[g := s.groups[g].(queues := s.groups[g].queues - 1)]);
      if s.groups[g].queues > 0 {
        return;
      }
      ServiceTreeDel(g);
      if s.serving == Some(g) {
        s := s.(serving := None);
      }
    }

    /** cfq_group_served. */
    method GroupServed(g: nat, charge: nat)
      requires Inv(s) && g in s.tree
      modifies this
      ensures Known(old(s).groups, old(s).tree) && s == Served(old(s), g, charge) && Inv(s)
    {
      hide Base, Served, TreeAdd, TreeDel, Scale, TreeOk;
      ghost var was := s;
      BaseFacts(s);
      NewWeightOk(s, g);
      ServedOk(s, g, charge);
      ServedParts(s, g, charge);
      ServiceTreeDel(g);
      var x := s.groups[g];
      s := s.(groups := s.groups[g := x.(vtime := x.vtime + Scale(charge, x.weight))], serving := None);
      ServiceTreeAdd(g);
    }

    /** cfq_get_next_cfqg. */
    method NextGroup() returns (g: Option<nat>)
      requires Inv(s)
      modifies this
      ensures Known(old(s).groups, old(s).tree) && s == GetNext(old(s)) && Inv(s) && g == s.serving
    {
      GetNextOk(s);
      hide TreeOk, Weights;
      if s.tree == [] {
        s := s.(serving := None);
        return None;
      }
      assert s.tree[0] in s.tree;
      g := FirstGroup();
      var v := s.groups[g.value].vtime;
      if v > s.minVtime {
        s := s.(minVtime := v);
      }
      s := s.(serving := g);
    }
  }

  lemma InsertIs(gs: Groups, l: seq<nat>, g: nat, i: nat)
    requires g in gs && TreeOk(gs, l) && i <= |l|
    requires forall j :: 0 <= j < i ==> gs[l[j]].vtime <= gs[g].vtime
    requires i < |l| ==> gs[g].vtime < gs[l[i]].vtime
    ensures Insert(gs, l, g) == l[..i] + [g] + l[i..]
    ensures Insert(gs, l, g)[0] == g <==> i == 0 || l[0] == g
  {
    var k := InsertAt(gs, l, g);
    hide Insert;
    assert k == i;
  }

  lemma SettledTree(s: Cfqd, g: nat)
    requires TreeOk(s.groups, s.tree) && g in s.groups && g !in s.tree
    ensures TreeOk(s.groups[g := Settle(s.groups[g])], s.tree)
  {
  }

  lemma JoinTree(s: Cfqd, g: nat, x: Group)
    requires Base(s) && g in s.groups && g !in s.tree
    ensures TreeOk(s.groups[g := x], s.tree)
  {
  }

  lemma ServedParts(s: Cfqd, g: nat, charge: nat)
    requires Base(s) && g in s.tree && g in s.groups && s.groups[g].weight > 0 && Known(s.groups, s.tree)
    ensures var x := s.groups[g];
            var s1 := TreeDel(s, g).(groups := s.groups[g := x.(vtime := x.vtime + Scale(charge, x.weight))],
                                     serving := None);
            && TreeDel(s, g).groups == s.groups && TreeOk(s1.groups, s1.tree) && g !in s1.tree
            && Served(s, g, charge) == TreeAdd(s1, g)
  {
    hide Without, Scale, Weights, TreeAdd;
    WithoutTree(s.groups, s.tree, g);
  }
}

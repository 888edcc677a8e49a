/** What the events of a run alone say about CFQ groups: the weight each is
    scheduled with, the virtual disk time a group joins with, and how far
    min_vdisktime has come. */
module CfqRuns {
  import opened Lists
  import opened Cfq

  // ------------------------------------------------------------------- weights

  /** The books of one group: its queues, its weight, and a weight asked for that
      has not taken effect. */
  datatype Account = Account(queues: nat, weight: nat, asked: Option<nat>)

  function Granted(a: Account): Account {
    match a.asked
    case Some(w) => Account(a.queues, w, None)
    case None => a
  }

  /** A weight asked for takes effect when the group is served, or joins with its
      first queue. */
  function Booked(a: Account, e: Event, g: nat): Account {
    match e
    case Add(x) => if x != g then a else (if a.queues == 0 then Granted(a) else a).(queues := a.queues + 1)
    case Del(x) => if x == g && a.queues > 0 then a.(queues := a.queues - 1) else a
    case Weigh(x, w) => if x == g then a.(asked := Some(w)) else a
    case Choose => a
    case Serve(x, _) => if x == g then Granted(a) else a
  }

  function Books(a: Account, es: seq<Event>, g: nat): Account
    decreases |es|
  {
    if es == [] then a else Books(Booked(a, es[0], g), es[1..], g)
  }

  function AccountOf(x: Group): Account {
    Account(x.queues, x.weight, if x.update then Some(x.newWeight) else None)
  }

  lemma SettleGrants(x: Group)
    ensures AccountOf(Settle(x)) == Granted(AccountOf(x))
  {
  }

  lemma AddBooked(s: Cfqd, x: nat, g: nat)
    requires Inv(s) && x in s.groups && g in s.groups && Known(s.groups, s.tree)
    ensures g in QueueAdd(s, x).groups
    ensures AccountOf(QueueAdd(s, x).groups[g]) == Booked(AccountOf(s.groups[g]), Add(x), g)
  {
    if x in s.tree {
      hide Base;
    } else {
      JoinOk(s, x);
      hide Base, QueueAdd, Settle;
      SettleGrants(s.groups[x].(queues := s.groups[x].queues + 1, vtime := JoinTime(s)));
    }
  }

  lemma DelBooked(s: Cfqd, x: nat, g: nat)
    requires x in s.groups && s.groups[x].queues > 0 && g in s.groups
    ensures g in QueueDel(s, x).groups
    ensures AccountOf(QueueDel(s, x).groups[g]) == Booked(AccountOf(s.groups[g]), Del(x), g)
  {
    hide Without;
  }

  lemma ServeBooked(s: Cfqd, x: nat, charge: nat, g: nat)
    requires Inv(s) && x in s.tree && g in s.groups
    requires x in s.groups && s.groups[x].weight > 0 && Known(s.groups, s.tree)
    ensures g in Served(s, x, charge).groups
    ensures AccountOf(Served(s, x, charge).groups[g]) == Booked(AccountOf(s.groups[g]), Serve(x, charge), g)
  {
    ServedOk(s, x, charge);
    hide Inv, Served, Scale, Settle;
    SettleGrants(s.groups[x].(vtime := s.groups[x].vtime + Scale(charge, s.groups[x].weight)));
  }

  lemma StepBooked(s: Cfqd, e: Event, g: nat)
    requires Inv(s) && Enabled(s, e) && g in s.groups
    ensures g in Step(s, e).groups && AccountOf(Step(s, e).groups[g]) == Booked(AccountOf(s.groups[g]), e, g)
  {
    BaseFacts(s);
    hide Base, Scale, QueueAdd, QueueDel, Served;
    match e
    case Add(x) => AddBooked(s, x, g);
    case Del(x) => DelBooked(s, x, g);
    case Weigh(x, w) =>
    case Choose =>
    case Serve(x, charge) =>
      NewWeightOk(s, x);
      ServeBooked(s, x, charge, g);
  }

  /** Over every run each group is scheduled as its books say. */
  lemma {:induction false} RunBooked(s: Cfqd, es: seq<Event>, g: nat)
    requires Inv(s) && Legal(s, es) && g in s.groups
    ensures var r := Run(s, es); g in r.groups && AccountOf(r.groups[g]) == Books(AccountOf(s.groups[g]), es, g)
    decreases |es|
  {
    hide Inv, Step, Enabled, Booked;
    if es != [] {
      StepOk(s, es[0]);
      StepBooked(s, es[0], g);
      RunBooked(Step(s, es[0]), es[1..], g);
    }
  }

  /** The group, which has `queues` queues, is served or joins with its first. */
  predicate Settles(queues: nat, es: seq<Event>, g: nat)
    decreases |es|
  {
    es != [] &&
    match es[0]
    case Add(x) => (x == g && queues == 0) || Settles(if x == g then queues + 1 else queues, es[1..], g)
    case Del(x) => Settles(if x == g && queues > 0 then queues - 1 else queues, es[1..], g)
    case Serve(x, _) => x == g || Settles(queues, es[1..], g)
    case _ => Settles(queues, es[1..], g)
  }

  lemma {:induction false} BooksQuiet(a: Account, es: seq<Event>, g: nat)
    requires forall i :: 0 <= i < |es| ==> !(es[i].Weigh? && es[i].g == g)
    ensures var w := Books(a, es, g).weight;
            w == if a.asked.Some? && Settles(a.queues, es, g) then a.asked.value else a.weight
    decreases |es|
  {
    if es != [] {
      assert forall i :: 0 <= i < |es| - 1 ==> es[1..][i] == es[i + 1];
      BooksQuiet(Booked(a, es[0], g), es[1..], g);
    }
  }

  /** After a weight is asked for, and until another one is, the group keeps its
      weight until it is served or joins again, and then has the one asked for. */
  lemma {:induction false} WeightTakesEffect(s: Cfqd, g: nat, w: nat, es: seq<Event>)
    requires Inv(s) && Legal(s, [Weigh(g, w)] + es)
    requires forall i :: 0 <= i < |es| ==> !(es[i].Weigh? && es[i].g == g)
    ensures var r := Run(s, [Weigh(g, w)] + es);
            && g in s.groups && g in r.groups
            && r.groups[g].weight == if Settles(s.groups[g].queues, es, g) then w else s.groups[g].weight
  {
    var all := [Weigh(g, w)] + es;
    assert all[0] == Weigh(g, w) && all[1..] == es;
    RunBooked(s, all, g);
    BooksQuiet(AccountOf(s.groups[g]).(asked := Some(w)), es, g);
    hide Inv, Run, Legal, Settles;
  }

  // ----------------------------------------------------------- times of joining

  /** A group that gets its first queue joins behind all others, later than each
      by the idle delay at least, and than some exactly; alone it joins at
      min_vdisktime. */
  lemma JoinsLast(s: Cfqd, g: nat)
    requires Inv(s) && g in s.groups && s.groups[g].queues == 0
    ensures Known(s.groups, s.tree) && g in QueueAdd(s, g).groups
    ensures var s' := QueueAdd(s, g);
            && (s.tree == [] ==> s'.groups[g].vtime == s.minVtime)
            && (forall x :: x in s.tree ==> s.groups[x].vtime + s.idleDelay <= s'.groups[g].vtime)
            && (s.tree != [] ==> exists x :: x in s.tree && s.groups[x].vtime + s.idleDelay == s'.groups[g].vtime)
            && (s.idleDelay > 0 ==> s'.tree == s.tree + [g])
            && forall x :: x in s.groups && x != g ==> x in s'.groups && s'.groups[x] == s.groups[x]
  {
    BaseFacts(s);
    JoinOk(s, g);
    SettleKeeps(s.groups[g].(queues := s.groups[g].queues + 1, vtime := JoinTime(s)));
    if s.tree != [] {
      var last := s.tree[|s.tree| - 1];
      assert last in s.tree;
      LastIsLatest(s.groups, s.tree);
    }
    if s.idleDelay > 0 {
      JoinsAtEnd(s, g);
    }
    hide Base, QueueAdd, Settle;
  }

  lemma LastIsLatest(gs: Groups, l: seq<nat>)
    requires TreeOk(gs, l) && l != []
    ensures forall x :: x in l ==> gs[x].vtime <= gs[l[|l| - 1]].vtime
  {
    forall x | x in l
      ensures gs[x].vtime <= gs[l[|l| - 1]].vtime
    {
      var i :| 0 <= i < |l| && l[i] == x;
      assert i == |l| - 1 || i < |l| - 1;
    }
  }

  lemma JoinsAtEnd(s: Cfqd, g: nat)
    requires Inv(s) && g in s.groups && g !in s.tree && s.idleDelay > 0 && Known(s.groups, s.tree)
    ensures QueueAdd(s, g).tree == s.tree + [g]
  {
    hide Inv, Insert, Settle, Weights, TreeOk;
    var x := s.groups[g].(queues := s.groups[g].queues + 1, vtime := JoinTime(s));
    var gs := s.groups[g := Settle(x)];
    SettleKeeps(x);
    TreeThere(s, g, Settle(x));
    if s.tree != [] {
      LastIsLatest(s.groups, s.tree);
    }
    SameJoin(s, g);
    assert s.groups[g := x][g := Settle(x)] == gs;
    InsertLast(gs, s.tree, g);
  }

  lemma TreeThere(s: Cfqd, g: nat, x: Group)
    requires Inv(s) && g in s.groups && g !in s.tree
    ensures TreeOk(s.groups, s.tree) && TreeOk(s.groups[g := x], s.tree)
  {
    hide TreeOk;
    JoinTree(s, g, x);
  }

  lemma InsertLast(gs: Groups, l: seq<nat>, g: nat)
    requires g in gs && TreeOk(gs, l) && forall j :: 0 <= j < |l| ==> gs[l[j]].vtime <= gs[g].vtime
    ensures Insert(gs, l, g) == l + [g]
  {
    hide Insert;
    InsertIs(gs, l, g, |l|);
    assert l[..|l|] + [g] + l[|l|..] == l + [g];
  }

  // ------------------------------------------------------------- min_vdisktime

  /** A choice with groups queued: the group chosen has the smallest time of all,
      and min_vdisktime comes up to it. */
  lemma ChosenIsMin(s: Cfqd)
    requires Inv(s) && s.tree != []
    ensures Known(s.groups, s.tree)
    ensures var s' := GetNext(s);
            && s'.serving.Some? && s'.serving.value in s.tree && s'.minVtime == s.groups[s'.serving.value].vtime
            && forall x :: x in s.tree ==> s'.minVtime <= s.groups[x].vtime
  {
    BaseFacts(s);
    GetNextOk(s);
    assert s.tree[0] in s.tree;
    hide TreeOk, Weights;
  }

  /** The times of the groups chosen during a run. */
  ghost function ChosenTimes(s: Cfqd, es: seq<Event>): seq<nat>
    requires Inv(s) && Legal(s, es)
    decreases |es|
  {
    if es == [] then []
    else
      StepOk(s, es[0]);
      var r := Step(s, es[0]);
      (if es[0].Choose? && r.serving.Some? && r.serving.value in r.groups
       then [r.groups[r.serving.value].vtime] else [])
      + ChosenTimes(r, es[1..])
  }

  function Last(a: nat, l: seq<nat>): nat {
    if l == [] then a else l[|l| - 1]
  }

  predicate Rising(a: nat, l: seq<nat>)
    decreases |l|
  {
    l != [] ==> a <= l[0] && Rising(l[0], l[1..])
  }

  lemma StepChosen(s: Cfqd, e: Event)
    requires Inv(s) && Enabled(s, e)
    ensures var r := Step(s, e);
            if e.Choose? && s.tree != [] then
              r.serving.Some? && r.serving.value in r.groups && r.minVtime == r.groups[r.serving.value].vtime
            else r.minVtime == s.minVtime && (e.Choose? ==> r.serving.None?)
  {
    BaseFacts(s);
    if e.Choose? && s.tree != [] {
      ChosenIsMin(s);
    }
    hide Base, Insert, Without, Scale;
  }

  /** Over every run min_vdisktime is the time of the group chosen last, the
      largest chosen so far, or what it was before any choice; the groups chosen
      have rising times. */
  lemma {:induction false} RunChosen(s: Cfqd, es: seq<Event>)
    requires Inv(s) && Legal(s, es)
    ensures Run(s, es).minVtime == Last(s.minVtime, ChosenTimes(s, es)) && Rising(s.minVtime, ChosenTimes(s, es))
    decreases |es|
  {
    hide Inv, Step, Enabled;
    if es != [] {
      StepOk(s, es[0]);
      StepChosen(s, es[0]);
      var r := Step(s, es[0]);
      RunChosen(r, es[1..]);
      var rest := ChosenTimes(r, es[1..]);
      if es[0].Choose? && s.tree != [] {
        assert ChosenTimes(s, es) == [r.minVtime] + rest && ([r.minVtime] + rest)[1..] == rest;
      } else {
        assert ChosenTimes(s, es) == rest;
      }
    }
  }
}

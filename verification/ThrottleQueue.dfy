/** The queues of block/blk-throttle.c: the per-group bio lists, the service
    tree of busy groups ordered by dispatch time with its cached leftmost node,
    and the dispatch round.

    Groups are records in a map keyed by group number, and the red-black tree is
    a sorted sequence. Every operation is told the time; `clock` is the latest.
 */
module ThrottleQueue {
  import opened Lists
  import opened ThrottleRate
  import ThrottleWait

  const GRP_QUANTUM: nat := 8
  const QUANTUM: nat := 32

  datatype Bio = Bio(id: nat, group: nat, dir: Dir, size: nat)

  datatype Group = Group(disptime: nat, onRr: bool, lists: Two<seq<Bio>>, nrQueued: Two<nat>,
                         limits: Two<Limit>, lanes: Two<Lane>)

  /** A service tree node; `key` is the group's dispatch time. */
  datatype Node = Node(key: nat, id: nat)

  const NEW_LANE := Lane(0, 0, 0, 0, 0, 0)

  /** throtl_data; `ids` is the list of groups and `sent` the bios let through
      to the device, in order. */
  datatype Td = Td(ids: seq<nat>, groups: map<nat, Group>, tree: seq<Node>, left: Option<Node>, count: nat,
                   nrQueued: Two<nat>, sent: seq<Bio>)

  /** What happened so far: the bios that arrived, the events of every lane,
      when the dispatch time of a group was last worked out, and the latest time. */
  datatype Past = Past(arrived: seq<Bio>, trace: map<nat, Two<seq<Event>>>, looked: map<nat, nat>, clock: nat)

  // ------------------------------------------------------------ specification

  predicate Sorted(tree: seq<Node>) {
    forall i, j :: 0 <= i < j < |tree| ==> tree[i].key <= tree[j].key
  }

  predicate DistinctIds(tree: seq<Node>) {
    forall i, j :: 0 <= i < j < |tree| ==> tree[i].id != tree[j].id
  }

  /** The bios of `s` that belong to one direction of one group, in order. */
  function Of(s: seq<Bio>, id: nat, d: Dir): seq<Bio> {
    if s == [] then []
    else
      var b := s[|s| - 1];
      Of(s[..|s| - 1], id, d) + (if b.group == id && b.dir == d then [b] else [])
  }

  /** Bios queued in direction `d` over the groups of `ids`. */
  function Queued(ids: seq<nat>, groups: map<nat, Group>, d: Dir): nat
    requires forall i :: i in ids ==> i in groups
  {
    if ids == [] then 0 else |groups[ids[0]].lists.Get(d)| + Queued(ids[1..], groups, d)
  }

  /** Groups of the tree whose dispatch time has come. */
  function Due(tree: seq<Node>, now: nat): nat {
    if tree == [] then 0 else (if tree[0].key <= now then 1 else 0) + Due(tree[1..], now)
  }

  predicate Busy(g: Group) {
    g.lists.read != [] || g.lists.write != []
  }

  predicate GroupOk(id: nat, g: Group) {
    forall d: Dir ::
      && g.nrQueued.Get(d) == |g.lists.Get(d)|
      && g.limits.Get(d).Valid()
      && (forall b :: b in g.lists.Get(d) ==> b.group == id && b.dir == d)
  }

  /** Direction `d` has nothing that can go at `now`. */
  predicate Blocked(g: Group, d: Dir, now: nat) {
    && g.limits.Get(d).Valid()
    && (g.lists.Get(d) == [] ||
        MayDispatch(g.limits.Get(d), g.lanes.Get(d), now, g.lists.Get(d)[0].size).1 > 0)
  }

  /** The head of direction `d` may go at `now`, and its slice needs no renewal. */
  predicate MayGo(g: Group, d: Dir, now: nat) {
    && g.limits.Get(d).Valid() && g.lists.Get(d) != [] && g.nrQueued.Get(d) > 0
    && MayDispatch(g.limits.Get(d), g.lanes.Get(d), now, g.lists.Get(d)[0].size) == (g.lanes.Get(d), 0)
  }

  /** The limits of the bio's direction let it go at `now`. */
  predicate LaneFree(t: Td, bio: Bio, now: nat) {
    && bio.group in t.groups && t.groups[bio.group].limits.Get(bio.dir).Valid()
    && var g := t.groups[bio.group];
       MayDispatch(g.limits.Get(bio.dir), g.lanes.Get(bio.dir), now, bio.size).1 == 0
  }

  /** A group whose lane `d` was looked at by tg_may_dispatch. */
  function Looked(g: Group, d: Dir, now: nat, size: nat): Group
    requires g.limits.Get(d).Valid()
  {
    g.(lanes := g.lanes.Set(d, MayDispatch(g.limits.Get(d), g.lanes.Get(d), now, size).0))
  }

  /** The wait of the head of direction `d`, if there is one. */
  function HeadWait(g: Group, d: Dir, now: nat): Option<nat>
    requires g.limits.Get(d).Valid()
  {
    if g.lists.Get(d) == [] then None
    else Some(MayDispatch(g.limits.Get(d), g.lanes.Get(d), now, g.lists.Get(d)[0].size).1)
  }

  /** The smaller of two waits; no wait counts as for ever. */
  function Earlier(a: Option<nat>, b: Option<nat>): nat
    requires a.Some? || b.Some?
  {
    if a.None? then b.value else if b.None? || a.value <= b.value then a.value else b.value
  }

  predicate LimitsValid(g: Group) {
    g.limits.read.Valid() && g.limits.write.Valid()
  }

  /** How long a group with queued bios has to wait for the first of its heads. */
  function MinWait(g: Group, now: nat): nat
    requires LimitsValid(g) && Busy(g)
  {
    Earlier(HeadWait(g, Read, now), HeadWait(g, Write, now))
  }

  /** A group whose head of `d`, if any, was looked at. */
  function LookedHead(g: Group, d: Dir, now: nat): Group
    requires g.limits.Get(d).Valid()
  {
    if g.lists.Get(d) == [] then g else Looked(g, d, now, g.lists.Get(d)[0].size)
  }

  /** The dispatch time is what a look at the heads at time `u` gave, and
      the lanes are as that look left them. */
  predicate LookedAt(g: Group, u: nat) {
    && LimitsValid(g) && Busy(g) && g.disptime == u + MinWait(g, u)
    && LookedHead(g, Read, u) == g && LookedHead(g, Write, u) == g
  }

  /** How many bios at the head of `list` may go at `now`, one after the other
      and at most `max`, each charged and the slice trimmed before the next is
      looked at; and the lane afterwards. */
  function Sends(l: Limit, s: Lane, list: seq<Bio>, max: nat, now: nat): (r: (nat, Lane))
    requires l.Valid()
    ensures r.0 <= max && r.0 <= |list|
    decreases max
  {
    if max == 0 || list == [] then (0, s)
    else
      var s1 := Step(l, s, Submit(now, list[0].size));
      if MayDispatch(l, s, now, list[0].size).1 > 0 then (0, s1)
      else
        var (n, s2) := Sends(l, s1, list[1..], max - 1, now);
        (n + 1, s2)
  }

  function Sizes(bios: seq<Bio>): seq<nat> {
    seq(|bios|, i requires 0 <= i < |bios| => bios[i].size)
  }

  /** A group after tg_dispatch_one_bio: the head of `d` is gone and charged. */
  function Popped(g: Group, d: Dir, now: nat): Group
    requires g.limits.Get(d).Valid() && g.lists.Get(d) != [] && g.nrQueued.Get(d) > 0
  {
    var lane := Charge(g.lanes.Get(d), g.lists.Get(d)[0].size);
    g.(lists := g.lists.Set(d, g.lists.Get(d)[1..]),
       nrQueued := g.nrQueued.Set(d, g.nrQueued.Get(d) - 1),
       lanes := g.lanes.Set(d, TrimSlice(g.limits.Get(d), lane, now)))
  }

  // ------------------------------------------------------------------- lemmas

  /** Asking again at the same time gives the same answer and changes nothing. */
  lemma MayDispatchAgain(l: Limit, s: Lane, now: nat, size: nat)
    requires l.Valid()
    ensures var r := MayDispatch(l, s, now, size); MayDispatch(l, r.0, now, size) == r
  {
    RoundUpBounds(now + l.Slice(), l.Slice());
    var s1 := Renew(l, s, now);
    var wait := Wait(l, s1, now, size);
    RoundUpBounds(now + wait, l.Slice());
    var s2 := MayDispatch(l, s, now, size).0;
    assert s2 == s1.(end := s2.end) && s2.end >= s1.end;
    assert Renew(l, s2, now) == s2;
    assert Wait(l, s2, now, size) == wait;
  }

  /** One event more. */
  lemma RunAppend(l: Limit, s: Lane, es: seq<Event>, e: Event, clock: nat)
    requires l.Valid() && InOrder(0, es, clock) && clock <= e.now
    ensures Run(l, s, es + [e]) == Step(l, Run(l, s, es), e)
    ensures Admitted(l, s, es + [e]) == Admitted(l, s, es) + AdmittedNow(l, Run(l, s, es), e)
    ensures InOrder(0, es + [e], e.now)
  {
    hide Step, AdmittedNow;
    assert [e][1..] == [];
    RunConcat(l, s, es, [e]);
    AdmittedConcat(l, s, es, [e]);
    InOrderConcat(0, es, clock, [e], e.now);
    assert Admitted(l, Run(l, s, es), [e]) == AdmittedNow(l, Run(l, s, es), e);
  }

  lemma {:induction false} InOrderLater(now: nat, es: seq<Event>, t: nat, t': nat)
    requires InOrder(now, es, t) && t <= t'
    ensures InOrder(now, es, t')
    decreases |es|
  {
    if es != [] {
      InOrderLater(es[0].now, es[1..], t, t');
    }
  }

  lemma {:induction false} QueuedUpdate(ids: seq<nat>, groups: map<nat, Group>, id: nat, g: Group, d: Dir)
    requires Distinct(ids) && (forall i :: i in ids ==> i in groups) && id in groups
    ensures Queued(ids, groups[id := g], d) ==
            Queued(ids, groups, d) + if id in ids then |g.lists.Get(d)| - |groups[id].lists.Get(d)| else 0
  {
    if ids != [] {
      assert ids == [ids[0]] + ids[1..];
      QueuedUpdate(ids[1..], groups, id, g, d);
    }
  }

  lemma {:induction false} QueuedMember(ids: seq<nat>, groups: map<nat, Group>, id: nat, d: Dir)
    requires (forall i :: i in ids ==> i in groups) && id in ids
    ensures Queued(ids, groups, d) >= |groups[id].lists.Get(d)|
  {
    if id != ids[0] {
      QueuedMember(ids[1..], groups, id, d);
    }
  }

  lemma {:induction false} DueInsert(tree: seq<Node>, i: nat, n: Node, now: nat)
    requires i <= |tree|
    ensures Due(tree[..i] + [n] + tree[i..], now) == Due(tree, now) + if n.key <= now then 1 else 0
  {
    var r := tree[..i] + [n] + tree[i..];
    if i == 0 {
      assert r[1..] == tree;
    } else {
      assert r[1..] == tree[1..][..i - 1] + [n] + tree[1..][i - 1..];
      DueInsert(tree[1..], i - 1, n, now);
    }
  }

  // ------------------------------------------------------- invariants by part

  /** The tree is sorted and indexes exactly the groups flagged on_rr; the
      cached leftmost node is absent or the first. */
  ghost predicate TreeOk(tree: seq<Node>, left: Option<Node>, count: nat, groups: map<nat, Group>) {
    && Sorted(tree) && DistinctIds(tree) && count == |tree|
    && (left.Some? ==> tree != [] && left.value == tree[0])
    && (forall n :: n in tree ==> n.id in groups && groups[n.id].onRr && groups[n.id].disptime == n.key)
    && (forall id :: id in groups && groups[id].onRr ==> Node(groups[id].disptime, id) in tree)
  }

  ghost predicate CountsOk(ids: seq<nat>, groups: map<nat, Group>, nrQueued: Two<nat>) {
    && Distinct(ids) && (forall id :: id in ids <==> id in groups)
    && (forall id :: id in groups ==> GroupOk(id, groups[id]))
    && (forall d: Dir :: nrQueued.Get(d) == Queued(ids, groups, d))
  }

  /** Per direction of a group, what was let through followed by what is queued
      is what arrived, in order. */
  ghost predicate FifoOk(groups: map<nat, Group>, sent: seq<Bio>, arrived: seq<Bio>) {
    forall id, d: Dir :: id in groups ==>
      Of(sent, id, d) + groups[id].lists.Get(d) == Of(arrived, id, d)
  }

  /** Lane `s` is the outcome of its trace of looks and dispatches, and `bios`
      are those that its limits let go, in order. */
  ghost predicate LaneTraced(l: Limit, s: Lane, es: seq<Event>, clock: nat, bios: seq<Bio>) {
    l.Valid() && s == Run(l, NEW_LANE, es) && InOrder(0, es, clock) && Sizes(bios) == Admitted(l, NEW_LANE, es)
  }

  /** Every lane is the outcome of its own trace, and the bios sent are exactly
      those that were let go. */
  ghost predicate TracedOk(groups: map<nat, Group>, trace: map<nat, Two<seq<Event>>>, clock: nat, sent: seq<Bio>) {
    && trace.Keys == groups.Keys
    && forall id, d: Dir :: id in groups ==>
         LaneTraced(groups[id].limits.Get(d), groups[id].lanes.Get(d), trace[id].Get(d), clock, Of(sent, id, d))
  }

  lemma TracedLater(groups: map<nat, Group>, trace: map<nat, Two<seq<Event>>>, clock: nat, sent: seq<Bio>, now: nat)
    requires TracedOk(groups, trace, clock, sent) && clock <= now
    ensures TracedOk(groups, trace, now, sent)
  {
    hide Of, Run, Admitted;
    forall id, d: Dir | id in groups
      ensures LaneTraced(groups[id].limits.Get(d), groups[id].lanes.Get(d), trace[id].Get(d), now, Of(sent, id, d))
    {
      assert LaneTraced(groups[id].limits.Get(d), groups[id].lanes.Get(d), trace[id].Get(d), clock, Of(sent, id, d));
      InOrderLater(0, trace[id].Get(d), clock, now);
    }
  }

  lemma LaneTracedStep(l: Limit, s: Lane, es: seq<Event>, e: Event, bios: seq<Bio>, more: seq<Bio>)
    requires LaneTraced(l, s, es, e.now, bios) && Sizes(more) == AdmittedNow(l, s, e)
    ensures LaneTraced(l, Step(l, s, e), es + [e], e.now, bios + more)
  {
    hide Run, Admitted, Step, AdmittedNow, InOrder;
    RunAppend(l, NEW_LANE, es, e, e.now);
    assert Sizes(bios + more) == Sizes(bios) + Sizes(more);
  }

  /** One more event on one lane of one group, which lets the bios `more` go. */
  lemma TracedStep(groups: map<nat, Group>, trace: map<nat, Two<seq<Event>>>, id: nat, d: Dir, g: Group, e: Event,
                   sent: seq<Bio>, sent': seq<Bio>, more: seq<Bio>)
    requires TracedOk(groups, trace, e.now, sent) && id in groups
    requires groups[id].limits.Get(d).Valid() && g.limits == groups[id].limits
    requires g.lanes == groups[id].lanes.Set(d, Step(g.limits.Get(d), groups[id].lanes.Get(d), e))
    requires Sizes(more) == AdmittedNow(g.limits.Get(d), groups[id].lanes.Get(d), e)
    requires forall i, d': Dir ::
               Of(sent', i, d') == if i == id && d' == d then Of(sent, i, d') + more else Of(sent, i, d')
    ensures TracedOk(groups[id := g], trace[id := trace[id].Set(d, trace[id].Get(d) + [e])], e.now, sent')
  {
    hide LaneTraced, Step, AdmittedNow, Of, Sizes;
    var es := trace[id].Get(d);
    assert LaneTraced(groups[id].limits.Get(d), groups[id].lanes.Get(d), es, e.now, Of(sent, id, d));
    LaneTracedStep(g.limits.Get(d), groups[id].lanes.Get(d), es, e, Of(sent, id, d), more);
    var groups', trace' := groups[id := g], trace[id := trace[id].Set(d, es + [e])];
    forall i, d': Dir | i in groups'
      ensures LaneTraced(groups'[i].limits.Get(d'), groups'[i].lanes.Get(d'), trace'[i].Get(d'), e.now,
                         Of(sent', i, d'))
    {
      assert Of(sent', i, d') == if i == id && d' == d then Of(sent, i, d') + more else Of(sent, i, d');
      assert LaneTraced(groups[i].limits.Get(d'), groups[i].lanes.Get(d'), trace[i].Get(d'), e.now, Of(sent, i, d'));
    }
  }

  lemma OfSnoc(s: seq<Bio>, b: Bio, id: nat, d: Dir)
    ensures Of(s + [b], id, d) == Of(s, id, d) + if b.group == id && b.dir == d then [b] else []
  {
    assert (s + [b])[..|s|] == s;
  }

  lemma Reassociate(a: seq<Bio>, b: Bio, c: seq<Bio>)
    ensures a + [b] + c == a + ([b] + c)
  {
  }

  lemma FifoPop(groups: map<nat, Group>, sent: seq<Bio>, arrived: seq<Bio>, id: nat, d: Dir, g: Group)
    requires FifoOk(groups, sent, arrived) && id in groups && GroupOk(id, groups[id])
    requires groups[id].lists.Get(d) != []
    requires g.lists == groups[id].lists.Set(d, groups[id].lists.Get(d)[1..])
    ensures FifoOk(groups[id := g], sent + [groups[id].lists.Get(d)[0]], arrived)
  {
    var list := groups[id].lists.Get(d);
    var b := list[0];
    assert b.group == id && b.dir == d && list == [b] + list[1..];
    var groups', sent' := groups[id := g], sent + [b];
    hide Of, GroupOk;
    forall i, d': Dir | i in groups'
      ensures Of(sent', i, d') + groups'[i].lists.Get(d') == Of(arrived, i, d')
    {
      OfSnoc(sent, b, i, d');
      assert Of(sent, i, d') + groups[i].lists.Get(d') == Of(arrived, i, d');
      if i == id && d' == d {
        Reassociate(Of(sent, i, d'), b, list[1..]);
      } else {
        assert groups'[i].lists.Get(d') == groups[i].lists.Get(d');
      }
    }
  }

  lemma FifoPush(groups: map<nat, Group>, sent: seq<Bio>, arrived: seq<Bio>, b: Bio, g: Group)
    requires FifoOk(groups, sent, arrived) && b.group in groups
    requires g.lists == groups[b.group].lists.Set(b.dir, groups[b.group].lists.Get(b.dir) + [b])
    ensures FifoOk(groups[b.group := g], sent, arrived + [b])
  {
    var groups', arrived' := groups[b.group := g], arrived + [b];
    assert arrived'[..|arrived'| - 1] == arrived;
    forall i, d: Dir | i in groups'
      ensures Of(sent, i, d) + groups'[i].lists.Get(d) == Of(arrived', i, d)
    {
      assert Of(sent, i, d) + groups[i].lists.Get(d) == Of(arrived, i, d);
      if i == b.group && d == b.dir {
        assert Of(sent, i, d) + (groups[i].lists.Get(d) + [b]) == Of(sent, i, d) + groups[i].lists.Get(d) + [b];
      }
    }
  }

  lemma FifoPass(groups: map<nat, Group>, sent: seq<Bio>, arrived: seq<Bio>, b: Bio, g: Group)
    requires FifoOk(groups, sent, arrived) && b.group in groups && g.lists == groups[b.group].lists
    requires groups[b.group].lists.Get(b.dir) == []
    ensures FifoOk(groups[b.group := g], sent + [b], arrived + [b])
  {
    var sent', arrived' := sent + [b], arrived + [b];
    assert arrived'[..|arrived'| - 1] == arrived && sent'[..|sent'| - 1] == sent;
    forall i, d: Dir | i in groups
      ensures Of(sent', i, d) + groups[i].lists.Get(d) == Of(arrived', i, d)
    {
      assert Of(sent, i, d) + groups[i].lists.Get(d) == Of(arrived, i, d);
    }
  }

  lemma CountsUpdate(ids: seq<nat>, groups: map<nat, Group>, nrQueued: Two<nat>, id: nat, g: Group,
                     nrQueued': Two<nat>)
    requires CountsOk(ids, groups, nrQueued) && id in groups && GroupOk(id, g)
    requires forall d: Dir ::
      nrQueued'.Get(d) + |groups[id].lists.Get(d)| == nrQueued.Get(d) + |g.lists.Get(d)|
    ensures CountsOk(ids, groups[id := g], nrQueued')
  {
    QueuedUpdate(ids, groups, id, g, Read);
    QueuedUpdate(ids, groups, id, g, Write);
  }

  lemma TreeFrame(tree: seq<Node>, left: Option<Node>, count: nat, groups: map<nat, Group>, id: nat, g: Group)
    requires TreeOk(tree, left, count, groups) && id in groups
    requires g.disptime == groups[id].disptime && g.onRr == groups[id].onRr
    ensures TreeOk(tree, left, count, groups[id := g])
  {
  }

  lemma TracedFrame(groups: map<nat, Group>, trace: map<nat, Two<seq<Event>>>, clock: nat, sent: seq<Bio>,
                    id: nat, g: Group)
    requires TracedOk(groups, trace, clock, sent) && id in groups
    requires g.limits == groups[id].limits && g.lanes == groups[id].lanes
    ensures TracedOk(groups[id := g], trace, clock, sent)
  {
    hide LaneTraced, Of;
    var groups' := groups[id := g];
    forall i, d: Dir | i in groups'
      ensures LaneTraced(groups'[i].limits.Get(d), groups'[i].lanes.Get(d), trace[i].Get(d), clock, Of(sent, i, d))
    {
      assert LaneTraced(groups[i].limits.Get(d), groups[i].lanes.Get(d), trace[i].Get(d), clock, Of(sent, i, d));
    }
  }

  lemma FifoFrame(groups: map<nat, Group>, sent: seq<Bio>, arrived: seq<Bio>, id: nat, g: Group)
    requires FifoOk(groups, sent, arrived) && id in groups && g.lists == groups[id].lists
    ensures FifoOk(groups[id := g], sent, arrived)
  {
  }

  lemma {:induction false} NoneQueued(ids: seq<nat>, groups: map<nat, Group>, d: Dir)
    requires forall id :: id in ids ==> id in groups && !Busy(groups[id])
    ensures Queued(ids, groups, d) == 0
  {
    if ids != [] {
      NoneQueued(ids[1..], groups, d);
    }
  }

  lemma InsertMembers(tree: seq<Node>, n: Node, i: nat)
    requires i <= |tree|
    ensures forall m :: m in tree[..i] + [n] + tree[i..] <==> m == n || m in tree
  {
    assert tree == tree[..i] + tree[i..];
  }

  lemma InsertTree(tree: seq<Node>, n: Node, i: nat)
    requires Sorted(tree) && DistinctIds(tree) && i <= |tree|
    requires forall m :: m in tree ==> m.id != n.id
    requires forall j :: 0 <= j < i ==> tree[j].key <= n.key
    requires forall j :: i <= j < |tree| ==> n.key <= tree[j].key
    ensures var r := tree[..i] + [n] + tree[i..];
            Sorted(r) && DistinctIds(r) && forall m :: m in r <==> m == n || m in tree
  {
    hide Sorted, DistinctIds;
    InsertMembers(tree, n, i);
    InsertSorted(tree, n, i);
    InsertDistinct(tree, n, i);
  }

  lemma InsertSorted(tree: seq<Node>, n: Node, i: nat)
    requires Sorted(tree) && i <= |tree|
    requires forall j :: 0 <= j < i ==> tree[j].key <= n.key
    requires forall j :: i <= j < |tree| ==> n.key <= tree[j].key
    ensures Sorted(tree[..i] + [n] + tree[i..])
  {
    var r := tree[..i] + [n] + tree[i..];
    assert forall k :: 0 <= k < |r| ==> r[k] == if k < i then tree[k] else if k == i then n else tree[k - 1];
  }

  lemma InsertDistinct(tree: seq<Node>, n: Node, i: nat)
    requires DistinctIds(tree) && i <= |tree| && forall m :: m in tree ==> m.id != n.id
    ensures DistinctIds(tree[..i] + [n] + tree[i..])
  {
    var r := tree[..i] + [n] + tree[i..];
    assert forall k :: 0 <= k < |r| ==> r[k] == if k < i then tree[k] else if k == i then n else tree[k - 1];
    assert forall j :: 0 <= j < |tree| ==> tree[j].id != n.id;
  }

  lemma PoppedOk(id: nat, g: Group, d: Dir, now: nat)
    requires GroupOk(id, g) && g.lists.Get(d) != []
    ensures GroupOk(id, Popped(g, d, now))
  {
    hide TrimSlice, Charge;
    var g' := Popped(g, d, now);
    forall d': Dir
      ensures g'.nrQueued.Get(d') == |g'.lists.Get(d')| && g'.limits.Get(d').Valid()
      ensures forall b :: b in g'.lists.Get(d') ==> b.group == id && b.dir == d'
    {
      assert g.nrQueued.Get(d') == |g.lists.Get(d')|;
    }
  }

  // ------------------------------------------------------------- whole states

  /** What holds at every point, also while a group is off the tree. */
  ghost predicate Base(t: Td, p: Past) {
    && TreeOk(t.tree, t.left, t.count, t.groups)
    && CountsOk(t.ids, t.groups, t.nrQueued)
    && FifoOk(t.groups, t.sent, p.arrived)
    && TracedOk(t.groups, p.trace, p.clock, t.sent)
  }

  /** A group is on the service tree exactly when it has queued bios, and then
      its dispatch time is from a look at the heads it still has. */
  ghost predicate Timed(id: nat, g: Group, p: Past) {
    && (g.onRr <==> Busy(g))
    && (g.onRr ==> id in p.looked && p.looked[id] <= p.clock && LookedAt(g, p.looked[id]))
  }

  /** Between calls this holds of every group. */
  ghost predicate Valid(t: Td, p: Past) {
    Base(t, p) && forall id :: id in t.groups ==> Timed(id, t.groups[id], p)
  }

  function With(t: Td, id: nat, g: Group): Td {
    t.(groups := t.groups[id := g])
  }

  /** Only the record of group `id` differs between two states. */
  ghost predicate OnlyGroup(t: Td, t': Td, id: nat) {
    id in t.groups && id in t'.groups && t' == With(t, id, t'.groups[id])
  }

  ghost function Happened(p: Past, id: nat, d: Dir, e: Event): Past
    requires id in p.trace
  {
    p.(trace := p.trace[id := p.trace[id].Set(d, p.trace[id].Get(d) + [e])], clock := e.now)
  }

  function Look(t: Td, id: nat, d: Dir, now: nat, size: nat): Td
    requires id in t.groups && t.groups[id].limits.Get(d).Valid()
  {
    With(t, id, Looked(t.groups[id], d, now, size))
  }

  function Pop(t: Td, id: nat, d: Dir, now: nat): Td
    requires id in t.groups && GroupOk(id, t.groups[id]) && t.groups[id].lists.Get(d) != [] && t.nrQueued.Get(d) > 0
  {
    With(t, id, Popped(t.groups[id], d, now)).(
      nrQueued := t.nrQueued.Set(d, t.nrQueued.Get(d) - 1),
      sent := t.sent + [t.groups[id].lists.Get(d)[0]])
  }

  lemma BaseGroup(t: Td, p: Past, id: nat)
    requires Base(t, p) && id in t.groups
    ensures GroupOk(id, t.groups[id]) && id in p.trace
  {
    assert id in p.trace.Keys;
  }

  lemma LookBase(t: Td, p: Past, id: nat, d: Dir, now: nat, size: nat)
    requires Base(t, p) && id in t.groups && GroupOk(id, t.groups[id]) && id in p.trace && p.clock <= now
    ensures Base(Look(t, id, d, now, size), Happened(p, id, d, Probe(now, size)))
  {
    hide MayDispatch, Queued, Of, Run, InOrder;
    var g := Looked(t.groups[id], d, now, size);
    TracedLater(t.groups, p.trace, p.clock, t.sent, now);
    assert Of(t.sent, id, d) + [] == Of(t.sent, id, d) && Sizes([]) == [];
    TracedStep(t.groups, p.trace, id, d, g, Probe(now, size), t.sent, t.sent, []);
    CountsUpdate(t.ids, t.groups, t.nrQueued, id, g, t.nrQueued);
    TreeFrame(t.tree, t.left, t.count, t.groups, id, g);
    FifoFrame(t.groups, t.sent, p.arrived, id, g);
  }

  /** The event of letting the head of `d` go. */
  function GoEvent(g: Group, d: Dir, now: nat): Event
    requires g.lists.Get(d) != []
  {
    Submit(now, g.lists.Get(d)[0].size)
  }

  lemma OfSnocAll(sent: seq<Bio>, b: Bio)
    ensures forall i, d: Dir ::
              Of(sent + [b], i, d) == if i == b.group && d == b.dir then Of(sent, i, d) + [b] else Of(sent, i, d)
  {
    forall i, d: Dir
      ensures Of(sent + [b], i, d) == if i == b.group && d == b.dir then Of(sent, i, d) + [b] else Of(sent, i, d)
    {
      OfSnoc(sent, b, i, d);
    }
  }

  lemma PoppedTraced(groups: map<nat, Group>, trace: map<nat, Two<seq<Event>>>, id: nat, d: Dir, now: nat,
                     sent: seq<Bio>)
    requires TracedOk(groups, trace, now, sent) && id in groups && MayGo(groups[id], d, now) && GroupOk(id, groups[id])
    ensures TracedOk(groups[id := Popped(groups[id], d, now)],
                     trace[id := trace[id].Set(d, trace[id].Get(d) + [GoEvent(groups[id], d, now)])], now,
                     sent + [groups[id].lists.Get(d)[0]])
  {
    hide Of, TracedOk, TrimSlice, MayDispatch;
    var b := groups[id].lists.Get(d)[0];
    assert b.group == id && b.dir == d;
    OfSnocAll(sent, b);
    assert Sizes([b]) == [b.size];
    TracedStep(groups, trace, id, d, Popped(groups[id], d, now), GoEvent(groups[id], d, now), sent, sent + [b], [b]);
  }

  lemma PoppedCounts(ids: seq<nat>, groups: map<nat, Group>, nrQueued: Two<nat>, id: nat, d: Dir, now: nat)
    requires CountsOk(ids, groups, nrQueued) && id in groups && groups[id].lists.Get(d) != []
    requires GroupOk(id, groups[id])
    ensures nrQueued.Get(d) > 0
    ensures CountsOk(ids, groups[id := Popped(groups[id], d, now)], nrQueued.Set(d, nrQueued.Get(d) - 1))
  {
    QueuedMember(ids, groups, id, d);
    PoppedOk(id, groups[id], d, now);
    CountsUpdate(ids, groups, nrQueued, id, Popped(groups[id], d, now), nrQueued.Set(d, nrQueued.Get(d) - 1));
  }

  lemma PopBase(t: Td, p: Past, id: nat, d: Dir)
    requires Base(t, p) && id in t.groups && GroupOk(id, t.groups[id]) && id in p.trace
    requires MayGo(t.groups[id], d, p.clock)
    ensures t.nrQueued.Get(d) > 0
    ensures Base(Pop(t, id, d, p.clock), Happened(p, id, d, GoEvent(t.groups[id], d, p.clock)))
  {
    var g := Popped(t.groups[id], d, p.clock);
    hide MayDispatch, Queued, Of, Run, InOrder, TrimSlice, Charge, TreeOk, CountsOk, FifoOk, TracedOk, GroupOk;
    PoppedTraced(t.groups, p.trace, id, d, p.clock, t.sent);
    PoppedCounts(t.ids, t.groups, t.nrQueued, id, d, p.clock);
    TreeFrame(t.tree, t.left, t.count, t.groups, id, g);
    FifoPop(t.groups, t.sent, p.arrived, id, d, g);
  }

  // ---------------------------------------------------- effects of dispatching

  /** From `t` to `t'`, lane `d` of group `id` let its first `n` bios out, in
      order and counted off; nothing else changed but that lane. */
  ghost predicate LaneSent(t: Td, t': Td, id: nat, d: Dir, n: nat) {
    && id in t.groups && id in t'.groups && n <= |t.groups[id].lists.Get(d)|
    && t' == With(t, id, t'.groups[id]).(nrQueued := t'.nrQueued, sent := t'.sent)
    && t'.sent == t.sent + t.groups[id].lists.Get(d)[..n]
    && (forall d': Dir :: t'.nrQueued.Get(d') == t.nrQueued.Get(d') - if d' == d then n else 0)
    && var g, g' := t.groups[id], t'.groups[id];
       && g'.disptime == g.disptime && g'.onRr == g.onRr && g'.limits == g.limits
       && g'.lists == g.lists.Set(d, g.lists.Get(d)[n..])
       && g'.lanes == g.lanes.Set(d, g'.lanes.Get(d))
  }

  /** And these `n` bios are as many of at most `max` as may go at `now`, one
      after the other; the lane was charged for each. */
  ghost predicate LaneServed(t: Td, t': Td, id: nat, d: Dir, max: nat, now: nat, n: nat) {
    && LaneSent(t, t', id, d, n) && t.groups[id].limits.Get(d).Valid()
    && Sends(t.groups[id].limits.Get(d), t.groups[id].lanes.Get(d), t.groups[id].lists.Get(d), max, now)
       == (n, t'.groups[id].lanes.Get(d))
  }

  lemma LaneSentNone(t: Td, id: nat, d: Dir)
    requires id in t.groups
    ensures LaneSent(t, t, id, d, 0)
  {
    assert t.groups == t.groups[id := t.groups[id]];
  }

  lemma LaneSentTrans(t: Td, t1: Td, t2: Td, id: nat, d: Dir, m: nat, n: nat)
    requires LaneSent(t, t1, id, d, m) && LaneSent(t1, t2, id, d, n)
    ensures LaneSent(t, t2, id, d, m + n) && id in t2.groups
  {
    var l := t.groups[id].lists.Get(d);
    assert l[..m + n] == l[..m] + l[m..][..n];
    assert l[m..][n..] == l[m + n..];
  }

  lemma LookSent(t: Td, id: nat, d: Dir, now: nat, size: nat)
    requires id in t.groups && t.groups[id].limits.Get(d).Valid()
    ensures LaneSent(t, Look(t, id, d, now, size), id, d, 0)
  {
    hide MayDispatch;
  }

  lemma PopSent(t: Td, id: nat, d: Dir, now: nat)
    requires id in t.groups && GroupOk(id, t.groups[id]) && t.groups[id].lists.Get(d) != [] && t.nrQueued.Get(d) > 0
    ensures LaneSent(t, Pop(t, id, d, now), id, d, 1)
  {
    hide TrimSlice, Charge, MayDispatch;
  }

  lemma EmptyBlocked(id: nat, g: Group, d: Dir, now: nat)
    requires GroupOk(id, g) && g.lists.Get(d) == []
    ensures Blocked(g, d, now)
  {
  }

  /** After a look, the head either may go without a further look or is blocked. */
  lemma LookHead(t: Td, id: nat, d: Dir, now: nat, size: nat)
    requires id in t.groups && GroupOk(id, t.groups[id])
    requires t.groups[id].lists.Get(d) != [] && size == t.groups[id].lists.Get(d)[0].size
    ensures LaneSent(t, Look(t, id, d, now, size), id, d, 0)
    ensures var g := t.groups[id];
            var t', wait := Look(t, id, d, now, size), MayDispatch(g.limits.Get(d), g.lanes.Get(d), now, size).1;
            && id in t'.groups && t'.groups[id].lists.Get(d) == g.lists.Get(d)
            && (wait == 0 ==> MayGo(t'.groups[id], d, now))
            && (wait > 0 ==> Blocked(t'.groups[id], d, now))
  {
    LookSent(t, id, d, now, size);
    MayDispatchAgain(t.groups[id].limits.Get(d), t.groups[id].lanes.Get(d), now, size);
    hide MayDispatch, LaneSent;
  }

  /** Nothing to send, or a head that must wait: the lane was at most looked at. */
  lemma HeadStays(t: Td, t': Td, id: nat, d: Dir, now: nat)
    requires id in t.groups && t.groups[id].limits.Get(d).Valid()
    requires t' == if t.groups[id].lists.Get(d) == [] then t else Look(t, id, d, now, t.groups[id].lists.Get(d)[0].size)
    requires LaneSent(t, t', id, d, 0)
    requires t.groups[id].lists.Get(d) != [] ==>
               MayDispatch(t.groups[id].limits.Get(d), t.groups[id].lanes.Get(d), now,
                           t.groups[id].lists.Get(d)[0].size).1 > 0
    ensures LaneServed(t, t', id, d, 1, now, 0)
  {
    hide MayDispatch, LaneSent;
  }

  /** A head that may go was looked at, charged and its slice trimmed. */
  lemma HeadGoes(t: Td, t1: Td, t2: Td, id: nat, d: Dir, now: nat)
    requires id in t.groups && GroupOk(id, t.groups[id]) && t.groups[id].lists.Get(d) != []
    requires MayDispatch(t.groups[id].limits.Get(d), t.groups[id].lanes.Get(d), now,
                         t.groups[id].lists.Get(d)[0].size).1 == 0
    requires t1 == Look(t, id, d, now, t.groups[id].lists.Get(d)[0].size) && GroupOk(id, t1.groups[id])
    requires t1.nrQueued.Get(d) > 0 && t2 == Pop(t1, id, d, now) && LaneSent(t, t2, id, d, 1)
    ensures LaneServed(t, t2, id, d, 1, now, 1)
  {
    hide MayDispatch, LaneSent, TrimSlice, Charge;
    var (g, b) := (t.groups[id], t.groups[id].lists.Get(d)[0]);
    assert t2.groups[id].lanes.Get(d) == Step(g.limits.Get(d), g.lanes.Get(d), Submit(now, b.size));
    var lane := t2.groups[id].lanes.Get(d);
    assert Sends(g.limits.Get(d), lane, g.lists.Get(d)[1..], 0, now) == (0, lane);
  }

  /** One turn of the loop over a lane. */
  lemma SendsTurn(t: Td, t': Td, id: nat, d: Dir, max: nat, now: nat, ok: bool)
    requires LaneServed(t, t', id, d, 1, now, if ok then 1 else 0) && max > 0
    ensures id in t.groups && id in t'.groups && t.groups[id].limits.Get(d).Valid()
    ensures t'.groups[id].limits == t.groups[id].limits
    ensures var g, g' := t.groups[id], t'.groups[id];
            var (n, lane) := Sends(g.limits.Get(d), g.lanes.Get(d), g.lists.Get(d), max, now);
            if ok then
              var (n', lane') := Sends(g.limits.Get(d), g'.lanes.Get(d), g'.lists.Get(d), max - 1, now);
              n == n' + 1 && lane == lane'
            else n == 0 && lane == g'.lanes.Get(d)
  {
    hide MayDispatch, Step;
    var g, g' := t.groups[id], t'.groups[id];
    if g.lists.Get(d) != [] {
      var s1 := Step(g.limits.Get(d), g.lanes.Get(d), Submit(now, g.lists.Get(d)[0].size));
      assert Sends(g.limits.Get(d), s1, g.lists.Get(d)[1..], 0, now) == (0, s1);
    }
  }

  /** From `t` to `t'`, group `id` let `n` bios out, as many reads as may go up
      to `maxReads`, and then as many writes up to `maxWrites`; nothing else
      changed but its lanes, which were charged for them. */
  ghost predicate GroupServed(t: Td, t': Td, id: nat, maxReads: nat, maxWrites: nat, now: nat, n: nat) {
    && id in t.groups && id in t'.groups && LimitsValid(t.groups[id])
    && t' == With(t, id, t'.groups[id]).(nrQueued := t'.nrQueued, sent := t'.sent)
    && var g, g' := t.groups[id], t'.groups[id];
       var (nr, readLane) := Sends(g.limits.read, g.lanes.read, g.lists.read, maxReads, now);
       var (nw, writeLane) := Sends(g.limits.write, g.lanes.write, g.lists.write, maxWrites, now);
       && n == nr + nw
       && t'.sent == t.sent + g.lists.read[..nr] + g.lists.write[..nw]
       && t'.nrQueued.read == t.nrQueued.read - nr && t'.nrQueued.write == t.nrQueued.write - nw
       && g'.lists == Two(g.lists.read[nr..], g.lists.write[nw..])
       && g'.lanes == Two(readLane, writeLane) && g'.limits == g.limits
       && g'.disptime == g.disptime && g'.onRr == g.onRr
  }

  /** What the dispatch round needs to know of that. */
  ghost predicate GroupSent(t: Td, t': Td, id: nat, n: nat) {
    && id in t.groups && id in t'.groups
    && t' == With(t, id, t'.groups[id]).(nrQueued := t'.nrQueued, sent := t'.sent)
    && t'.nrQueued.read + t'.nrQueued.write + n == t.nrQueued.read + t.nrQueued.write
    && t.sent <= t'.sent && |t'.sent| == |t.sent| + n
    && t'.groups[id].disptime == t.groups[id].disptime && t'.groups[id].onRr == t.groups[id].onRr
    && (n == 0 ==> t'.groups[id].lists == t.groups[id].lists)
  }

  lemma GroupServedBoth(t: Td, t1: Td, t2: Td, id: nat, maxReads: nat, maxWrites: nat, now: nat, m: nat, n: nat)
    requires LaneServed(t, t1, id, Read, maxReads, now, m) && LaneServed(t1, t2, id, Write, maxWrites, now, n)
    ensures GroupServed(t, t2, id, maxReads, maxWrites, now, m + n)
  {
    hide Sends;
    var g, g1, g2 := t.groups[id], t1.groups[id], t2.groups[id];
    assert t1.nrQueued.Get(Read) == t.nrQueued.Get(Read) - m && t1.nrQueued.Get(Write) == t.nrQueued.Get(Write);
    assert t2.nrQueued.Get(Read) == t1.nrQueued.Get(Read) && t2.nrQueued.Get(Write) == t1.nrQueued.Get(Write) - n;
    assert g2.lists == Two(g.lists.read[m..], g.lists.write[n..]);
    assert g2.lanes == Two(g1.lanes.read, g2.lanes.write);
  }

  lemma GroupSentBoth(t: Td, t1: Td, t2: Td, id: nat, m: nat, n: nat)
    requires LaneSent(t, t1, id, Read, m) && LaneSent(t1, t2, id, Write, n)
    ensures GroupSent(t, t2, id, m + n)
  {
    assert t1.nrQueued.Get(Read) == t.nrQueued.Get(Read) - m && t1.nrQueued.Get(Write) == t.nrQueued.Get(Write);
    assert t2.nrQueued.Get(Read) == t1.nrQueued.Get(Read) && t2.nrQueued.Get(Write) == t1.nrQueued.Get(Write) - n;
  }

  lemma StillBlocked(t: Td, t': Td, id: nat, now: nat)
    requires LaneSent(t, t', id, Write, 0) && Blocked(t.groups[id], Read, now)
    ensures Blocked(t'.groups[id], Read, now)
  {
  }

  // ------------------------------------------------------------ the service tree

  /** Where a new key goes: after every key no greater. */
  function InsertPos(tree: seq<Node>, key: nat): (i: nat)
    ensures i <= |tree|
  {
    if tree == [] || key < tree[0].key then 0 else 1 + InsertPos(tree[1..], key)
  }

  lemma {:induction false} InsertPosSplits(tree: seq<Node>, key: nat)
    requires Sorted(tree)
    ensures var i := InsertPos(tree, key);
            && (forall j :: 0 <= j < i ==> tree[j].key <= key)
            && (forall j :: i <= j < |tree| ==> key < tree[j].key)
  {
    if tree != [] && tree[0].key <= key {
      InsertPosSplits(tree[1..], key);
      var i := InsertPos(tree, key);
      assert forall j :: 1 <= j < |tree| ==> tree[j] == tree[1..][j - 1];
    }
  }

  function Erase(tree: seq<Node>, id: nat): seq<Node> {
    if tree == [] then [] else if tree[0].id == id then tree[1..] else [tree[0]] + Erase(tree[1..], id)
  }

  lemma {:induction false} EraseAt(tree: seq<Node>, i: nat)
    requires DistinctIds(tree) && i < |tree|
    ensures Erase(tree, tree[i].id) == tree[..i] + tree[i + 1..]
  {
    if i > 0 {
      EraseAt(tree[1..], i - 1);
      assert tree[..i] + tree[i + 1..] == [tree[0]] + (tree[1..][..i - 1] + tree[1..][i..]);
    }
  }

  lemma EraseIndex(tree: seq<Node>, i: nat)
    requires Sorted(tree) && DistinctIds(tree) && i < |tree|
    ensures var r := tree[..i] + tree[i + 1..];
            Sorted(r) && DistinctIds(r) && forall m :: m in r <==> m in tree && m != tree[i]
  {
    var r := tree[..i] + tree[i + 1..];
    assert forall k :: 0 <= k < |r| ==> r[k] == if k < i then tree[k] else tree[k + 1];
    forall m | m in tree && m != tree[i]
      ensures m in r
    {
      var k :| 0 <= k < |tree| && tree[k] == m;
      assert r[if k < i then k else k - 1] == m;
    }
  }

  lemma EraseTree(tree: seq<Node>, n: Node)
    requires Sorted(tree) && DistinctIds(tree) && n in tree
    ensures var r := Erase(tree, n.id);
            && Sorted(r) && DistinctIds(r) && |r| == |tree| - 1
            && (forall m :: m in r <==> m in tree && m != n)
            && (tree[0] != n ==> r != [] && r[0] == tree[0])
  {
    var i :| 0 <= i < |tree| && tree[i] == n;
    EraseIndex(tree, i);
    EraseAt(tree, i);
    hide Erase, Sorted, DistinctIds;
  }

  /** throtl_enqueue_tg with tg_service_tree_add. */
  function Enqueue(t: Td, id: nat): Td
    requires id in t.groups
  {
    var g := t.groups[id];
    if g.onRr then t
    else
      var n := Node(g.disptime, id);
      var i := InsertPos(t.tree, n.key);
      With(t, id, g.(onRr := true)).(
        tree := t.tree[..i] + [n] + t.tree[i..],
        left := if i == 0 then Some(n) else t.left,
        count := t.count + 1)
  }

  /** throtl_dequeue_tg with throtl_rb_erase. */
  function Dequeue(t: Td, id: nat): Td
    requires id in t.groups && (t.groups[id].onRr ==> t.count > 0)
  {
    var g := t.groups[id];
    if !g.onRr then t
    else
      With(t, id, g.(onRr := false)).(
        tree := Erase(t.tree, id),
        left := if t.left == Some(Node(g.disptime, id)) then None else t.left,
        count := t.count - 1)
  }

  ghost predicate TdTreeOk(t: Td) {
    TreeOk(t.tree, t.left, t.count, t.groups)
  }

  lemma EnqueueTree(t: Td, id: nat)
    requires TdTreeOk(t) && id in t.groups
    ensures TdTreeOk(Enqueue(t, id))
  {
    hide TdTreeOk;
    if !t.groups[id].onRr {
      EnqueueNewTree(t, id);
    }
  }

  lemma EnqueueNewTree(t: Td, id: nat)
    requires TdTreeOk(t) && id in t.groups && !t.groups[id].onRr
    ensures TdTreeOk(Enqueue(t, id))
  {
    var n := Node(t.groups[id].disptime, id);
    var i := InsertPos(t.tree, n.key);
    InsertPosSplits(t.tree, n.key);
    assert t.count == |t.tree| && forall m :: m in t.tree ==> m.id != id;
    hide InsertPos, Sorted, DistinctIds, TreeOk;
    InsertTree(t.tree, n, i);
    InsertedTree(t.tree, t.left, t.groups, n, i, t.tree[..i] + [n] + t.tree[i..]);
  }

  lemma InsertedTree(tree: seq<Node>, left: Option<Node>, groups: map<nat, Group>, n: Node, i: nat, r: seq<Node>)
    requires TreeOk(tree, left, |tree|, groups) && n.id in groups && !groups[n.id].onRr
    requires n.key == groups[n.id].disptime && i <= |tree|
    requires Sorted(r) && DistinctIds(r) && |r| == |tree| + 1 && forall m :: m in r <==> m == n || m in tree
    requires r[i] == n && (i > 0 ==> r[0] == tree[0])
    ensures TreeOk(r, if i == 0 then Some(n) else left, |tree| + 1, groups[n.id := groups[n.id].(onRr := true)])
  {
    hide Sorted, DistinctIds;
  }

  lemma DequeueTree(t: Td, id: nat)
    requires TdTreeOk(t) && id in t.groups
    ensures t.groups[id].onRr ==> t.count > 0
    ensures TdTreeOk(Dequeue(t, id)) && !Dequeue(t, id).groups[id].onRr
  {
    var g := t.groups[id];
    if g.onRr {
      EraseTree(t.tree, Node(g.disptime, id));
    }
  }

  lemma EnqueueDue(t: Td, id: nat, now: nat)
    requires id in t.groups && !t.groups[id].onRr
    ensures Due(Enqueue(t, id).tree, now) == Due(t.tree, now) + if t.groups[id].disptime <= now then 1 else 0
  {
    DueInsert(t.tree, InsertPos(t.tree, t.groups[id].disptime), Node(t.groups[id].disptime, id), now);
  }

  /** Flags and dispatch time are of no concern to the other three parts. */
  lemma FlagsBase(t: Td, p: Past, id: nat, t': Td)
    requires Base(t, p) && id in t.groups && id in t'.groups && TdTreeOk(t')
    requires t' == With(t, id, t'.groups[id]).(tree := t'.tree, left := t'.left, count := t'.count)
    requires t'.groups[id] == t.groups[id].(disptime := t'.groups[id].disptime, onRr := t'.groups[id].onRr)
    ensures Base(t', p)
  {
    hide Run, InOrder, Of, Queued, TreeOk;
    var g := t'.groups[id];
    assert GroupOk(id, t.groups[id]);
    hide FifoOk, TracedOk;
    CountsUpdate(t.ids, t.groups, t.nrQueued, id, g, t.nrQueued);
    FifoFrame(t.groups, t.sent, p.arrived, id, g);
    TracedFrame(t.groups, p.trace, p.clock, t.sent, id, g);
  }

  lemma EnqueueBase(t: Td, p: Past, id: nat)
    requires Base(t, p) && id in t.groups
    ensures Base(Enqueue(t, id), p)
  {
    EnqueueTree(t, id);
    assert t.groups == t.groups[id := t.groups[id]];
    FlagsBase(t, p, id, Enqueue(t, id));
  }

  lemma DequeueBase(t: Td, p: Past, id: nat)
    requires Base(t, p) && id in t.groups
    ensures t.groups[id].onRr ==> t.count > 0
    ensures Base(Dequeue(t, id), p)
  {
    DequeueTree(t, id);
    assert t.groups == t.groups[id := t.groups[id]];
    FlagsBase(t, p, id, Dequeue(t, id));
  }

  /** A group moved to a new dispatch time: off the tree, then on again. */
  function Requeue(t: Td, id: nat, disptime: nat): Td
    requires id in t.groups && (t.groups[id].onRr ==> t.count > 0)
  {
    var t1 := Dequeue(t, id);
    Enqueue(With(t1, id, t1.groups[id].(disptime := disptime)), id)
  }

  lemma RequeueBase(t: Td, p: Past, id: nat, disptime: nat)
    requires Base(t, p) && id in t.groups
    ensures t.groups[id].onRr ==> t.count > 0
    ensures Base(Requeue(t, id, disptime), p)
  {
    DequeueBase(t, p, id);
    DequeueTree(t, id);
    var t1 := Dequeue(t, id);
    var t2 := With(t1, id, t1.groups[id].(disptime := disptime));
    RetimedTree(t1, id, disptime);
    hide TreeOk, CountsOk, FifoOk, TracedOk, Enqueue, Dequeue;
    FlagsBase(t1, p, id, t2);
    EnqueueBase(t2, p, id);
  }

  lemma RetimedTree(t: Td, id: nat, disptime: nat)
    requires TdTreeOk(t) && id in t.groups && !t.groups[id].onRr
    ensures TdTreeOk(With(t, id, t.groups[id].(disptime := disptime)))
  {
  }

  lemma DequeueEffect(t: Td, id: nat)
    requires id in t.groups && (t.groups[id].onRr ==> t.count > 0)
    ensures var t' := Dequeue(t, id);
            && t'.groups == t.groups[id := t.groups[id].(onRr := false)]
            && t'.ids == t.ids && t'.nrQueued == t.nrQueued && t'.sent == t.sent
  {
    assert t.groups == t.groups[id := t.groups[id]];
  }

  lemma EnqueueEffect(t: Td, id: nat)
    requires id in t.groups
    ensures var t' := Enqueue(t, id);
            && t'.groups == t.groups[id := t.groups[id].(onRr := true)]
            && t'.ids == t.ids && t'.nrQueued == t.nrQueued && t'.sent == t.sent
  {
    assert t.groups == t.groups[id := t.groups[id]];
  }

  lemma RequeueEffect(t: Td, id: nat, disptime: nat)
    requires id in t.groups && (t.groups[id].onRr ==> t.count > 0)
    ensures var t' := Requeue(t, id, disptime);
            && t'.groups == t.groups[id := t.groups[id].(disptime := disptime, onRr := true)]
            && t'.ids == t.ids && t'.nrQueued == t.nrQueued && t'.sent == t.sent
  {
    DequeueEffect(t, id);
    var t1 := Dequeue(t, id);
    EnqueueEffect(With(t1, id, t1.groups[id].(disptime := disptime)), id);
    hide Enqueue, Dequeue;
  }

  lemma RequeueDue(t: Td, id: nat, disptime: nat, now: nat)
    requires id in t.groups && !t.groups[id].onRr
    ensures Due(Requeue(t, id, disptime).tree, now) == Due(t.tree, now) + if disptime <= now then 1 else 0
  {
    EnqueueDue(With(t, id, t.groups[id].(disptime := disptime)), id, now);
  }

  /** Every group but `id` is on the tree exactly when it has queued bios, and timed. */
  ghost predicate OthersOk(t: Td, p: Past, id: nat) {
    forall i :: i in t.groups && i != id ==> Timed(i, t.groups[i], p)
  }

  function TotalQueued(t: Td): nat {
    t.nrQueued.read + t.nrQueued.write
  }

  function NewTd(ids: seq<nat>, limits: map<nat, Two<Limit>>): Td {
    var groups := map id | id in limits ::
      Group(0, false, Two([], []), Two(0, 0), limits[id], Two(NEW_LANE, NEW_LANE));
    Td(ids, groups, [], None, 0, Two(0, 0), [])
  }

  lemma NewValid(ids: seq<nat>, limits: map<nat, Two<Limit>>)
    requires Distinct(ids) && forall id :: id in ids <==> id in limits
    requires forall id, d: Dir :: id in limits ==> limits[id].Get(d).Valid()
    ensures Valid(NewTd(ids, limits), Past([], map id | id in limits :: Two([], []), map[], 0))
  {
    var t, p := NewTd(ids, limits), Past([], map id | id in limits :: Two([], []), map[], 0);
    NewCounts(t);
    NewFifo(t.groups);
    hide Queued, Of, CountsOk, FifoOk;
    forall id, d: Dir | id in t.groups
      ensures LaneTraced(t.groups[id].limits.Get(d), t.groups[id].lanes.Get(d), p.trace[id].Get(d), p.clock,
                         Of(t.sent, id, d))
    {
      assert t.groups[id].lanes.Get(d) == NEW_LANE && p.trace[id].Get(d) == [];
      NoneOf(id, d);
    }
  }

  lemma NoneOf(id: nat, d: Dir)
    ensures Of([], id, d) == [] && Sizes([]) == []
  {
  }

  lemma NewCounts(t: Td)
    requires Distinct(t.ids) && (forall id :: id in t.ids <==> id in t.groups) && t.nrQueued == Two(0, 0)
    requires forall id :: id in t.groups ==> !Busy(t.groups[id]) && t.groups[id].nrQueued == Two(0, 0)
    requires forall id, d: Dir :: id in t.groups ==> t.groups[id].limits.Get(d).Valid()
    ensures CountsOk(t.ids, t.groups, t.nrQueued)
  {
    NoneQueued(t.ids, t.groups, Read);
    NoneQueued(t.ids, t.groups, Write);
    hide Queued;
  }

  lemma NewFifo(groups: map<nat, Group>)
    requires forall id :: id in groups ==> !Busy(groups[id])
    ensures FifoOk(groups, [], [])
  {
  }

  /** Looking at a head changes neither lists nor flags. */
  ghost predicate SameButLanes(t: Td, t': Td, id: nat) {
    OnlyGroup(t, t', id) && t'.groups[id] == t.groups[id].(lanes := t'.groups[id].lanes)
  }

  /** The group just served is back on the tree, or has nothing left. */
  lemma ServedValid(t: Td, t1: Td, id: nat, p: Past)
    requires id in t.groups && id in t1.groups && OthersOk(t, p, id) && Base(t1, p)
    requires t1.groups == t.groups[id := t1.groups[id]] && Timed(id, t1.groups[id], p)
    ensures Valid(t1, p)
  {
  }

  // ---------------------------------------------------------------- the class

  class ThrotlData {
    var td: Td
    ghost var past: Past

    /** All groups exist from the start, empty and unflagged, each with its limits. */
    constructor (ids: seq<nat>, limits: map<nat, Two<Limit>>)
      requires Distinct(ids) && forall id :: id in ids <==> id in limits
      requires forall id, d: Dir :: id in limits ==> limits[id].Get(d).Valid()
      ensures Valid(td, past) && td.ids == ids && td.groups.Keys == limits.Keys
      ensures forall id :: id in td.groups ==> td.groups[id].limits == limits[id]
      ensures td.sent == [] && past.arrived == [] && past.clock == 0
    {
      NewValid(ids, limits);
      hide Valid;
      td := NewTd(ids, limits);
      past := Past([], map id | id in limits :: Two([], []), map[], 0);
    }

    /** throtl_rb_first. */
    method RbFirst() returns (tg: Option<nat>)
      requires TdTreeOk(td)
      modifies this`td
      ensures TdTreeOk(td) && td == old(td).(left := td.left)
      ensures tg == if td.tree == [] then None else Some(td.tree[0].id)
    {
      if td.count == 0 {
        return None;
      }
      if td.left == None {
        td := td.(left := Some(td.tree[0]));
      }
      tg := Some(td.left.value.id);
    }

    /** throtl_enqueue_tg with tg_service_tree_add: walk past every group due no
        later; the cached leftmost node moves only if there was none. */
    method EnqueueTg(id: nat)
      requires id in td.groups
      modifies this`td
      ensures td == Enqueue(old(td), id)
    {
      var g := td.groups[id];
      if !g.onRr {
        var i, isLeft := 0, true;
        while i < |td.tree| && td.tree[i].key <= g.disptime
          invariant i <= |td.tree| && (isLeft <==> i == 0)
          invariant InsertPos(td.tree, g.disptime) == i + InsertPos(td.tree[i..], g.disptime)
        {
          assert td.tree[i..][1..] == td.tree[i + 1..];
          i, isLeft := i + 1, false;
        }
        var n := Node(g.disptime, id);
        td := td.(groups := td.groups[id := g.(onRr := true)],
                  tree := td.tree[..i] + [n] + td.tree[i..],
                  left := if isLeft then Some(n) else td.left,
                  count := td.count + 1);
      }
    }

    /** tg_may_dispatch: only the lane looked at changes. */
    method TgMayDispatch(id: nat, d: Dir, now: nat, size: nat) returns (wait: nat)
      requires Base(td, past) && id in td.groups && GroupOk(id, td.groups[id]) && past.clock <= now
      modifies this
      ensures Base(td, past) && td == Look(old(td), id, d, now, size)
      ensures past.clock == now && past.arrived == old(past).arrived && past.looked == old(past).looked
      ensures wait == MayDispatch(old(td).groups[id].limits.Get(d), old(td).groups[id].lanes.Get(d), now, size).1
    {
      BaseGroup(td, past, id);
      LookBase(td, past, id, d, now, size);
      hide Base, GroupOk;
      wait := MayDispatch(td.groups[id].limits.Get(d), td.groups[id].lanes.Get(d), now, size).1;
      past := Happened(past, id, d, Probe(now, size));
      td := Look(td, id, d, now, size);
    }

    /** The guard and body of the loops of throtl_dispatch_tg: let the head of
        `d` through, charged and its slice trimmed, if there is one and it may go. */
    method DispatchHead(id: nat, d: Dir, now: nat) returns (ok: bool)
      requires Base(td, past) && id in td.groups && past.clock <= now
      modifies this
      ensures Base(td, past) && Later(old(past), past, now)
      ensures LaneServed(old(td), td, id, d, 1, now, if ok then 1 else 0)
      ensures !ok ==> Blocked(td.groups[id], d, now)
    {
      ok := false;
      hide Base, LaneSent, LaneServed, MayDispatch, Look, Pop, Blocked, GroupOk, Looked, Popped, MayGo;
      BaseGroup(td, past, id);
      LaneSentNone(td, id, d);
      GroupLimits(id, td.groups[id]);
      if td.groups[id].lists.Get(d) != [] {
        var size := td.groups[id].lists.Get(d)[0].size;
        LookHead(td, id, d, now, size);
        var wait := TgMayDispatch(id, d, now, size);
        if wait == 0 {
          ok := true;
          BaseGroup(td, past, id);
          PopBase(td, past, id, d);
          PopSent(td, id, d, now);
          LaneSentTrans(old(td), td, Pop(td, id, d, now), id, d, 0, 1);
          HeadGoes(old(td), td, Pop(td, id, d, now), id, d, now);
          past := Happened(past, id, d, GoEvent(td.groups[id], d, now));
          td := Pop(td, id, d, now);
        } else {
          HeadStays(old(td), td, id, d, now);
        }
      } else {
        EmptyBlocked(id, td.groups[id], d, now);
        HeadStays(td, td, id, d, now);
      }
    }

    /** One of the two loops of throtl_dispatch_tg: let up to `max` bios of one
        direction through, for as long as they may go. */
    method DispatchLane(id: nat, d: Dir, max: nat, now: nat) returns (n: nat)
      requires Base(td, past) && id in td.groups && past.clock <= now
      modifies this
      ensures Base(td, past) && n <= max && Later(old(past), past, now)
      ensures LaneServed(old(td), td, id, d, max, now, n)
      ensures n < max ==> Blocked(td.groups[id], d, now)
    {
      hide *;
      n := 0;
      LaneSentNone(td, id, d);
      BaseGroup(td, past, id);
      GroupLimits(id, td.groups[id]);
      SendsStart(td, id, d, max, now);
      LaterNow(past, now);
      while n < max
        invariant Base(td, past) && n <= max && Later(old(past), past, now)
        invariant LaneSent(old(td), td, id, d, n) && id in td.groups
        invariant SendsRest(old(td), td, id, d, max, now, n)
      {
        ghost var before := td;
        ghost var p := past;
        LaterClock(old(past), past, now);
        var ok := DispatchHead(id, d, now);
        LaterTrans(old(past), p, past, now);
        SendsOn(old(td), before, td, id, d, max, now, n, ok);
        if !ok {
          return;
        }
        n := n + 1;
      }
      SendsDone(old(td), td, id, d, max, now);
    }

    /** throtl_dispatch_tg: up to three quarters of the group quantum of reads,
        then up to a quarter of writes. */
    method DispatchTg(id: nat, now: nat) returns (n: nat)
      requires Base(td, past) && id in td.groups && past.clock <= now
      modifies this
      ensures Base(td, past) && n <= GRP_QUANTUM && Later(old(past), past, now)
      ensures GroupServed(old(td), td, id, GRP_QUANTUM * 3 / 4, GRP_QUANTUM - GRP_QUANTUM * 3 / 4, now, n)
      ensures GroupSent(old(td), td, id, n)
      ensures n == 0 ==> Blocked(td.groups[id], Read, now) && Blocked(td.groups[id], Write, now)
    {
      hide Base, Blocked, Sends;
      var maxReads := GRP_QUANTUM * 3 / 4;
      var nrReads := DispatchLane(id, Read, maxReads, now);
      ghost var before := td;
      var nrWrites := DispatchLane(id, Write, GRP_QUANTUM - maxReads, now);
      n := nrReads + nrWrites;
      GroupServedBoth(old(td), before, td, id, maxReads, GRP_QUANTUM - maxReads, now, nrReads, nrWrites);
      GroupSentBoth(old(td), before, td, id, nrReads, nrWrites);
      if n == 0 {
        StillBlocked(before, td, id, now);
      }
    }

    /** The head of `d` is looked at if there is one; returns its wait. */
    method LookAtHead(id: nat, d: Dir, now: nat) returns (wait: Option<nat>)
      requires Base(td, past) && id in td.groups && past.clock <= now && LimitsValid(td.groups[id])
      modifies this
      ensures Base(td, past) && Later(old(past), past, now)
      ensures td == With(old(td), id, LookedHead(old(td).groups[id], d, now))
      ensures wait == HeadWait(old(td).groups[id], d, now) && (wait.Some? ==> past.clock == now)
    {
      BaseGroup(td, past, id);
      wait := None;
      assert td.groups == td.groups[id := td.groups[id]];
      hide Base, MayDispatch;
      if td.groups[id].lists.Get(d) != [] {
        var w := TgMayDispatch(id, d, now, td.groups[id].lists.Get(d)[0].size);
        wait := Some(w);
      }
    }

    /** tg_update_disptime, for a group with queued bios: look at the heads of
        its lists and queue it for when the first of them may go. */
    method UpdateDisptime(id: nat, now: nat)
      requires Base(td, past) && id in td.groups && past.clock <= now && Busy(td.groups[id])
      modifies this
      ensures Base(td, past)
      ensures past == old(past).(trace := past.trace, looked := old(past).looked[id := now], clock := now)
      ensures Requeued(old(td), td, id, now) && LimitsValid(old(td).groups[id])
      ensures td.groups[id] ==
                LookedHead(LookedHead(old(td).groups[id], Read, now), Write, now)
                .(disptime := now + MinWait(old(td).groups[id], now), onRr := true)
      ensures LookedAt(td.groups[id], now) && NotLate(td.groups[id], now)
      ensures Blocked(old(td).groups[id], Read, now) && Blocked(old(td).groups[id], Write, now) ==>
                td.groups[id].disptime > now
    {
      hide Base, MayDispatch, GroupOk, LookedHead, HeadWait, Earlier, Blocked, LookedAt, Requeued, Requeue,
           SameButLanes, LimitsValid, Busy, NotLate;
      BaseGroup(td, past, id);
      GroupLimits(id, td.groups[id]);
      ghost var g := td.groups[id];
      LooksBoth(td, id, now);
      var readWait := LookAtHead(id, Read, now);
      var writeWait := LookAtHead(id, Write, now);
      var minWait := Earlier(readWait, writeWait);
      assert minWait == MinWait(g, now);
      RequeueBase(td, past, id, now + minWait);
      RequeuedBy(old(td), td, id, now + minWait, now);
      LookedBase(Requeue(td, id, now + minWait), past, id, now);
      past := past.(looked := past.looked[id := now]);
      td := Requeue(td, id, now + minWait);
      LookedNow(g, td.groups[id], now);
      LookedIsSoon(td.groups[id], now);
    }

    /** The body of the loop of throtl_select_dispatch: take the first group off
        the tree, dispatch from it, and put it back if it has more. */
    method ServeFirst(now: nat) returns (n: nat)
      requires Valid(td, past) && past.clock <= now && td.tree != [] && td.tree[0].key <= now
      modifies this
      ensures Valid(td, past) && past.clock <= now && past.arrived == old(past).arrived
      ensures n <= GRP_QUANTUM && RoundStep(old(td), td, n, now) && FirstServed(old(td), td, now, n)
    {
      hide *;
      var id := td.tree[0].id;
      FirstOff(td, past, id, now);
      FirstIsDue(td, past, now);
      ghost var p1 := past;
      td := Dequeue(td, id);
      ghost var t1 := td;
      n := DispatchTg(id, now);
      ghost var t2 := td;
      LaterParts(p1, past, now);
      StillThere(t1, td, id, n);
      QueuedIsBusy(td, past, id);
      ServedIs(old(td), t1, t2, past, id, n, now);
      if td.groups[id].nrQueued.read != 0 || td.groups[id].nrQueued.write != 0 {
        UpdateDisptime(id, now);
        RequeuedOn(t2, td, id, now);
        EnqueueTg(id);
        ServedMore(old(td), t1, t2, td, p1, past, id, n, now);
        PutBack(old(td), t2, td, id, n, now);
      } else {
        ServedAll(old(td), t1, t2, p1, past, id, n, now);
        LeftOff(old(td), t2, id, n, now);
      }
    }

    /** throtl_select_dispatch, at one instant: serve the groups whose time has
        come, earliest first, until a quantum of bios has gone out. */
    method SelectDispatch(now: nat) returns (nrDisp: nat)
      requires Valid(td, past) && past.clock <= now
      modifies this
      ensures Valid(td, past) && past.clock <= now && past.arrived == old(past).arrived
      ensures old(td).sent <= td.sent && |td.sent| == |old(td).sent| + nrDisp
      ensures nrDisp <= QUANTUM + GRP_QUANTUM - 1
      ensures exists ts, ns :: Rounds(old(td), ts, ns, now) && EndsWith(ts, td) && GoneOut(ns) == nrDisp
      ensures nrDisp < QUANTUM ==> forall n :: n in td.tree ==> now < n.key
      ensures nrDisp < QUANTUM ==> forall id, d: Dir :: id in td.groups && td.groups[id].lists.Get(d) != [] ==>
                HeadsWait(td, past, id, d, now)
    {
      hide Valid, RoundStep, TdTreeOk, Due, FirstServed, ServedGroup, LookedHead, MinWait;
      nrDisp := 0;
      ghost var ts, ns := [td], [];
      while true
        invariant Valid(td, past) && past.clock <= now && past.arrived == old(past).arrived
        invariant Rounds(old(td), ts, ns, now) && EndsWith(ts, td) && GoneOut(ns) == nrDisp
        invariant old(td).sent <= td.sent && |td.sent| == |old(td).sent| + nrDisp
        invariant nrDisp < QUANTUM
        decreases TotalQueued(td), Due(td.tree, now)
      {
        LeftValid(td, past);
        ghost var before := td;
        var tg := RbFirst();
        assert Valid(before.(left := td.left), past);
        if tg.None? {
          break;
        }
        if now < td.tree[0].key {
          FirstIsLeast(td, now);
          break;
        }
        ghost var t1 := td;
        var n := ServeFirst(now);
        RoundDecreases(t1, td, n, now);
        RoundsMore(old(td), ts, ns, now, t1, td, n);
        ts, ns := ts + [td], ns + [n];
        nrDisp := nrDisp + n;
        if nrDisp >= QUANTUM {
          break;
        }
      }
      if nrDisp < QUANTUM {
        NothingDue(td, past, now);
      }
    }

    /** The pass-through of blk_throtl_bio, when nothing of the bio's direction waits. */
    method TryPass(bio: Bio, now: nat) returns (passed: bool)
      requires Base(td, past) && past.clock <= now && bio.group in td.groups
      requires td.groups[bio.group].lists.Get(bio.dir) == []
      modifies this
      ensures Base(td, past) && old(past).clock <= past.clock == now && past.looked == old(past).looked
      ensures bio.group in td.groups && SameOthers(old(td), td, bio)
      ensures past.arrived == old(past).arrived + if passed then [bio] else []
      ensures td.sent == old(td).sent + if passed then [bio] else []
      ensures passed == LaneFree(old(td), bio, now)
      ensures old(td).groups[bio.group].limits.Get(bio.dir).Valid()
      ensures td.groups[bio.group].lanes.Get(bio.dir) ==
                Step(old(td).groups[bio.group].limits.Get(bio.dir), old(td).groups[bio.group].lanes.Get(bio.dir),
                     Submit(now, bio.size))
    {
      hide Base, MayDispatch, Look, Pass, GroupOk, SameOthers, TrimSlice, Charge, LimitsValid;
      BaseGroup(td, past, bio.group);
      GroupLimits(bio.group, td.groups[bio.group]);
      LookPass(td, bio, now);
      var wait := TgMayDispatch(bio.group, bio.dir, now, bio.size);
      passed := wait == 0;
      if passed {
        BaseGroup(td, past, bio.group);
        PassBase(td, past, bio);
        PassSame(old(td), td, bio, now);
        PassLane(old(td), td, bio, now);
        past := Happened(past, bio.group, bio.dir, Submit(now, bio.size)).(arrived := past.arrived + [bio]);
        td := Pass(td, bio, now);
      }
    }

    /** The rest of blk_throtl_bio: queue the bio, and its group if it is not yet. */
    method QueueBio(bio: Bio, updateDisptime: bool, now: nat)
      requires Valid(td, past) && past.clock <= now && bio.group in td.groups
      requires updateDisptime <==> td.groups[bio.group].lists.Get(bio.dir) == []
      modifies this
      ensures Valid(td, past) && past.clock <= now && past.arrived == old(past).arrived + [bio]
      ensures td.sent == old(td).sent && bio.group in td.groups
      ensures td.groups[bio.group].lists == Push(old(td), bio).groups[bio.group].lists
      ensures updateDisptime ==> past.looked == old(past).looked[bio.group := now]
      ensures !updateDisptime ==> td == Push(old(td), bio)
    {
      hide *;
      var id := bio.group;
      ValidGroup(td, past, id, bio.dir);
      PushBase(td, past, bio);
      PushedOthers(td, past, bio);
      td := Push(td, bio);
      past := past.(arrived := past.arrived + [bio]);
      ghost var t1, p1 := td, past;
      EnqueueBase(td, past, id);
      EnqueuedThen(t1, id);
      EnqueueTg(id);
      if updateDisptime {
        UpdateDisptime(id, now);
        RequeuedThen(t1, Enqueue(t1, id), td, id, now);
        OthersLater(t1, p1, past, id, now);
        TimedNow(id, td.groups[id], past, now);
      } else {
        StillTimed(old(td), old(past), past, bio);
      }
      ServedValid(t1, td, id, past);
    }

    /** blk_throtl_bio, for a bio of a group with limits: it goes straight
        through only if nothing of its direction waits and the limits allow it. */
    method ThrotlBio(bio: Bio, now: nat) returns (passed: bool)
      requires Valid(td, past) && past.clock <= now && bio.group in td.groups
      modifies this
      ensures Valid(td, past) && past.clock <= now && past.arrived == old(past).arrived + [bio]
      ensures td.sent == if passed then old(td).sent + [bio] else old(td).sent
      ensures passed <==> old(td).groups[bio.group].lists.Get(bio.dir) == [] && LaneFree(old(td), bio, now)
      ensures passed ==> SameOthers(old(td), td, bio) && LaneCharged(old(td), td, bio, now)
      ensures bio.group in td.groups
      ensures !passed ==> td.groups[bio.group].lists == Push(old(td), bio).groups[bio.group].lists
    {
      hide *;
      ValidGroup(td, past, bio.group, bio.dir);
      var updateDisptime := td.groups[bio.group].nrQueued.Get(bio.dir) == 0;
      passed := false;
      if updateDisptime {
        passed := TryPass(bio, now);
        SameOthersValid(old(td), old(past), td, past, bio);
        LaneChargedBy(old(td), td, bio, now);
      }
      if !passed {
        PushSame(old(td), td, bio);
        QueueBio(bio, updateDisptime, now);
      }
    }
  }

  /** Only traces and the clock have moved on. */
  ghost predicate Later(p: Past, p': Past, now: nat) {
    p' == p.(trace := p'.trace, clock := p'.clock) && p.clock <= p'.clock <= now
  }

  lemma LaterNow(p: Past, now: nat)
    requires p.clock <= now
    ensures Later(p, p, now)
  {
  }

  lemma LaterClock(p: Past, p': Past, now: nat)
    requires Later(p, p', now)
    ensures p'.clock <= now
  {
  }

  lemma LaterTrans(p: Past, p1: Past, p2: Past, now: nat)
    requires Later(p, p1, now) && Later(p1, p2, now)
    ensures Later(p, p2, now)
  {
  }

  lemma GroupLimits(id: nat, g: Group)
    requires GroupOk(id, g)
    ensures LimitsValid(g) && forall d: Dir :: g.limits.Get(d).Valid()
  {
    assert g.limits.Get(Read).Valid() && g.limits.Get(Write).Valid();
  }

  /** After `n` bios of a lane, what is left to send is the rest. */
  ghost predicate SendsRest(t0: Td, t: Td, id: nat, d: Dir, max: nat, now: nat, n: nat) {
    && id in t0.groups && id in t.groups && n <= max
    && t0.groups[id].limits.Get(d).Valid() && t.groups[id].limits == t0.groups[id].limits
    && var g0, g := t0.groups[id], t.groups[id];
       var (k, lane) := Sends(g0.limits.Get(d), g0.lanes.Get(d), g0.lists.Get(d), max, now);
       var (k', lane') := Sends(g0.limits.Get(d), g.lanes.Get(d), g.lists.Get(d), max - n, now);
       k == n + k' && lane == lane'
  }

  lemma SendsStart(t: Td, id: nat, d: Dir, max: nat, now: nat)
    requires id in t.groups && t.groups[id].limits.Get(d).Valid()
    ensures SendsRest(t, t, id, d, max, now, 0)
  {
  }

  lemma SendsOn(t0: Td, t: Td, t': Td, id: nat, d: Dir, max: nat, now: nat, n: nat, ok: bool)
    requires LaneSent(t0, t, id, d, n) && SendsRest(t0, t, id, d, max, now, n) && n < max
    requires LaneServed(t, t', id, d, 1, now, if ok then 1 else 0)
    ensures id in t'.groups
    ensures ok ==> LaneSent(t0, t', id, d, n + 1) && SendsRest(t0, t', id, d, max, now, n + 1)
    ensures !ok ==> LaneServed(t0, t', id, d, max, now, n)
  {
    hide LaneSent, Sends;
    LaneSentTrans(t0, t, t', id, d, n, if ok then 1 else 0);
    SendsTurn(t, t', id, d, max - n, now, ok);
  }

  lemma SendsDone(t0: Td, t: Td, id: nat, d: Dir, max: nat, now: nat)
    requires LaneSent(t0, t, id, d, max) && SendsRest(t0, t, id, d, max, now, max)
    ensures LaneServed(t0, t, id, d, max, now, max)
  {
    hide LaneSent;
  }

  /** Looking at both heads changes the two lanes only, and neither look changes
      what the other sees. */
  lemma LooksBoth(t: Td, id: nat, now: nat)
    requires id in t.groups && LimitsValid(t.groups[id])
    ensures var g := t.groups[id];
            var g1 := LookedHead(g, Read, now);
            && LimitsValid(g1) && HeadWait(g1, Write, now) == HeadWait(g, Write, now)
            && (HeadWait(g, Read, now).Some? || HeadWait(g, Write, now).Some? <==> Busy(g))
            && var t1 := With(t, id, g1);
               id in t1.groups && SameButLanes(t, With(t1, id, LookedHead(g1, Write, now)), id)
  {
    hide MayDispatch;
  }

  lemma LookedBase(t: Td, p: Past, id: nat, now: nat)
    requires Base(t, p)
    ensures Base(t, p.(looked := p.looked[id := now]))
  {
  }

  lemma LookedTwice(g: Group, d: Dir, now: nat)
    requires g.limits.Get(d).Valid()
    ensures var g' := LookedHead(g, d, now);
            LookedHead(g', d, now) == g' && HeadWait(g', d, now) == HeadWait(g, d, now)
  {
    if g.lists.Get(d) != [] {
      MayDispatchAgain(g.limits.Get(d), g.lanes.Get(d), now, g.lists.Get(d)[0].size);
    }
    hide MayDispatch;
  }

  /** The dispatch time of a group is no later than the limits of any of its heads
      need, but for the rounding of one byte or one tick. */
  ghost predicate NotLate(g: Group, u: nat) {
    forall d: Dir :: g.lists.Get(d) != [] ==>
      g.limits.Get(d).Valid()
      && g.disptime <= ThrottleWait.Latest(g.limits.Get(d), g.lanes.Get(d), u, g.lists.Get(d)[0].size)
  }

  lemma LookedIsSoon(g: Group, u: nat)
    requires LookedAt(g, u)
    ensures NotLate(g, u)
  {
    forall d: Dir | g.lists.Get(d) != []
      ensures g.limits.Get(d).Valid()
      ensures g.disptime <= ThrottleWait.Latest(g.limits.Get(d), g.lanes.Get(d), u, g.lists.Get(d)[0].size)
    {
      hide MayDispatch, ThrottleWait.Latest;
      assert LookedHead(g, d, u) == g;
      ThrottleWait.LookIsSoon(g.limits.Get(d), g.lanes.Get(d), u, g.lists.Get(d)[0].size);
    }
  }

  /** Every queued bio is looked at in time: while it is at the head of its list,
      its group is on the service tree for a time by which it can go, or nearly. */
  lemma HeadsInTime(t: Td, p: Past, id: nat, d: Dir)
    requires Valid(t, p) && id in t.groups && t.groups[id].lists.Get(d) != []
    ensures var g := t.groups[id];
            && id in p.looked && p.looked[id] <= p.clock && Node(g.disptime, id) in t.tree && g.limits.Get(d).Valid()
            && g.disptime <= ThrottleWait.Latest(g.limits.Get(d), g.lanes.Get(d), p.looked[id], g.lists.Get(d)[0].size)
  {
    hide MayDispatch, CountsOk, FifoOk, TracedOk, LookedAt;
    assert Timed(id, t.groups[id], p);
    LookedIsSoon(t.groups[id], p.looked[id]);
    hide ThrottleWait.Latest;
  }

  /** The group that tg_update_disptime leaves. */
  lemma LookedNow(g: Group, g': Group, now: nat)
    requires LimitsValid(g) && Busy(g)
    requires g' == LookedHead(LookedHead(g, Read, now), Write, now).(disptime := now + MinWait(g, now), onRr := true)
    ensures LookedAt(g', now) && Busy(g')
    ensures Blocked(g, Read, now) && Blocked(g, Write, now) ==> g'.disptime > now
  {
    LookedTwice(g, Read, now);
    LookedTwice(LookedHead(g, Read, now), Write, now);
    hide MayDispatch;
  }

  lemma RequeuedOn(t: Td, t': Td, id: nat, now: nat)
    requires Requeued(t, t', id, now)
    ensures id in t'.groups && Enqueue(t', id) == t'
  {
  }

  /** At time `now` the head of direction `d` has not waited as long as the look
      that gave the group its dispatch time told it to. */
  ghost predicate HeadsWait(t: Td, p: Past, id: nat, d: Dir, now: nat) {
    && id in t.groups && id in p.looked && t.groups[id].limits.Get(d).Valid()
    && HeadWait(t.groups[id], d, p.looked[id]).Some?
    && p.looked[id] + HeadWait(t.groups[id], d, p.looked[id]).value > now
  }

  lemma FirstIsLeast(t: Td, now: nat)
    requires TdTreeOk(t) && t.tree != [] && now < t.tree[0].key
    ensures forall n :: n in t.tree ==> now < n.key
  {
  }

  lemma RoundDecreases(t: Td, t': Td, n: nat, now: nat)
    requires RoundStep(t, t', n, now)
    ensures t.sent <= t'.sent && |t'.sent| == |t.sent| + n
    ensures TotalQueued(t') + n == TotalQueued(t) && (n == 0 ==> Due(t'.tree, now) < Due(t.tree, now))
  {
  }

  lemma NothingDue(t: Td, p: Past, now: nat)
    requires Valid(t, p) && forall n :: n in t.tree ==> now < n.key
    ensures forall id, d: Dir :: id in t.groups && t.groups[id].lists.Get(d) != [] ==> HeadsWait(t, p, id, d, now)
  {
    hide MayDispatch, CountsOk, FifoOk, TracedOk;
    forall id, d: Dir | id in t.groups && t.groups[id].lists.Get(d) != []
      ensures HeadsWait(t, p, id, d, now)
    {
      assert Timed(id, t.groups[id], p);
      assert Node(t.groups[id].disptime, id) in t.tree;
    }
  }

  lemma OthersLater(t: Td, p: Past, p': Past, id: nat, now: nat)
    requires OthersOk(t, p, id) && p.clock <= p'.clock
    requires p'.looked == p.looked || p'.looked == p.looked[id := now]
    ensures OthersOk(t, p', id)
  {
    hide LookedAt;
    forall i | i in t.groups && i != id
      ensures Timed(i, t.groups[i], p')
    {
      assert Timed(i, t.groups[i], p);
    }
  }

  lemma TimedNow(id: nat, g: Group, p: Past, now: nat)
    requires LookedAt(g, now) && g.onRr && id in p.looked && p.looked[id] == now <= p.clock
    ensures Timed(id, g, p)
  {
  }

  /** A bio behind others changes no head. */
  lemma StillTimed(t: Td, p: Past, p': Past, b: Bio)
    requires Valid(t, p) && b.group in t.groups && t.groups[b.group].lists.Get(b.dir) != []
    requires p' == p.(arrived := p'.arrived)
    ensures Enqueue(Push(t, b), b.group) == Push(t, b) && Timed(b.group, Push(t, b).groups[b.group], p')
  {
    hide MayDispatch, TreeOk, CountsOk, FifoOk, TracedOk;
    assert Timed(b.group, t.groups[b.group], p);
    var g, g' := t.groups[b.group], Push(t, b).groups[b.group];
    assert forall d: Dir :: g.lists.Get(d) != [] ==> g'.lists.Get(d) != [] && g'.lists.Get(d)[0] == g.lists.Get(d)[0];
    assert forall d: Dir :: g.lists.Get(d) == [] ==> g'.lists.Get(d) == [];
    var u := p.looked[b.group];
    assert HeadWait(g', Read, u) == HeadWait(g, Read, u) && HeadWait(g', Write, u) == HeadWait(g, Write, u);
  }

  lemma ValidGroup(t: Td, p: Past, id: nat, d: Dir)
    requires Valid(t, p) && id in t.groups
    ensures Base(t, p) && t.groups[id].nrQueued.Get(d) == |t.groups[id].lists.Get(d)|
  {
    BaseGroup(t, p, id);
  }

  /** After a look at a passing bio no list differs, and a further look would
      change nothing. */
  lemma LookPass(t: Td, b: Bio, now: nat)
    requires b.group in t.groups && GroupOk(b.group, t.groups[b.group])
    ensures var t' := Look(t, b.group, b.dir, now, b.size);
            && SameOthers(t, t', b) && b.group in t'.groups && t'.sent == t.sent
            && t'.groups[b.group].lists == t.groups[b.group].lists
            && t'.groups[b.group].limits == t.groups[b.group].limits
            && var g, g' := t.groups[b.group], t'.groups[b.group];
               && g'.lanes.Get(b.dir) == MayDispatch(g.limits.Get(b.dir), g.lanes.Get(b.dir), now, b.size).0
               && MayDispatch(g'.limits.Get(b.dir), g'.lanes.Get(b.dir), now, b.size)
                  == (g'.lanes.Get(b.dir), MayDispatch(g.limits.Get(b.dir), g.lanes.Get(b.dir), now, b.size).1)
  {
    MayDispatchAgain(t.groups[b.group].limits.Get(b.dir), t.groups[b.group].lanes.Get(b.dir), now, b.size);
    hide MayDispatch;
  }

  lemma PassSame(t: Td, t1: Td, b: Bio, now: nat)
    requires SameOthers(t, t1, b) && t1.groups[b.group].limits.Get(b.dir).Valid()
    ensures SameOthers(t, Pass(t1, b, now), b) && Pass(t1, b, now).sent == t1.sent + [b]
  {
    hide TrimSlice, Charge, MayDispatch;
  }

  /** A passing bio is looked at, charged, and its slice trimmed. */
  lemma PassLane(t: Td, t1: Td, b: Bio, now: nat)
    requires b.group in t.groups && t.groups[b.group].limits.Get(b.dir).Valid()
    requires t1 == Look(t, b.group, b.dir, now, b.size) && LaneFree(t, b, now)
    ensures b.group in Pass(t1, b, now).groups
    ensures Pass(t1, b, now).groups[b.group].lanes.Get(b.dir) ==
              Step(t.groups[b.group].limits.Get(b.dir), t.groups[b.group].lanes.Get(b.dir), Submit(now, b.size))
  {
    hide TrimSlice, Charge, MayDispatch;
  }

  /** The lane of a bio after it was charged and its slice trimmed. */
  ghost predicate LaneCharged(t: Td, t': Td, b: Bio, now: nat) {
    && b.group in t.groups && b.group in t'.groups && t.groups[b.group].limits.Get(b.dir).Valid()
    && var l, s := t.groups[b.group].limits.Get(b.dir), t.groups[b.group].lanes.Get(b.dir);
       t'.groups[b.group].lanes.Get(b.dir) == TrimSlice(l, Charge(MayDispatch(l, s, now, b.size).0, b.size), now)
  }

  lemma LaneChargedBy(t: Td, t': Td, b: Bio, now: nat)
    requires b.group in t.groups && b.group in t'.groups && t.groups[b.group].limits.Get(b.dir).Valid()
    requires t'.groups[b.group].lanes.Get(b.dir) ==
               Step(t.groups[b.group].limits.Get(b.dir), t.groups[b.group].lanes.Get(b.dir), Submit(now, b.size))
    ensures LaneFree(t, b, now) ==> LaneCharged(t, t', b, now)
  {
    hide TrimSlice, Charge, MayDispatch;
  }

  lemma PushSame(t: Td, t': Td, b: Bio)
    requires b.group in t.groups && (t' == t || SameOthers(t, t', b))
    ensures b.group in t'.groups && Push(t', b).groups[b.group].lists == Push(t, b).groups[b.group].lists
    ensures t'.groups[b.group].lists == t.groups[b.group].lists
  {
  }

  /** Enqueueing a group changes its flag only. */
  lemma EnqueuedThen(t: Td, id: nat)
    requires id in t.groups
    ensures var t' := Enqueue(t, id);
            && id in t'.groups && t'.groups == t.groups[id := t'.groups[id]] && t'.sent == t.sent
            && t'.groups[id].lists == t.groups[id].lists && t'.groups[id].onRr
            && (Busy(t.groups[id]) ==> Busy(t'.groups[id]))
  {
    EnqueueEffect(t, id);
  }

  lemma RequeuedThen(t: Td, t1: Td, t2: Td, id: nat, now: nat)
    requires id in t.groups && id in t1.groups && t1.groups == t.groups[id := t1.groups[id]]
    requires t1.groups[id].lists == t.groups[id].lists && Busy(t1.groups[id]) && Requeued(t1, t2, id, now)
    ensures id in t2.groups && t2.groups == t.groups[id := t2.groups[id]] && t2.sent == t1.sent
    ensures t2.groups[id].lists == t.groups[id].lists && t2.groups[id].onRr && Busy(t2.groups[id])
  {
  }

  /** Nothing differs but the lane of the bio and what was sent. */
  ghost predicate SameOthers(t: Td, t': Td, b: Bio) {
    && b.group in t.groups && b.group in t'.groups
    && t' == With(t, b.group, t'.groups[b.group]).(sent := t'.sent)
    && t'.groups[b.group] ==
         t.groups[b.group].(lanes := t.groups[b.group].lanes.Set(b.dir, t'.groups[b.group].lanes.Get(b.dir)))
  }

  /** The lane of a direction without queued bios does not matter to the times. */
  lemma SameOthersValid(t: Td, p: Past, t': Td, p': Past, b: Bio)
    requires Valid(t, p) && Base(t', p') && SameOthers(t, t', b) && t.groups[b.group].lists.Get(b.dir) == []
    requires p'.looked == p.looked && p.clock <= p'.clock
    ensures Valid(t', p')
  {
    hide Base, MayDispatch;
    forall id | id in t'.groups
      ensures Timed(id, t'.groups[id], p')
    {
      assert Timed(id, t.groups[id], p);
      if id == b.group && t.groups[id].onRr {
        var g, g', u := t.groups[id], t'.groups[id], p.looked[id];
        assert HeadWait(g', Read, u) == HeadWait(g, Read, u) && HeadWait(g', Write, u) == HeadWait(g, Write, u);
      }
    }
  }

  lemma PushedOthers(t: Td, p: Past, b: Bio)
    requires Valid(t, p) && b.group in t.groups
    ensures b.group in Push(t, b).groups && OthersOk(Push(t, b), p.(arrived := p.arrived + [b]), b.group)
    ensures Busy(Push(t, b).groups[b.group]) && Push(t, b).sent == t.sent
  {
    hide LookedAt, Base;
    forall i | i in t.groups && i != b.group
      ensures Timed(i, t.groups[i], p.(arrived := p.arrived + [b]))
    {
      assert Timed(i, t.groups[i], p);
    }
  }

  /** A bio let through at once: charged, and the slice trimmed. */
  function Pass(t: Td, b: Bio, now: nat): Td
    requires b.group in t.groups && t.groups[b.group].limits.Get(b.dir).Valid()
  {
    var g := t.groups[b.group];
    var lane := TrimSlice(g.limits.Get(b.dir), Charge(g.lanes.Get(b.dir), b.size), now);
    With(t, b.group, g.(lanes := g.lanes.Set(b.dir, lane))).(sent := t.sent + [b])
  }

  /** throtl_add_bio_tg up to the enqueueing of the group. */
  function Push(t: Td, b: Bio): Td
    requires b.group in t.groups
  {
    var g := t.groups[b.group];
    With(t, b.group, g.(lists := g.lists.Set(b.dir, g.lists.Get(b.dir) + [b]),
                        nrQueued := g.nrQueued.Set(b.dir, g.nrQueued.Get(b.dir) + 1))).(
      nrQueued := t.nrQueued.Set(b.dir, t.nrQueued.Get(b.dir) + 1))
  }

  lemma PushOk(id: nat, g: Group, b: Bio)
    requires GroupOk(id, g) && b.group == id
    ensures GroupOk(id, g.(lists := g.lists.Set(b.dir, g.lists.Get(b.dir) + [b]),
                           nrQueued := g.nrQueued.Set(b.dir, g.nrQueued.Get(b.dir) + 1)))
  {
    var g' := g.(lists := g.lists.Set(b.dir, g.lists.Get(b.dir) + [b]),
                 nrQueued := g.nrQueued.Set(b.dir, g.nrQueued.Get(b.dir) + 1));
    forall d: Dir
      ensures g'.nrQueued.Get(d) == |g'.lists.Get(d)| && g'.limits.Get(d).Valid()
      ensures forall c :: c in g'.lists.Get(d) ==> c.group == id && c.dir == d
    {
      assert g.nrQueued.Get(d) == |g.lists.Get(d)|;
    }
  }

  lemma PushBase(t: Td, p: Past, b: Bio)
    requires Base(t, p) && b.group in t.groups
    ensures Base(Push(t, b), p.(arrived := p.arrived + [b]))
  {
    hide Run, InOrder, Of, Queued, TreeOk, CountsOk, FifoOk, TracedOk, GroupOk;
    var id, g := b.group, Push(t, b).groups[b.group];
    BaseGroup(t, p, id);
    PushOk(id, t.groups[id], b);
    CountsUpdate(t.ids, t.groups, t.nrQueued, id, g, Push(t, b).nrQueued);
    FifoPush(t.groups, t.sent, p.arrived, b, g);
    TreeFrame(t.tree, t.left, t.count, t.groups, id, g);
    TracedFrame(t.groups, p.trace, p.clock, t.sent, id, g);
  }

  lemma PassOk(id: nat, g: Group, g': Group)
    requires GroupOk(id, g) && g' == g.(lanes := g'.lanes)
    ensures GroupOk(id, g')
  {
    forall d: Dir
      ensures g'.nrQueued.Get(d) == |g'.lists.Get(d)| && g'.limits.Get(d).Valid()
      ensures forall b :: b in g'.lists.Get(d) ==> b.group == id && b.dir == d
    {
      assert g.nrQueued.Get(d) == |g.lists.Get(d)|;
    }
  }

  lemma PassBase(t: Td, p: Past, b: Bio)
    requires Base(t, p) && b.group in t.groups && GroupOk(b.group, t.groups[b.group]) && b.group in p.trace
    requires t.groups[b.group].lists.Get(b.dir) == []
    requires var g := t.groups[b.group];
             MayDispatch(g.limits.Get(b.dir), g.lanes.Get(b.dir), p.clock, b.size) == (g.lanes.Get(b.dir), 0)
    ensures Base(Pass(t, b, p.clock),
                 Happened(p, b.group, b.dir, Submit(p.clock, b.size)).(arrived := p.arrived + [b]))
  {
    hide MayDispatch, Run, InOrder, Of, Queued, TrimSlice, Charge, TracedOk, FifoOk, CountsOk, TreeOk;
    var id, g := b.group, Pass(t, b, p.clock).groups[b.group];
    OfSnocAll(t.sent, b);
    assert Sizes([b]) == [b.size];
    TracedStep(t.groups, p.trace, id, b.dir, g, Submit(p.clock, b.size), t.sent, t.sent + [b], [b]);
    PassOk(b.group, t.groups[b.group], g);
    CountsUpdate(t.ids, t.groups, t.nrQueued, id, g, t.nrQueued);
    FifoPass(t.groups, t.sent, p.arrived, b, g);
    TreeFrame(t.tree, t.left, t.count, t.groups, id, g);
  }

  /** What serving one group at `now` did: `n` bios more went out, and if none
      did, one group less is due. */
  ghost predicate RoundStep(t: Td, t': Td, n: nat, now: nat) {
    && t.sent <= t'.sent && |t'.sent| == |t.sent| + n
    && TotalQueued(t') + n == TotalQueued(t)
    && (n == 0 ==> Due(t'.tree, now) < Due(t.tree, now))
  }

  /** A group after it was served at `now`: of each direction as many bios have
      gone as may, reads up to three quarters of the quantum and writes up to the
      rest. */
  function ServedGroup(g: Group, now: nat): (Group, seq<Bio>)
    requires LimitsValid(g)
  {
    var most := GRP_QUANTUM * 3 / 4;
    var (nr, readLane) := Sends(g.limits.read, g.lanes.read, g.lists.read, most, now);
    var (nw, writeLane) := Sends(g.limits.write, g.lanes.write, g.lists.write, GRP_QUANTUM - most, now);
    (g.(lists := Two(g.lists.read[nr..], g.lists.write[nw..]), lanes := Two(readLane, writeLane),
        nrQueued := Two(|g.lists.read| - nr, |g.lists.write| - nw), onRr := false),
     g.lists.read[..nr] + g.lists.write[..nw])
  }

  /** The group `id` is the first whose time has come. */
  ghost predicate ComesFirst(t: Td, id: nat, now: nat) {
    && t.tree != [] && t.tree[0].key <= now && t.tree[0].id == id && id in t.groups && LimitsValid(t.groups[id])
    && forall x :: x in t.tree ==> t.tree[0].key <= x.key
  }

  /** From `t` to `t'` the group whose time came first was served, and put back
      for the time of its next bio if it has one; the others are as they were. */
  ghost predicate FirstServed(t: Td, t': Td, now: nat, n: nat) {
    && t.tree != [] && ComesFirst(t, t.tree[0].id, now)
    && var id := t.tree[0].id;
       var (g, bios) := ServedGroup(t.groups[id], now);
       && n == |bios| && t'.sent == t.sent + bios
       && t'.groups == t.groups[id :=
            if Busy(g)
            then LookedHead(LookedHead(g, Read, now), Write, now).(disptime := now + MinWait(g, now), onRr := true)
            else g]
  }

  /** Group `id` was served, and is off the tree. */
  ghost predicate ServedTo(t: Td, t2: Td, id: nat, n: nat, now: nat) {
    && id in t.groups && id in t2.groups && LimitsValid(t.groups[id])
    && var (g, bios) := ServedGroup(t.groups[id], now);
       t2.groups[id] == g && n == |bios| && t2.sent == t.sent + bios && t2.groups == t.groups[id := g]
  }

  lemma LaterParts(p: Past, p': Past, now: nat)
    requires Later(p, p', now) && p.clock <= now
    ensures p.clock <= p'.clock <= now && p'.arrived == p.arrived && p'.looked == p.looked
  {
  }

  lemma StillThere(t: Td, t': Td, id: nat, n: nat)
    requires GroupSent(t, t', id, n)
    ensures id in t'.groups
  {
  }

  lemma CountsThere(t: Td, p: Past, id: nat)
    requires Base(t, p) && id in t.groups
    ensures t.groups[id].nrQueued == Two(|t.groups[id].lists.read|, |t.groups[id].lists.write|)
  {
    BaseGroup(t, p, id);
    hide Base;
    assert t.groups[id].nrQueued.Get(Read) == |t.groups[id].lists.Get(Read)|;
    assert t.groups[id].nrQueued.Get(Write) == |t.groups[id].lists.Get(Write)|;
  }

  lemma ServedParts(t: Td, t1: Td, t2: Td, id: nat, n: nat, now: nat)
    requires id in t.groups && t1.groups == t.groups[id := t.groups[id].(onRr := false)] && t1.sent == t.sent
    requires GroupServed(t1, t2, id, GRP_QUANTUM * 3 / 4, GRP_QUANTUM - GRP_QUANTUM * 3 / 4, now, n)
    requires id in t2.groups && t2.groups[id].nrQueued == Two(|t2.groups[id].lists.read|, |t2.groups[id].lists.write|)
    ensures ServedTo(t, t2, id, n, now)
  {
    hide Sends;
    var g := t.groups[id];
    var nr := Sends(g.limits.read, g.lanes.read, g.lists.read, GRP_QUANTUM * 3 / 4, now).0;
    Regroup(t.sent, g.lists.read[..nr], t2.sent[|t.sent| + nr..]);
    assert t2.groups[id] == ServedGroup(g, now).0;
    assert t2.sent == t.sent + ServedGroup(g, now).1;
  }

  /** The group before and after throtl_dispatch_tg. */
  lemma ServedIs(t: Td, t1: Td, t2: Td, p: Past, id: nat, n: nat, now: nat)
    requires id in t.groups && t.groups[id].onRr && t.count > 0 && t1 == Dequeue(t, id)
    requires id in t2.groups && Base(t2, p)
    requires GroupServed(t1, t2, id, GRP_QUANTUM * 3 / 4, GRP_QUANTUM - GRP_QUANTUM * 3 / 4, now, n)
    ensures ServedTo(t, t2, id, n, now)
  {
    hide *;
    DequeueEffect(t, id);
    CountsThere(t2, p, id);
    ServedParts(t, t1, t2, id, n, now);
  }

  lemma QueuedIsBusy(t: Td, p: Past, id: nat)
    requires Base(t, p) && id in t.groups
    ensures t.groups[id].nrQueued.read != 0 || t.groups[id].nrQueued.write != 0 <==> Busy(t.groups[id])
  {
    BaseGroup(t, p, id);
    assert t.groups[id].nrQueued.Get(Read) == |t.groups[id].lists.Get(Read)|;
    assert t.groups[id].nrQueued.Get(Write) == |t.groups[id].lists.Get(Write)|;
  }

  lemma FirstIsDue(t: Td, p: Past, now: nat)
    requires Valid(t, p) && t.tree != [] && t.tree[0].key <= now
    ensures var id := t.tree[0].id; ComesFirst(t, id, now) && t.groups[id].onRr && t.count > 0
  {
    TreeFirst(t, p);
    FirstKey(t);
    BaseGroup(t, p, t.tree[0].id);
    GroupLimits(t.tree[0].id, t.groups[t.tree[0].id]);
  }

  lemma FirstKey(t: Td)
    requires TdTreeOk(t) && t.tree != []
    ensures forall x :: x in t.tree ==> t.tree[0].key <= x.key
  {
    forall x | x in t.tree
      ensures t.tree[0].key <= x.key
    {
      var i :| 0 <= i < |t.tree| && t.tree[i] == x;
      assert i == 0 || 0 < i;
    }
  }

  /** The state after a group that has more was served. */
  lemma PutBack(t: Td, t2: Td, t3: Td, id: nat, n: nat, now: nat)
    requires ComesFirst(t, id, now) && ServedTo(t, t2, id, n, now) && Busy(t2.groups[id]) && LimitsValid(t2.groups[id])
    requires Requeued(t2, t3, id, now)
    requires t3.groups[id] == LookedHead(LookedHead(t2.groups[id], Read, now), Write, now)
                              .(disptime := now + MinWait(t2.groups[id], now), onRr := true)
    ensures FirstServed(t, t3, now, n)
  {
    hide ServedGroup, LookedHead, MinWait, Due;
  }

  lemma LeftOff(t: Td, t2: Td, id: nat, n: nat, now: nat)
    requires ComesFirst(t, id, now) && ServedTo(t, t2, id, n, now) && !Busy(t2.groups[id])
    ensures FirstServed(t, t2, now, n)
  {
    hide ServedGroup, LookedHead, MinWait;
  }

  function GoneOut(ns: seq<nat>): nat {
    if ns == [] then 0 else GoneOut(ns[..|ns| - 1]) + ns[|ns| - 1]
  }

  /** A dispatch round through the states `ts`: one group after the other is
      served, each the first whose time has come, while fewer than a quantum of
      bios have gone out. */
  ghost predicate Rounds(t: Td, ts: seq<Td>, ns: seq<nat>, now: nat) {
    && |ts| == |ns| + 1 && ts[0] == t
    && forall i :: 0 <= i < |ns| ==> FirstServed(ts[i], ts[i + 1], now, ns[i]) && GoneOut(ns[..i]) < QUANTUM
  }

  /** The round ends in `t`, but for the cached leftmost node. */
  ghost predicate EndsWith(ts: seq<Td>, t: Td) {
    ts != [] && ts[|ts| - 1] == t.(left := ts[|ts| - 1].left)
  }

  lemma RoundsMore(t: Td, ts: seq<Td>, ns: seq<nat>, now: nat, a: Td, b: Td, n: nat)
    requires Rounds(t, ts, ns, now) && EndsWith(ts, a) && FirstServed(a, b, now, n) && GoneOut(ns) < QUANTUM
    ensures Rounds(t, ts + [b], ns + [n], now) && EndsWith(ts + [b], b) && GoneOut(ns + [n]) == GoneOut(ns) + n
  {
    var ts', ns' := ts + [b], ns + [n];
    assert ns'[..|ns|] == ns;
    assert FirstServed(ts[|ns|], b, now, n) by { SameServed(a, ts[|ns|], b, now, n); }
    hide FirstServed;
    forall i | 0 <= i < |ns'|
      ensures FirstServed(ts'[i], ts'[i + 1], now, ns'[i]) && GoneOut(ns'[..i]) < QUANTUM
    {
      if i < |ns| {
        assert ns'[..i] == ns[..i];
      }
    }
  }

  lemma SameServed(a: Td, a': Td, b: Td, now: nat, n: nat)
    requires FirstServed(a, b, now, n) && a'.tree == a.tree && a'.groups == a.groups && a'.sent == a.sent
    ensures FirstServed(a', b, now, n)
  {
    hide ServedGroup, LookedHead, MinWait;
  }

  /** Facts about a state that lost its first group, `t1`, as FirstOff gives them. */
  ghost predicate OffFirst(t: Td, t1: Td, p: Past, id: nat, now: nat) {
    && OthersOk(t1, p, id) && id in t1.groups && !t1.groups[id].onRr
    && t1.sent == t.sent && TotalQueued(t1) == TotalQueued(t)
    && Due(t1.tree, now) < Due(t.tree, now)
  }

  lemma ServedAll(t: Td, t1: Td, t2: Td, p1: Past, p: Past, id: nat, n: nat, now: nat)
    requires OffFirst(t, t1, p1, id, now) && GroupSent(t1, t2, id, n) && Base(t2, p) && !Busy(t2.groups[id])
    requires Later(p1, p, now)
    ensures Valid(t2, p) && RoundStep(t, t2, n, now)
  {
    hide Base;
    OthersLater(t1, p1, p, id, now);
    ServedValid(t1, t2, id, p);
  }

  lemma ServedMore(t: Td, t1: Td, t2: Td, t3: Td, p1: Past, p: Past, id: nat, n: nat, now: nat)
    requires OffFirst(t, t1, p1, id, now) && GroupSent(t1, t2, id, n)
    requires id in t3.groups && Busy(t2.groups[id])
    requires Base(t3, p) && Requeued(t2, t3, id, now) && LookedAt(t3.groups[id], now)
    requires p1.clock <= p.clock == now && p.looked == p1.looked[id := now]
    requires n == 0 ==> t3.groups[id].disptime > now
    ensures Valid(t3, p) && RoundStep(t, t3, n, now)
  {
    hide Base, LookedAt;
    OthersLater(t1, p1, p, id, now);
    TimedNow(id, t3.groups[id], p, now);
    ServedValid(t1, t3, id, p);
  }

  lemma LeftValid(t: Td, p: Past)
    requires Valid(t, p)
    ensures TdTreeOk(t)
    ensures forall left :: TdTreeOk(t.(left := left)) ==> Valid(t.(left := left), p)
  {
  }

  /** Taking the first group off the tree, when its time has come. */
  lemma FirstOff(t: Td, p: Past, id: nat, now: nat)
    requires Valid(t, p) && t.tree != [] && t.tree[0].key <= now && id == t.tree[0].id
    ensures id in t.groups && t.count > 0 && Busy(t.groups[id])
    ensures var t1 := Dequeue(t, id);
            Base(t1, p) && id in t1.groups && OffFirst(t, t1, p, id, now)
  {
    hide Base, LookedAt, Timed, Busy;
    TreeFirst(t, p);
    DequeueBase(t, p, id);
    DequeueEffect(t, id);
    DueOff(t, id, now);
    forall i | i in t.groups && i != id
      ensures Timed(i, Dequeue(t, id).groups[i], p)
    {
      assert Timed(i, t.groups[i], p);
    }
  }

  lemma TreeFirst(t: Td, p: Past)
    requires Valid(t, p) && t.tree != []
    ensures var id := t.tree[0].id; id in t.groups && t.groups[id].onRr && Busy(t.groups[id]) && t.count > 0
  {
    hide LookedAt;
    assert t.tree[0] in t.tree;
    assert Timed(t.tree[0].id, t.groups[t.tree[0].id], p);
  }

  lemma DueOff(t: Td, id: nat, now: nat)
    requires id in t.groups && t.groups[id].onRr && t.count > 0
    requires t.tree != [] && t.tree[0].key <= now && id == t.tree[0].id
    ensures Due(Dequeue(t, id).tree, now) < Due(t.tree, now)
  {
  }

  /** From `t` to `t'`, group `id` is (still) on the tree with a dispatch time of
      its own; its lists and everything else are as they were. */
  ghost predicate Requeued(t: Td, t': Td, id: nat, now: nat) {
    && id in t.groups && id in t'.groups && t'.groups == t.groups[id := t'.groups[id]]
    && t'.ids == t.ids && t'.nrQueued == t.nrQueued && t'.sent == t.sent
    && t'.groups[id].lists == t.groups[id].lists && t'.groups[id].onRr
    && (!t.groups[id].onRr ==>
          Due(t'.tree, now) == Due(t.tree, now) + if t'.groups[id].disptime <= now then 1 else 0)
  }

  lemma RequeuedBy(t: Td, t1: Td, id: nat, disptime: nat, now: nat)
    requires SameButLanes(t, t1, id) && (t1.groups[id].onRr ==> t1.count > 0)
    ensures Requeued(t, Requeue(t1, id, disptime), id, now)
    ensures id in Requeue(t1, id, disptime).groups
    ensures Requeue(t1, id, disptime).groups[id] == t1.groups[id].(disptime := disptime, onRr := true)
  {
    RequeueEffect(t1, id, disptime);
    if !t.groups[id].onRr {
      RequeueDue(t1, id, disptime, now);
    }
    hide Requeue, Due;
  }

  // ------------------------------------------------- the rate bound in the queue

  lemma {:induction false} InOrderSplit(now: nat, es: seq<Event>, t: nat, k: nat) returns (mid: nat)
    requires InOrder(now, es, t) && k <= |es|
    ensures InOrder(now, es[..k], mid) && InOrder(mid, es[k..], t)
    decreases |es|
  {
    if k == 0 {
      mid := now;
      assert es[0..] == es;
    } else {
      mid := InOrderSplit(es[0].now, es[1..], t, k - 1);
      assert es[..k][1..] == es[1..][..k - 1] && es[1..][k - 1..] == es[k..];
    }
  }

  lemma NewLaneKept(l: Limit, m: Meter)
    requires l.Valid()
    ensures Kept(l, m, NEW_LANE, 0)
  {
    assert Disp(NEW_LANE, m) == 0 && Total(NEW_LANE, NEW_LANE, m) == 0;
    assert Rate(l, m) * (0 - 0) == 0;
    MulMono(Rate(l, m), 0, l.Slice());
  }

  /** The bytes, or the number, of some bios. */
  function Amount(sizes: seq<nat>, m: Meter): nat {
    if m.Bytes? then Sum(sizes) else |sizes|
  }

  /** What a lane was charged between two points of its trace is what it let go. */
  lemma TotalIsAmount(l: Limit, es: seq<Event>, k: nat, m: Meter)
    requires l.Valid() && k <= |es|
    ensures var s, all, before := Run(l, NEW_LANE, es[..k]), Admitted(l, NEW_LANE, es), Admitted(l, NEW_LANE, es[..k]);
            && before <= all
            && Total(s, Run(l, NEW_LANE, es), m) == Disp(s, m) + Amount(all[|before|..], m)
  {
    hide Run, Admitted, Sum;
    assert es == es[..k] + es[k..];
    var s := Run(l, NEW_LANE, es[..k]);
    RunConcat(l, NEW_LANE, es[..k], es[k..]);
    AdmittedConcat(l, NEW_LANE, es[..k], es[k..]);
    RunServed(l, s, es[k..]);
    assert Admitted(l, NEW_LANE, es)[|Admitted(l, NEW_LANE, es[..k])|..] == Admitted(l, s, es[k..]);
  }

  /** From the beginning the bound holds for every limit. */
  lemma {:induction false} LaneTotalBound(l: Limit, es: seq<Event>, m: Meter, clock: nat)
    requires l.Valid() && InOrder(0, es, clock)
    ensures Total(NEW_LANE, Run(l, NEW_LANE, es), m) * l.hz <= Rate(l, m) * (clock + l.Slice())
  {
    hide Run, Settled, InOrder, IosCap;
    NewLaneKept(l, m);
    RateBound(l, m, NEW_LANE, 0, es, clock);
  }

  lemma {:induction false} LaneRateBound(l: Limit, es: seq<Event>, m: Meter, clock: nat, k: nat)
    requires l.Valid() && RoundsClean(l, m) && InOrder(0, es, clock) && k <= |es|
    ensures var s := Run(l, NEW_LANE, es[..k]);
            Total(s, Run(l, NEW_LANE, es), m) * l.hz <= Rate(l, m) * (clock - s.start + l.Slice())
  {
    hide Run, Step, RoundsClean, Settled, InOrder, IosCap;
    var mid := InOrderSplit(0, es, clock, k);
    assert es == es[..k] + es[k..];
    RunConcat(l, NEW_LANE, es[..k], es[k..]);
    NewLaneKept(l, m);
    RunSettled(l, m, NEW_LANE, 0, es[..k], mid);
    RateBound(l, m, Run(l, NEW_LANE, es[..k]), mid, es[k..], clock);
  }

  lemma BaseTraced(t: Td, p: Past, id: nat, d: Dir)
    requires Base(t, p) && id in t.groups
    ensures id in p.trace
    ensures LaneTraced(t.groups[id].limits.Get(d), t.groups[id].lanes.Get(d), p.trace[id].Get(d), p.clock,
                       Of(t.sent, id, d))
  {
    BaseGroup(t, p, id);
  }

  /** In every state of the queue, and from every point `k` of a lane's past:
      if the limit rounds clean, the bios the lane has sent since, and what its
      slice had been charged by then, are within its rate for the time since
      that slice started, plus one slice. */
  lemma {:induction false} QueueRateBound(t: Td, p: Past, id: nat, d: Dir, m: Meter, k: nat)
    requires Base(t, p) && id in t.groups && id in p.trace && k <= |p.trace[id].Get(d)|
    requires t.groups[id].limits.Get(d).Valid() && RoundsClean(t.groups[id].limits.Get(d), m)
    ensures var l, es := t.groups[id].limits.Get(d), p.trace[id].Get(d);
            var s, j := Run(l, NEW_LANE, es[..k]), |Admitted(l, NEW_LANE, es[..k])|;
            && j <= |Of(t.sent, id, d)|
            && (Disp(s, m) + Amount(Sizes(Of(t.sent, id, d)[j..]), m)) * l.hz
               <= Rate(l, m) * (p.clock - s.start + l.Slice())
  {
    hide Base, Run, Step, RoundsClean, InOrder, Admitted, Sum, Of;
    var l, es, bios := t.groups[id].limits.Get(d), p.trace[id].Get(d), Of(t.sent, id, d);
    BaseTraced(t, p, id, d);
    LaneRateBound(l, es, m, p.clock, k);
    TotalIsAmount(l, es, k, m);
    var j := |Admitted(l, NEW_LANE, es[..k])|;
    assert Sizes(bios[j..]) == Sizes(bios)[j..];
  }

  /** And whatever the limit: all that a direction of a group has ever sent is
      within its rate for the time gone by, plus one slice. */
  lemma {:induction false} QueueTotalBound(t: Td, p: Past, id: nat, d: Dir, m: Meter)
    requires Base(t, p) && id in t.groups && t.groups[id].limits.Get(d).Valid()
    ensures var l := t.groups[id].limits.Get(d);
            Amount(Sizes(Of(t.sent, id, d)), m) * l.hz <= Rate(l, m) * (p.clock + l.Slice())
  {
    hide Base;
    BaseTraced(t, p, id, d);
    var l, es, bios := t.groups[id].limits.Get(d), p.trace[id].Get(d), Of(t.sent, id, d);
    hide Run, InOrder, Admitted, Sum, Of;
    LaneTotalBound(l, es, m, p.clock);
    RunServed(l, NEW_LANE, es);
  }
}

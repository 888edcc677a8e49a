/** The dispatch queue of block/elevator.c: sorted insertion (elv_dispatch_sort)
    from a boundary that moves when the driver is shown a request. */
module DispatchSort {
  import opened Lists

  /** A request: `stop` is set for soft barriers and requests already started. */
  datatype Rq = Rq(id: nat, pos: nat, len: nat, dir: Dir, discard: bool, stop: bool) {
    function End(): nat {
      pos + len
    }
  }

  /** `a` and `b` may change places. */
  predicate Alike(a: Rq, b: Rq) {
    a.dir == b.dir && a.discard == b.discard
  }

  /** One-way elevator order from the boundary: first the sectors at or above it,
      then those below, each ascending. */
  predicate Le(b: nat, p: nat, q: nat) {
    if (p >= b) == (q >= b) then p <= q else p >= b
  }

  /** How many requests at the end of `l` the new one goes before. */
  function Passes(b: nat, l: seq<Rq>, r: Rq): (n: nat)
    ensures n <= |l|
  {
    if l == [] then 0
    else
      var p := l[|l| - 1];
      if !Alike(r, p) || p.stop || Le(b, p.pos, r.pos) then 0 else 1 + Passes(b, l[..|l| - 1], r)
  }

  lemma PassesNone(b: nat, r: Rq)
    ensures Passes(b, [], r) == 0
  {
  }

  lemma PassesStep(b: nat, l: seq<Rq>, r: Rq, k: nat)
    requires 0 < k <= |l|
    ensures var p := l[k - 1];
            Passes(b, l[..k], r) ==
            if !Alike(r, p) || p.stop || Le(b, p.pos, r.pos) then 0 else 1 + Passes(b, l[..k - 1], r)
  {
    assert l[..k][..k - 1] == l[..k - 1];
  }

  /** elv_dispatch_sort. */
  function Sort(b: nat, l: seq<Rq>, r: Rq): seq<Rq> {
    var k := |l| - Passes(b, l, r);
    l[..k] + [r] + l[k..]
  }

  /** Neighbours that may change places are in order. */
  ghost predicate Ordered(b: nat, l: seq<Rq>) {
    forall i :: 0 < i < |l| ==> Neighbours(b, l[i - 1], l[i])
  }

  ghost predicate Neighbours(b: nat, p: Rq, q: Rq) {
    Alike(p, q) && !p.stop && !q.stop ==> Le(b, p.pos, q.pos)
  }

  /** What the new request passes, and what it does not. */
  lemma {:induction false} PassesOnly(b: nat, l: seq<Rq>, r: Rq)
    ensures var k := |l| - Passes(b, l, r);
            && (forall i :: k <= i < |l| ==> Alike(r, l[i]) && !l[i].stop && !Le(b, l[i].pos, r.pos))
            && (k > 0 ==> !Alike(r, l[k - 1]) || l[k - 1].stop || Le(b, l[k - 1].pos, r.pos))
  {
    if Passes(b, l, r) > 0 {
      PassesOnly(b, l[..|l| - 1], r);
    }
  }

  /** `k` is the only place for `r`: behind it are just requests of its kind, none a
      barrier or started, that come later in the order; the one before it is of
      another kind, or a barrier, or started, or comes no later. */
  ghost predicate PlaceOf(b: nat, l: seq<Rq>, r: Rq, k: nat) {
    && (forall i :: k <= i < |l| ==>
          l[i].dir == r.dir && l[i].discard == r.discard && !l[i].stop && !Le(b, l[i].pos, r.pos))
    && (0 < k <= |l| ==>
          var p := l[k - 1]; p.dir != r.dir || p.discard != r.discard || p.stop || Le(b, p.pos, r.pos))
  }

  /** Insertion keeps the order; it loses nothing and leaves the other requests in
      their order. */
  lemma SortOk(b: nat, l: seq<Rq>, r: Rq)
    requires Ordered(b, l)
    ensures Ordered(b, Sort(b, l, r)) && multiset(Sort(b, l, r)) == multiset(l) + multiset{r}
    ensures exists k :: 0 <= k <= |l| && Sort(b, l, r) == l[..k] + [r] + l[k..] && PlaceOf(b, l, r, k)
  {
    hide Passes, Ordered, Le;
    var k := |l| - Passes(b, l, r);
    PassesOnly(b, l, r);
    assert PlaceOf(b, l, r, k);
    PutOrdered(b, l, r, k);
    PutMembers(l, r, k);
  }

  lemma PutMembers(l: seq<Rq>, r: Rq, k: nat)
    requires k <= |l|
    ensures multiset(l[..k] + [r] + l[k..]) == multiset(l) + multiset{r}
  {
    assert l == l[..k] + l[k..];
  }

  lemma PutOrdered(b: nat, l: seq<Rq>, r: Rq, k: nat)
    requires Ordered(b, l) && k <= |l|
    requires forall j :: k <= j < |l| ==> !Le(b, l[j].pos, r.pos)
    requires k > 0 ==> !Alike(r, l[k - 1]) || l[k - 1].stop || Le(b, l[k - 1].pos, r.pos)
    ensures Ordered(b, l[..k] + [r] + l[k..])
  {
    var m := l[..k] + [r] + l[k..];
    hide Neighbours, Le, Alike;
    forall i | 0 < i < |m|
      ensures Neighbours(b, m[i - 1], m[i])
    {
      SortNeighbours(b, l, r, k, i);
    }
  }

  lemma SortNeighbours(b: nat, l: seq<Rq>, r: Rq, k: nat, i: nat)
    requires Ordered(b, l) && k <= |l| && 0 < i <= |l|
    requires forall j :: k <= j < |l| ==> !Le(b, l[j].pos, r.pos)
    requires k > 0 ==> !Alike(r, l[k - 1]) || l[k - 1].stop || Le(b, l[k - 1].pos, r.pos)
    ensures var m := l[..k] + [r] + l[k..]; Neighbours(b, m[i - 1], m[i])
  {
    var m := l[..k] + [r] + l[k..];
    if i < k {
      assert m[i - 1] == l[i - 1] && m[i] == l[i];
    } else if i == k {
      assert m[i - 1] == l[k - 1] && m[i] == r;
    } else if i == k + 1 {
      assert m[i - 1] == r && m[i] == l[k];
    } else {
      assert m[i - 1] == l[i - 2] && m[i] == l[i - 1];
    }
  }

  /** A stretch of requests of one kind, none a barrier or started. */
  ghost predicate Stretch(l: seq<Rq>, i: nat, j: nat) {
    i <= j < |l| && forall k :: i <= k <= j ==> Alike(l[i], l[k]) && !l[k].stop
  }

  /** Any two requests of a stretch are in elevator order. */
  lemma {:induction false} StretchSorted(b: nat, l: seq<Rq>, i: nat, j: nat)
    requires Ordered(b, l) && Stretch(l, i, j)
    ensures Le(b, l[i].pos, l[j].pos)
    decreases j - i
  {
    if i < j {
      StretchSorted(b, l, i, j - 1);
      assert Neighbours(b, l[j - 1], l[j]);
    }
  }

  // --------------------------------------------------------- a boundary that moves

  /** Sector `x` changes sides when the boundary moves from `b` to `c`. */
  predicate Between(b: nat, c: nat, x: nat) {
    b <= x < c || c <= x < b
  }

  /** A pair in order from `b` that is not from `c`: one of the two changes sides
      and the other does not, the first if the boundary moves up, the second if
      it moves down. */
  predicate Breaks(b: nat, c: nat, p: Rq, q: Rq) {
    && Alike(p, q) && !p.stop && !q.stop
    && if b <= c then Between(b, c, p.pos) && !Between(b, c, q.pos)
       else Between(b, c, q.pos) && !Between(b, c, p.pos)
  }

  ghost predicate Unbroken(b: nat, c: nat, l: seq<Rq>) {
    forall i :: 0 < i < |l| ==> !Breaks(b, c, l[i - 1], l[i])
  }

  /** The order survives a moved boundary exactly if no neighbours are broken. */
  lemma MovedOrdered(b: nat, c: nat, l: seq<Rq>)
    requires Ordered(b, l)
    ensures Ordered(c, l) <==> Unbroken(b, c, l)
  {
    forall i | 0 < i < |l|
      ensures Neighbours(c, l[i - 1], l[i]) <==> !Breaks(b, c, l[i - 1], l[i])
    {
      assert Neighbours(b, l[i - 1], l[i]);
    }
  }

  /** In a queue of one kind the order survives the start of its head, if no
      other request starts within it. */
  lemma StartKeepsStretch(b: nat, l: seq<Rq>)
    requires Ordered(b, l) && l != [] && Stretch(l, 0, |l| - 1)
    requires forall k :: 0 < k < |l| ==> !(l[0].pos <= l[k].pos < l[0].End())
    ensures Ordered(l[0].End(), l[0 := l[0].(stop := true)])
  {
    var c, m := l[0].End(), l[0 := l[0].(stop := true)];
    forall i | 0 < i < |m|
      ensures Neighbours(c, m[i - 1], m[i])
    {
      if i > 1 {
        assert Neighbours(b, l[i - 1], l[i]);
        assert Stretch(l, 0, i - 1) && Stretch(l, 0, i) && Stretch(l, i - 1, i);
        StretchSorted(b, l, 0, i - 1);
        StretchSorted(b, l, 0, i);
        StretchSorted(b, l, i - 1, i);
      }
    }
  }

  // ------------------------------------------------------------------------ runs

  /** The queue, its boundary (end_sector), and the request at whose start alone
      the boundary may move (boundary_rq). */
  datatype Dq = Dq(l: seq<Rq>, b: nat, mark: Option<nat>)

  /** Sorted insertion, insertion at the tail, and the driver being shown the
      head (which starts it) and taking it. */
  datatype Event = Insert(r: Rq) | AddTail(r: Rq) | StartHead | TakeHead

  /** Whether showing the head to the driver moves the boundary. */
  predicate Moves(s: Dq) {
    s.l != [] && (s.mark.None? || s.mark == Some(s.l[0].id))
  }

  function Started(l: seq<Rq>): seq<Rq> {
    if l == [] then l else l[0 := l[0].(stop := true)]
  }

  function Step(s: Dq, e: Event): Dq {
    match e
    case Insert(r) => s.(l := Sort(s.b, s.l, r))
    case AddTail(r) => Dq(s.l + [r], r.End(), Some(r.id))
    case StartHead =>
      if Moves(s) then Dq(Started(s.l), s.l[0].End(), None) else s.(l := Started(s.l))
    case TakeHead => if s.l == [] then s else s.(l := s.l[1..])
  }

  /** A request may follow `p` at the tail, from where it sets the boundary: if
      the two are alike, `p` does not start inside it. */
  predicate Follows(p: Rq, r: Rq) {
    || !Alike(p, r) || p.stop || r.stop
    || if r.len == 0 then p.pos == r.pos else !(r.pos < p.pos < r.End())
  }

  lemma FollowsInOrder(p: Rq, r: Rq)
    ensures Neighbours(r.End(), p, r) <==> Follows(p, r)
  {
  }

  /** No neighbours are broken by the step, nor is what comes to the tail. */
  ghost predicate Smooth(s: Dq, e: Event) {
    match e
    case AddTail(r) => Unbroken(s.b, r.End(), s.l) && (s.l != [] ==> Follows(s.l[|s.l| - 1], r))
    case StartHead => Moves(s) ==> Unbroken(s.b, s.l[0].End(), Started(s.l))
    case _ => true
  }

  lemma StartedOrdered(b: nat, l: seq<Rq>)
    requires Ordered(b, l)
    ensures Ordered(b, Started(l)) && (l != [] ==> Ordered(b, l[1..]))
  {
    var m := Started(l);
    forall i | 0 < i < |m|
      ensures Neighbours(b, m[i - 1], m[i])
    {
      assert Neighbours(b, l[i - 1], l[i]);
    }
    forall i | 0 < i < |l| - 1
      ensures Neighbours(b, l[1..][i - 1], l[1..][i])
    {
      assert Neighbours(b, l[i], l[i + 1]);
    }
  }

  lemma SnocOrdered(b: nat, l: seq<Rq>, r: Rq)
    ensures Ordered(b, l + [r]) <==> Ordered(b, l) && (l != [] ==> Neighbours(b, l[|l| - 1], r))
  {
    var m := l + [r];
    if Ordered(b, m) {
      forall i | 0 < i < |l|
        ensures Neighbours(b, l[i - 1], l[i])
      {
        assert Neighbours(b, m[i - 1], m[i]);
      }
      assert l != [] ==> Neighbours(b, m[|l| - 1], m[|l|]);
    }
  }

  /** A step keeps the order, from the boundary it leaves, exactly if it is smooth. */
  lemma StepOrdered(s: Dq, e: Event)
    requires Ordered(s.b, s.l)
    ensures Ordered(Step(s, e).b, Step(s, e).l) <==> Smooth(s, e)
  {
    hide Ordered, Sort, Unbroken;
    match e
    case Insert(r) => SortOk(s.b, s.l, r);
    case AddTail(r) =>
      MovedOrdered(s.b, r.End(), s.l);
      SnocOrdered(r.End(), s.l, r);
      if s.l != [] {
        FollowsInOrder(s.l[|s.l| - 1], r);
      }
    case StartHead =>
      StartedOrdered(s.b, s.l);
      if Moves(s) {
        MovedOrdered(s.b, s.l[0].End(), Started(s.l));
      }
    case TakeHead => StartedOrdered(s.b, s.l);
  }

  function Run(s: Dq, es: seq<Event>): Dq
    decreases |es|
  {
    if es == [] then s else Run(Step(s, es[0]), es[1..])
  }

  ghost predicate SmoothRun(s: Dq, es: seq<Event>)
    decreases |es|
  {
    es == [] || (Smooth(s, es[0]) && SmoothRun(Step(s, es[0]), es[1..]))
  }

  lemma {:induction false} RunOrdered(s: Dq, es: seq<Event>)
    requires Ordered(s.b, s.l) && SmoothRun(s, es)
    ensures Ordered(Run(s, es).b, Run(s, es).l)
    decreases |es|
  {
    if es != [] {
      hide Ordered, Step, Smooth;
      StepOrdered(s, es[0]);
      RunOrdered(Step(s, es[0]), es[1..]);
    }
  }

  /** In every queue reached by a smooth run each stretch is in one-way elevator
      order from the boundary. */
  lemma {:induction false} ReachedSorted(b: nat, es: seq<Event>, i: nat, j: nat)
    requires SmoothRun(Dq([], b, None), es) && Stretch(Run(Dq([], b, None), es).l, i, j)
    ensures var s := Run(Dq([], b, None), es); Le(s.b, s.l[i].pos, s.l[j].pos)
  {
    var s := Run(Dq([], b, None), es);
    RunOrdered(Dq([], b, None), es);
    StretchSorted(s.b, s.l, i, j);
  }

  /** A request put at the tail sets the boundary behind it, and until it is the
      head and shown to the driver nothing but another one moves it. */
  lemma {:induction false} TailHolds(s: Dq, r: Rq, es: seq<Event>)
    requires forall i :: 0 <= i < |es| ==> !es[i].AddTail?
    requires s.b == r.pos + r.len && s.mark == Some(r.id) && NotShown(s, r.id, es)
    ensures Run(s, es).b == r.pos + r.len && Run(s, es).mark == Some(r.id)
    decreases |es|
  {
    if es != [] {
      TailHolds(Step(s, es[0]), r, es[1..]);
    }
  }

  /** `id` is at no time the head when the head is shown. */
  predicate NotShown(s: Dq, id: nat, es: seq<Event>)
    decreases |es|
  {
    es != [] ==> (es[0].StartHead? && s.l != [] ==> s.l[0].id != id) && NotShown(Step(s, es[0]), id, es[1..])
  }

  /** Where the boundary is after a step: behind what was put at the tail, or
      behind the head that was shown, unless that is kept from moving it. */
  lemma BoundaryIs(s: Dq, e: Event)
    ensures var s' := Step(s, e);
            match e
            case AddTail(r) => s'.b == r.pos + r.len && s'.mark == Some(r.id) && s'.l == s.l + [r]
            case StartHead =>
              if s.l == [] then s' == s
              else && s'.l == [s.l[0].(stop := true)] + s.l[1..]
                   && if s.mark.Some? && s.mark.value != s.l[0].id then s'.b == s.b && s'.mark == s.mark
                      else s'.b == s.l[0].pos + s.l[0].len && s'.mark.None?
            case TakeHead => s'.b == s.b && s'.mark == s.mark && (s.l != [] ==> s.l == [s.l[0]] + s'.l)
            case Insert(r) => s'.b == s.b && s'.mark == s.mark
  {
    hide Sort;
  }

  /** Three sorted insertions and the start of the head: the boundary moves past
      the first of the two writes behind it and not past the second. */
  const BREAKING_RUN: seq<Event> := [
    Insert(Rq(0, 500, 8, Read, false, false)), Insert(Rq(1, 100, 8, Write, false, false)),
    Insert(Rq(2, 600, 8, Write, false, false)), StartHead]

  /** So a reachable queue can be out of order, and smoothness is needed. */
  lemma BoundaryBreaks()
    ensures var s := Run(Dq([], 0, None), BREAKING_RUN);
            && s.b == 508 && Stretch(s.l, 1, 2) && !Le(s.b, s.l[1].pos, s.l[2].pos)
            && !Ordered(s.b, s.l)
  {
    var r, w, v := BREAKING_RUN[0].r, BREAKING_RUN[1].r, BREAKING_RUN[2].r;
    assert Sort(0, [], r) == [r];
    PassesStep(0, [r], w, 1);
    assert [r][..1] == [r] && Sort(0, [r], w) == [r, w];
    PassesStep(0, [r, w], v, 2);
    assert [r, w][..2] == [r, w] && Sort(0, [r, w], v) == [r, w, v];
    hide Sort;
    RunSteps(Dq([], 0, None), Dq([r], 0, None), BREAKING_RUN);
    RunSteps(Dq([r], 0, None), Dq([r, w], 0, None), BREAKING_RUN[1..]);
    RunSteps(Dq([r, w], 0, None), Dq([r, w, v], 0, None), BREAKING_RUN[2..]);
    var s := Dq([r.(stop := true), w, v], 508, None);
    RunSteps(Dq([r, w, v], 0, None), s, BREAKING_RUN[3..]);
    assert BREAKING_RUN[3..][1..] == [];
    assert !Neighbours(508, s.l[1], s.l[2]);
  }

  lemma RunSteps(s: Dq, s': Dq, es: seq<Event>)
    requires es != [] && s' == Step(s, es[0])
    ensures Run(s, es) == Run(s', es[1..])
  {
  }

  // ------------------------------------------------------------------- the code

  class DispatchQueue {
    var queue: seq<Rq>
    var boundary: nat
    var mark: Option<nat>

    ghost function S(): Dq
      reads this
    {
      Dq(queue, boundary, mark)
    }

    constructor ()
      ensures S() == Dq([], 0, None)
    {
      queue, boundary, mark := [], 0, None;
    }

    /** elv_dispatch_sort: backwards through the queue to the place of `r`. */
    method Dispatch(r: Rq)
      modifies this`queue
      ensures S() == Step(old(S()), Insert(r))
    {
      hide Passes;
      var k := |queue|;
      assert queue[..k] == queue;
      PassesNone(boundary, r);
      while k > 0
        invariant queue == old(queue)
        invariant k <= |queue| && |queue| - k + Passes(boundary, queue[..k], r) == Passes(boundary, queue, r)
      {
        var p := queue[k - 1];
        PassesStep(boundary, queue, r, k);
        if r.discard != p.discard || r.dir != p.dir || p.stop {
          break;
        }
        if r.pos >= boundary {
          if p.pos < boundary {
            k := k - 1;
            continue;
          }
        } else if p.pos >= boundary {
          break;
        }
        if r.pos >= p.pos {
          break;
        }
        k := k - 1;
      }
      assert k == 0 ==> queue[..k] == [];
      queue := queue[..k] + [r] + queue[k..];
    }

    /** elv_dispatch_add_tail. */
    method DispatchTail(r: Rq)
      modifies this
      ensures S() == Step(old(S()), AddTail(r))
    {
      boundary, mark := r.End(), Some(r.id);
      queue := queue + [r];
    }

    /** The start of blk_peek_request, on the head of the queue. */
    method Peek() returns (rq: Option<Rq>)
      modifies this
      ensures S() == Step(old(S()), StartHead)
      ensures rq == if queue == [] then None else Some(queue[0])
    {
      if queue == [] {
        return None;
      }
      if !queue[0].stop {
        queue := queue[0 := queue[0].(stop := true)];
      }
      if mark.None? || mark == Some(queue[0].id) {
        boundary, mark := queue[0].End(), None;
      }
      rq := Some(queue[0]);
    }
  }
}
